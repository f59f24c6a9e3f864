/** The chart state of the dashboard (`ChartData` in the component) and the one way
    `fetchData` changes it. */
module Chart {
  import opened Ridership

  /** One line of the chart: its legend (the `label` property), its points and its fixed
      styling. */
  datatype Dataset = Dataset(legend: string, data: seq<nat>, borderColor: string,
                             backgroundColor: string, fill: bool)

  datatype ChartData = ChartData(labels: seq<string>, datasets: seq<Dataset>)

  /** Everything of a dataset but its points. */
  predicate SameStyle(d: Dataset, e: Dataset) {
    d.legend == e.legend && d.borderColor == e.borderColor &&
    d.backgroundColor == e.backgroundColor && d.fill == e.fill
  }

  const BoardingLine: Dataset :=
    Dataset("승차 인원", [], "rgba(75,192,192,1)", "rgba(75,192,192,0.2)", false)

  const AlightingLine: Dataset :=
    Dataset("하차 인원", [], "rgba(255,99,132,1)", "rgba(255,99,132,0.2)", false)

  /** The chart's standing invariant: the boarding and the alighting line with their
      initial styles, and either nothing loaded yet or the 24 hour labels with one point
      per label on each line. */
  predicate WellFormed(c: ChartData) {
    |c.datasets| == 2 &&
    SameStyle(c.datasets[0], BoardingLine) && SameStyle(c.datasets[1], AlightingLine) &&
    |c.datasets[0].data| == |c.labels| && |c.datasets[1].data| == |c.labels| &&
    (c.labels == [] || c.labels == HourLabels())
  }

  /** The state `useState<ChartData>` starts from: no labels and two empty lines. */
  function InitialChart(): (c: ChartData)
    ensures WellFormed(c)
    ensures c.labels == [] && |c.datasets| == 2
    ensures c.datasets[0].data == [] && c.datasets[1].data == []
    ensures c.datasets[0].legend == "승차 인원" && c.datasets[1].legend == "하차 인원"
  {
    ChartData([], [BoardingLine, AlightingLine])
  }

  /** The `setChartData` call of `fetchData`: new labels, each line's points replaced by
      its series, each line's styling spread over from the chart it replaces. */
  function Commit(chart: ChartData, s: Series): (r: ChartData)
    requires |chart.datasets| == 2
    ensures r.labels == s.labels && |r.datasets| == 2
    ensures r.datasets[0].data == s.boarding && r.datasets[1].data == s.alighting
    ensures SameStyle(r.datasets[0], chart.datasets[0]) && SameStyle(r.datasets[1], chart.datasets[1])
    ensures WellFormed(chart) && |s.boarding| == |s.alighting| == |s.labels| &&
            (s.labels == [] || s.labels == HourLabels())
            ==> WellFormed(r)
  {
    ChartData(s.labels, [chart.datasets[0].(data := s.boarding), chart.datasets[1].(data := s.alighting)])
  }

  /** A commit forgets the points and labels it overwrites: it depends on the previous
      chart only through the styling, so the chart value a `fetchData` closure captured
      and the current one give the same result, and committing twice is committing once. */
  lemma CommitIgnoresOldSeries(c1: ChartData, c2: ChartData, s: Series)
    requires |c1.datasets| == 2 && |c2.datasets| == 2
    requires SameStyle(c1.datasets[0], c2.datasets[0]) && SameStyle(c1.datasets[1], c2.datasets[1])
    ensures Commit(c1, s) == Commit(c2, s)
    ensures Commit(Commit(c1, s), s) == Commit(c1, s)
  {
  }
}
