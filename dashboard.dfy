/** The `StationData` component: the selected station and the chart state, the two
    `useState` cells, and the handlers that overwrite them. */
module Dashboard {
  import opened Optional
  import opened Ridership
  import opened Chart

  /** The station selected when the page opens. */
  const DefaultStation: string := "서울역"

  /** The stations the dropdown offers. */
  const Stations: seq<string> := ["서울역", "시청", "종각", "종로3가", "종로5가"]

  /** What the awaited part of `fetchData` yields: `Failed` for anything that lands in its
      `catch` (the request, reading the body, XML parsing, or a document without a
      `CardSubwayTime` element), or the rows the parser found. */
  datatype Fetched = Failed | Received(rows: Rows)

  /** The chart state after one run of `fetchData` for `station` on the outcome `fetched`. */
  function Reload(chart: ChartData, station: string, fetched: Fetched): (r: ChartData)
    requires |chart.datasets| == 2
    ensures WellFormed(chart) ==> WellFormed(r)
    ensures fetched.Failed? ==> r == chart
    ensures fetched.Received? && SelectRow(fetched.rows, station).None? ==> r == chart
    ensures fetched.Received? && SelectRow(fetched.rows, station).Some? ==>
              r == Commit(chart, BuildSeries(SelectRow(fetched.rows, station).value))
  {
    match fetched
    case Failed => chart
    case Received(rows) =>
      match SelectRow(rows, station)
      case None => chart
      case Some(row) => Commit(chart, BuildSeries(row))
  }

  /** A successful run charts exactly the selected row: the 24 hour labels and, at each
      hour, the counts that row holds, with the lines' styling left as it was. */
  lemma ReloadChartsSelectedRow(chart: ChartData, station: string, rows: Rows, row: Row)
    requires WellFormed(chart)
    requires SelectRow(rows, station) == Some(row)
    ensures var r := Reload(chart, station, Received(rows));
            WellFormed(r) && r.labels == HourLabels() &&
            SameStyle(r.datasets[0], chart.datasets[0]) && SameStyle(r.datasets[1], chart.datasets[1]) &&
            |r.datasets[0].data| == Hours && |r.datasets[1].data| == Hours &&
            (forall i :: 0 <= i < Hours ==> r.datasets[0].data[i] == Count(row, OnField(i))) &&
            (forall i :: 0 <= i < Hours ==> r.datasets[1].data[i] == Count(row, OffField(i)))
  {
  }

  class StationData {
    var selectedStation: string
    var chartData: ChartData

    ghost predicate Valid()
      reads this
    {
      WellFormed(chartData)
    }

    constructor ()
      ensures Valid()
      ensures selectedStation == DefaultStation && chartData == InitialChart()
    {
      selectedStation := DefaultStation;
      chartData := InitialChart();
    }

    /** `handleStationChange`: the dropdown's value becomes the selected station. */
    method HandleStationChange(value: string)
      requires Valid()
      modifies this`selectedStation
      ensures Valid()
      ensures selectedStation == value && chartData == old(chartData)
    {
      selectedStation := value;
    }

    /** `fetchData(station)`, given the outcome of the request and the parse. */
    method FetchData(station: string, fetched: Fetched)
      requires Valid()
      modifies this`chartData
      ensures Valid()
      ensures chartData == Reload(old(chartData), station, fetched)
      ensures selectedStation == old(selectedStation)
    {
      if fetched.Failed? {
        return;
      }
      var filteredRow := SelectRow(fetched.rows, station);
      if filteredRow.None? {
        return;
      }
      var series := BuildSeries(filteredRow.value);
      chartData := Commit(chartData, series);
    }

    /** The refresh button: `fetchData` again for the station already selected. */
    method Refresh(fetched: Fetched)
      requires Valid()
      modifies this`chartData
      ensures Valid()
      ensures chartData == Reload(old(chartData), selectedStation, fetched)
      ensures selectedStation == old(selectedStation)
    {
      FetchData(selectedStation, fetched);
    }
  }

  /** A client of the component: what a caller can conclude from the contracts alone. */
  method DashboardScenario()
  {
    var d := new StationData();
    assert d.selectedStation == "서울역" && d.chartData.labels == [];

    assert d.selectedStation == Stations[0];
    d.HandleStationChange(Stations[1]);
    assert d.selectedStation == "시청" && d.chartData == InitialChart();

    // A failed request leaves the chart as it was.
    d.Refresh(Failed);
    assert d.chartData == InitialChart();

    // The first row of the selected station is charted; other stations' rows are skipped.
    var on := seq(Hours, i => i);
    var off := seq(Hours, i => 2 * i);
    var other := EncodeRow(Stations[2], off, on);
    var mine := EncodeRow("시청", on, off);
    FieldsDistinct(0, 0);
    assert !AtStation(other, "시청");
    FirstMatchSelected([other, mine], "시청", 1);
    SeriesRoundTrip("시청", on, off);
    d.Refresh(Received(Many([other, mine])));
    assert d.chartData.labels == HourLabels();
    assert d.chartData.datasets[0].data == on && d.chartData.datasets[1].data == off;
    assert d.selectedStation == "시청";

    // No row of the selected station: the chart keeps the previous data.
    var before := d.chartData;
    d.Refresh(Received(Many([other])));
    assert d.chartData == before;

    // A lone row is charted whatever station it belongs to.
    SeriesRoundTrip("종각", off, on);
    d.Refresh(Received(One(other)));
    assert d.chartData.datasets[0].data == off;
  }
}
