/** The data-shaping half of `fetchData`: picking the selected station's ridership row
    out of the parsed feed, and turning that row into hour labels and two hourly series
    (boarding, alighting). */
module Ridership {
  import opened Optional
  import opened Decimal

  /** One `<row>` of the feed after XML parsing: field name to text. */
  type Row = map<string, string>

  /** What the parser leaves under `CardSubwayTime.row`: several rows, a lone row
      (the parser runs with `explicitArray: false`), or nothing at all. */
  datatype Rows = Many(rows: seq<Row>) | One(row: Row) | Absent

  /** The field that names a row's station. */
  const StationField: string := "STTN"

  /** Number of hourly buckets in a row. */
  const Hours: nat := 24

  /** `row.STTN === station`: an absent field is `undefined` and matches no station. */
  predicate AtStation(row: Row, station: string) {
    StationField in row && row[StationField] == station
  }

  /** `rows.find(row => row.STTN === station)`. */
  function FindStation(rows: seq<Row>, station: string): (r: Option<Row>)
    ensures r.None? <==> forall i :: 0 <= i < |rows| ==> !AtStation(rows[i], station)
    ensures r.Some? ==> exists i :: 0 <= i < |rows| && rows[i] == r.value && AtStation(rows[i], station) &&
                                    forall j :: 0 <= j < i ==> !AtStation(rows[j], station)
  {
    if |rows| == 0 then None
    else if AtStation(rows[0], station) then Some(rows[0])
    else
      var r := FindStation(rows[1..], station);
      assert forall i :: 1 <= i < |rows| ==> rows[i] == rows[1..][i - 1];
      r
  }

  /** The row `fetchData` charts: the first matching row of a sequence, a lone row
      whatever its station, and nothing when the parser produced no row. */
  function SelectRow(rows: Rows, station: string): (r: Option<Row>)
    ensures rows.Absent? ==> r.None?
    ensures rows.One? ==> r == Some(rows.row)
    ensures rows.Many? ==> r == FindStation(rows.rows, station)
    ensures rows.Many? && r.Some? ==> AtStation(r.value, station) && r.value in rows.rows
  {
    match rows
    case Many(rs) => FindStation(rs, station)
    case One(row) => Some(row)
    case Absent => None
  }

  /** Any row of a sequence that matches and has no matching row before it is the one
      selected. */
  lemma FirstMatchSelected(rows: seq<Row>, station: string, k: nat)
    requires k < |rows| && AtStation(rows[k], station)
    requires forall j :: 0 <= j < k ==> !AtStation(rows[j], station)
    ensures SelectRow(Many(rows), station) == Some(rows[k])
  {
  }

  /** The label of hour `i`: `${i}시`. */
  function Label(i: nat): string {
    Show(i) + "시"
  }

  /** The hour a label names, when it is one. */
  function HourOfLabel(l: string): Option<nat> {
    if |l| > 0 && l[|l| - 1] == '시' then Parse(l[..|l| - 1]) else None
  }

  /** `Array.from({ length: 24 }, (_, i) => `${i}시`)`. */
  function HourLabels(): (r: seq<string>)
    ensures |r| == Hours
    ensures forall i :: 0 <= i < Hours ==> r[i] == Label(i)
  {
    seq(Hours, i requires 0 <= i => Label(i))
  }

  /** Each label names its own hour, so the labels are distinct and in ascending hour order. */
  lemma LabelsNameTheirHours()
    ensures forall i :: 0 <= i < Hours ==> HourOfLabel(HourLabels()[i]) == Some(i)
  {
    forall i | 0 <= i < Hours
      ensures HourOfLabel(HourLabels()[i]) == Some(i)
    {
      var l := HourLabels()[i];
      assert l[..|l| - 1] == Show(i);
      ParseShow(i);
    }
  }

  /** The labels spelled out at both ends and across the change to two digits. */
  lemma LabelsSpelled()
    ensures HourLabels()[0] == "0시" && HourLabels()[9] == "9시"
    ensures HourLabels()[10] == "10시" && HourLabels()[23] == "23시"
  {
  }

  /** `HR_${i}_GET_ON_NOPE`: boarding count of hour `i`. */
  function OnField(i: nat): string {
    "HR_" + Show(i) + "_GET_ON_NOPE"
  }

  /** `HR_${i}_GET_OFF_NOPE`: alighting count of hour `i`. */
  function OffField(i: nat): string {
    "HR_" + Show(i) + "_GET_OFF_NOPE"
  }

  /** Distinct hours and directions read distinct fields, none of them the station field. */
  lemma FieldsDistinct(i: nat, j: nat)
    ensures OnField(i) == OnField(j) ==> i == j
    ensures OffField(i) == OffField(j) ==> i == j
    ensures OnField(i) != OffField(j)
    ensures OnField(i) != StationField && OffField(i) != StationField
  {
    var a, b := Show(i), Show(j);
    if |a| == |b| {
      assert a == OnField(i)[3..3 + |a|] == OffField(i)[3..3 + |a|];
      assert b == OnField(j)[3..3 + |b|] == OffField(j)[3..3 + |b|];
      ShowInjective(i, j);
    }
    if |a| == |b| + 1 {
      assert OnField(i)[3 + |b|] != OffField(j)[3 + |b|];
    }
  }

  /** The fields of hour `n` differ from every field of an earlier hour. */
  lemma FieldsOfLaterHour(n: nat)
    ensures forall i :: 0 <= i < n ==>
      OnField(i) != OnField(n) && OnField(i) != OffField(n) &&
      OffField(i) != OffField(n) && OffField(i) != OnField(n)
  {
    forall i | 0 <= i < n
      ensures OnField(i) != OnField(n) && OnField(i) != OffField(n)
      ensures OffField(i) != OffField(n) && OffField(i) != OnField(n)
    {
      FieldsDistinct(i, n);
      FieldsDistinct(n, i);
    }
  }

  /** `Number(row[key]) || 0`: the count a field holds, and 0 when it is absent, empty or
      not a numeral. */
  function Count(row: Row, key: string): (n: nat)
    ensures key in row && IsDigits(row[key]) ==> Parse(row[key]) == Some(n)
    ensures !(key in row && IsDigits(row[key])) ==> n == 0
  {
    if key in row then
      match Parse(row[key])
      case Some(v) => v
      case None => 0
    else 0
  }

  /** The labels and two series `fetchData` derives from the selected row. */
  datatype Series = Series(labels: seq<string>, boarding: seq<nat>, alighting: seq<nat>)

  /** `times`, `rideData` and `getOffData` of `fetchData`. */
  function BuildSeries(row: Row): (s: Series)
    ensures s.labels == HourLabels()
    ensures |s.boarding| == |s.alighting| == |s.labels| == Hours
    ensures forall i :: 0 <= i < Hours ==> s.boarding[i] == Count(row, OnField(i))
    ensures forall i :: 0 <= i < Hours ==> s.alighting[i] == Count(row, OffField(i))
  {
    var times := HourLabels();
    Series(times,
           seq(|times|, i requires 0 <= i < |times| => Count(row, OnField(i))),
           seq(|times|, i requires 0 <= i < |times| => Count(row, OffField(i))))
  }

  /** The series depend on the hourly fields alone: the station field and any other field
      of the row play no part. */
  lemma SeriesReadOnlyHourFields(r1: Row, r2: Row)
    requires forall i :: 0 <= i < Hours ==> Count(r1, OnField(i)) == Count(r2, OnField(i))
    requires forall i :: 0 <= i < Hours ==> Count(r1, OffField(i)) == Count(r2, OffField(i))
    ensures BuildSeries(r1) == BuildSeries(r2)
  {
  }

  /** The hourly fields of the first `n` hours of a row carrying the given counts. */
  function EncodeHours(on: seq<nat>, off: seq<nat>, n: nat): (row: Row)
    requires n <= |on| && n <= |off|
    ensures StationField !in row
    ensures forall i :: 0 <= i < n ==> OnField(i) in row && row[OnField(i)] == Show(on[i])
    ensures forall i :: 0 <= i < n ==> OffField(i) in row && row[OffField(i)] == Show(off[i])
  {
    if n == 0 then map[]
    else
      var prev := EncodeHours(on, off, n - 1);
      FieldsOfLaterHour(n - 1);
      FieldsDistinct(n - 1, n - 1);
      prev[OnField(n - 1) := Show(on[n - 1])][OffField(n - 1) := Show(off[n - 1])]
  }

  /** A row as the feed would send it for a station with the given hourly counts. */
  function EncodeRow(station: string, on: seq<nat>, off: seq<nat>): (row: Row)
    requires |on| == Hours && |off| == Hours
    ensures AtStation(row, station)
    ensures forall i :: 0 <= i < Hours ==> OnField(i) in row && row[OnField(i)] == Show(on[i])
    ensures forall i :: 0 <= i < Hours ==> OffField(i) in row && row[OffField(i)] == Show(off[i])
  {
    var hours := EncodeHours(on, off, Hours);
    assert forall i :: 0 <= i < Hours ==> OnField(i) != StationField && OffField(i) != StationField by {
      forall i | 0 <= i < Hours { FieldsDistinct(i, i); }
    }
    hours[StationField := station]
  }

  /** Building the series of a row that carries given counts gives back those counts:
      nothing is lost, reordered or defaulted on a well-formed row. */
  lemma SeriesRoundTrip(station: string, on: seq<nat>, off: seq<nat>)
    requires |on| == Hours && |off| == Hours
    ensures BuildSeries(EncodeRow(station, on, off)) == Series(HourLabels(), on, off)
  {
    var row := EncodeRow(station, on, off);
    var s := BuildSeries(row);
    forall i | 0 <= i < Hours
      ensures s.boarding[i] == on[i] && s.alighting[i] == off[i]
    {
      ParseShow(on[i]);
      ParseShow(off[i]);
    }
  }
}
