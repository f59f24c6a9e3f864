# Seoul subway station ridership dashboard — a Dafny model

The dashboard is a single React page (`StationData`). It fetches the Seoul open-data
`CardSubwayTime` XML feed and parses it into rows. It picks the row of the station chosen
in a dropdown and charts that station's hourly boarding and alighting counts. The counts
come from the fields `HR_<hour>_GET_ON_NOPE` and `HR_<hour>_GET_OFF_NOPE`. A refresh button
loads the feed again for the same station.

This project models the data-shaping part of `fetchData` and the component state it writes:

- `optional.dfy`: the `Option` datatype.
- `decimal.dfy` (module `Decimal`): `${i}` as `Show`. The `Number(field)` reading of a
  count, restricted to digit strings, as `Parse`. Both round trips between them are proved.
- `ridership.dfy` (module `Ridership`): a row is `map<string, string>`. The parser's output
  is `Rows = Many(seq<Row>) | One(Row) | Absent`. It also holds the row selection
  (`FindStation`, `SelectRow`), the hour labels, the per-field count with its
  default of 0, and `BuildSeries`. `EncodeRow` writes given counts into a row as decimal
  digit strings, and `SeriesRoundTrip` proves that building the series reads them back unchanged.
- `chart.dfy` (module `Chart`): the `ChartData` record and its initial value. `Commit` is
  the `setChartData` call. `WellFormed` is the invariant the chart state keeps. A dataset's
  `label` property is the field `legend`, because `label` is a reserved word in Dafny.
- `dashboard.dfy` (module `Dashboard`): the outcome of the request and parse as a
  parameter (`Fetched`), and `Reload`, the chart state after one run of `fetchData`. The
  class `StationData` holds the two `useState` cells as fields. Its methods are
  `HandleStationChange`, `FetchData` (the early returns and the `catch`, written as
  imperative code) and `Refresh`. `DashboardScenario` is a client that walks through
  selection, a failed request, a first-match hit, a miss and a lone row.

## Model

| member | source | states |
|---|---|---|
| Decimal.Show | src/app/page.tsx:80 | the rendering of an hour number is a non-empty digit string with no superfluous leading zero, starting with `0` exactly for 0 |
| Decimal.Parse | src/app/page.tsx:81-82 | a field reads as a number exactly when it is a non-empty string of decimal digits |
| Decimal.ParseShow | src/app/page.tsx:80-82 | reading back the rendering of `n` gives `n` |
| Decimal.ShowParse | src/app/page.tsx:81-82 | a numeral without leading zeros is the rendering of the value read from it |
| Decimal.ParseLeadingZero | src/app/page.tsx:81-82 | leading zeros do not change the value read (`"07"` reads as 7) |
| Ridership.FindStation | src/app/page.tsx:71 | `find` yields nothing exactly when no row has `STTN` equal to the station; otherwise a row at an index that matches, with no match before it |
| Ridership.FirstMatchSelected | src/app/page.tsx:70-71 | for a sequence of rows, the first row whose `STTN` equals the station is the one selected |
| Ridership.SelectRow | src/app/page.tsx:67-77 | a sequence yields its first matching row; a lone row is taken whatever its station; no row yields nothing |
| Ridership.HourLabels | src/app/page.tsx:80 | exactly 24 labels, label `i` being the decimal rendering of `i` followed by `시` |
| Ridership.LabelsNameTheirHours | src/app/page.tsx:80 | label `i` names hour `i`, so the labels are distinct and in ascending hour order |
| Ridership.LabelsSpelled | src/app/page.tsx:80 | the labels are `0시` … `9시`, `10시` … `23시` |
| Ridership.FieldsDistinct | src/app/page.tsx:81-82 | the 48 hourly field names are pairwise distinct and none of them is `STTN` |
| Ridership.Count | src/app/page.tsx:81-82 | a field's count is the number it holds, and 0 when the field is absent, empty or not a numeral |
| Ridership.BuildSeries | src/app/page.tsx:79-82 | the 24 labels, and two series of length 24 whose element `i` is the count of `HR_i_GET_ON_NOPE` resp. `HR_i_GET_OFF_NOPE` |
| Ridership.SeriesReadOnlyHourFields | src/app/page.tsx:81-82 | the series depend only on the 48 hourly fields, not on the station or any other field |
| Ridership.EncodeRow | src/app/page.tsx:25-28 | a row for a station whose hourly fields hold the given counts, rendered in decimal |
| Ridership.SeriesRoundTrip | src/app/page.tsx:80-82 | building the series of a row that holds given counts gives back exactly those counts, in hour order |
| Chart.InitialChart | src/app/page.tsx:38-56 | the initial chart has no labels and two empty lines, boarding then alighting, and is well formed |
| Chart.Commit | src/app/page.tsx:85-91 | the new chart has the series' labels and exactly two lines whose points are the boarding and alighting series; each line keeps its legend, colours and `fill`; well-formedness is kept |
| Chart.CommitIgnoresOldSeries | src/app/page.tsx:85-91 | a commit depends on the old chart only through its styling, so an outdated captured chart value gives the same result, and committing twice equals committing once |
| Dashboard.Reload | src/app/page.tsx:59-95 | a failure or a missing row leaves the chart unchanged; otherwise the chart is the commit of the selected row's series; well-formedness is kept |
| Dashboard.ReloadChartsSelectedRow | src/app/page.tsx:67-91 | after a successful run the chart holds the 24 labels and, at every hour, the selected row's counts, with the styling unchanged |
| Dashboard.StationData.constructor | src/app/page.tsx:37-56 | the page starts on station `서울역` with the initial chart |
| Dashboard.StationData.HandleStationChange | src/app/page.tsx:103-105 | the chosen value becomes the selected station and the chart is unchanged |
| Dashboard.StationData.FetchData | src/app/page.tsx:59-95 | the chart becomes `Reload` of the old chart, and the selected station is unchanged |
| Dashboard.StationData.Refresh | src/app/page.tsx:178 | the chart becomes `Reload` for the currently selected station, which stays selected |

## Left out

- The HTTP request and reading its body (`src/app/page.tsx:61-62`) are network I/O. Their outcome is the parameter `Fetched`.
- XML parsing by `xml2js` (`src/app/page.tsx:64`) is a foreign library. Its output is the `Rows` input. Every exception that reaches the `catch` is `Failed`. This includes a document without a `CardSubwayTime` element, where reading `.row` throws. Parser outputs other than maps of strings are not modelled, such as an empty `<row/>` becoming an empty string.
- Ridership.Count: reads only non-empty ASCII digit strings as numbers, because JavaScript's `Number` works on floating point. Strings `Number` also accepts read as 0 here: surrounding whitespace, a sign, fractions, exponents, hexadecimal and `Infinity`. Loss of precision above 2^53 is not modelled either.
- Decimal.Parse: same restriction as `Ridership.Count`, of which it is the numeric part.
- The `useEffect` hook that re-fetches whenever the selection changes (`src/app/page.tsx:98-100`) is asynchronous, and so is the order in which overlapping requests finish. `FetchData` takes the station it was called for and compares it with nothing. Nothing in `fetchData` checks whether the selection changed while the request was outstanding; a late result is committed, and the model does the same.
- Logging, `ChartJS.register` and all layout (`src/app/page.tsx:11, 65, 75, 107-184`) are presentation.
- `HandleStationChange` accepts any string. The five dropdown options are listed in `Dashboard.Stations`, but the handler does not check against them, just as the source does not.
- Commit requires exactly two datasets, which the `WellFormed` invariant guarantees. Spreading a missing dataset can therefore never happen.
