# Utility bill line chart: data preparation, modelled in Dafny

The client of this repository draws monthly electricity, water and gas
consumption as a d3 line chart. Before any d3 drawing call, the chart code in
`client/src/views/home/functions.ts` prepares the data:

- **normalisation.** Each `generate*LineChart` maps the string-valued bill
  records to points `{value, date}`. It gives one point per record, in record
  order. The value is the commodity's consumption field coerced with unary `+`.
  The date is `new Date(+year, +month)`.
- **maximum consumption.** `d3.max` over the point values gives the top of
  the y domain.
- **`buildLineChart`.** An Invalid Date `fromDate`/`toDate` is reset to
  `null`. Each remaining override wins over the series' earliest or latest
  date (`d3.min`/`d3.max`). The series is then sorted by date in place. The
  canvas is `clientWidth` wide and exactly as many units high as there are
  points. The inner sizes subtract fixed margins (top 30, right 85,
  bottom 50, left 85).
- **`generateLineChart`.** It switches on the utility type and picks the
  record set, the value field, the title and the y-axis label. Any other
  value does nothing.

Modules, one per concern:

- `Wrappers` (`wrappers.dfy`): `Option`.
- `JsNumber` (`js_number.dfy`): unary `+` on a record field.
- `JsDate` (`js_date.dfy`): `new Date(year, month)`. A date is a month
  index `year * 12 + month`; `None` is an Invalid Date.
- `BillRecords` (`bill_records.dfy`): the raw record types, with their
  field names.
- `Points` (`points.dfy`): points, normalisation, and the date order the
  sort establishes.
- `Extrema` (`extrema.dfy`): `d3.min`/`d3.max`. Both skip NaN and Invalid
  Date entries and are `undefined` (`None`) when nothing is left.
- `Domain` (`domain.dfy`): domain resolution, stated as a function with its
  properties.
- `LineChart` (`line_chart.dfy`): `buildLineChart` as a method on an
  `array<Point>`, which it sorts in place. It also holds the three
  generators and the dispatch. The result of one call is a `Chart` value:
  what gets drawn, short of pixel geometry.
- `Scenarios` (`scenarios.dfy`): a worked two-record example.

Behaviours of the source worth knowing:

- An empty series, or one with no valid date, leaves `minDate`/`maxDate`
  `undefined`. The chart is still built; the source reports no failure.
- The canvas height is the point count. It is not a configurable input.
- `d3.max`/`d3.min` skip NaN values and Invalid Dates rather than passing
  them on.
- The unknown-commodity case stays a silent no-op (`None`). It is not
  removed by a closed type.

## Model

| member | source | states |
|---|---|---|
| `JsNumber.ToNumber` | client/src/views/home/functions.ts:159-160 | unary `+` on a field: an empty or all-white-space string is 0 |
| `JsNumber.NumberRoundTrip` | client/src/views/home/functions.ts:159-160 | coercing the decimal text of any integer gives that integer back |
| `JsNumber.NonNumericIsNaN` | client/src/views/home/functions.ts:159-160 | a field holding a character that occurs in no JavaScript numeral (not a digit, white space, sign, `.`, exponent or radix letter, hexadecimal digit or letter of `Infinity`) coerces to NaN |
| `JsDate.NewDate` | client/src/views/home/functions.ts:160 | `new Date(+year, +month)` is an Invalid Date exactly when the year or the month is NaN |
| `JsDate.NewDateFields` | client/src/views/home/functions.ts:160 | the date lies in year `FullYear(year) + floor(month / 12)` and zero-based month `month mod 12`; months overflow into the year, and years 0..99 mean 1900..1999 |
| `JsDate.NewDateOrder` | client/src/views/home/functions.ts:40 | for months 0..11, the month-index order of two dates is the calendar order (year, then month) that `compareTime` compares |
| `Points.Normalise` | client/src/views/home/functions.ts:157-161 | `map`: one point per record, the i-th point built from the i-th record |
| `Points.ElectricityPoints` | client/src/views/home/functions.ts:157-161 | one point per electricity record, in order; value `+k_wh_consumption`, date `new Date(+year, +month)` |
| `Points.WaterPoints` | client/src/views/home/functions.ts:192-197 | one point per water record, in order; value `+m_3_consumption`, date `new Date(+year, +month)` |
| `Points.GasPoints` | client/src/views/home/functions.ts:227-232 | one point per gas record, in order; value `+g_j_consumption`, date `new Date(+year, +month)` |
| `Extrema.MaxOf` | client/src/views/home/functions.ts:163-166 | `d3.max`: undefined exactly when no entry is a valid number; otherwise an entry of the input that is at least every valid entry |
| `Extrema.MinOf` | client/src/views/home/functions.ts:47-50 | `d3.min`: undefined exactly when no entry is valid; otherwise an entry of the input that is at most every valid entry |
| `Extrema.ExtremaIgnoreOrder` | client/src/views/home/functions.ts:47-58 | min and max depend only on which entries occur, so extrema taken before the sort equal those taken after it |
| `Domain.ResolveDomain` | client/src/views/home/functions.ts:44-54 | a valid override is the bound whatever the data and whatever the other override (their order is never checked); otherwise the bound is the earliest (latest) valid point date, which bounds every valid point date, is attained by a point, and is undefined exactly when no point has a valid date |
| `Domain.InvalidOverrideIsAbsent` | client/src/views/home/functions.ts:44-45 | an Invalid Date override gives the same domain as no override |
| `Domain.DomainIgnoresOrder` | client/src/views/home/functions.ts:47-58 | any reordering of the series, such as the sort, leaves the resolved domain unchanged |
| `Domain.SortedDomainIsEnds` | client/src/views/home/functions.ts:47-58 | after the sort, with all dates valid and no override, the domain runs from the first point's date to the last point's date |
| `LineChart.SortByDate` | client/src/views/home/functions.ts:56-58 | the array is sorted ascending by date in place, stably: each point comes from a distinct original position, and points with the same date keep their original relative order |
| `LineChart.BuildLineChart` | client/src/views/home/functions.ts:34-63 | the domain equals `ResolveDomain` of the unsorted series; the array is stably sorted by date in place and keeps every point whatever the overrides; the width is `clientWidth`; the height is the point count; the inner width is `clientWidth - 85 - 85`; the inner height is `length - 30 - 50`, negative exactly below 80 points |
| `LineChart.Generate` | client/src/views/home/functions.ts:163-171 | the chart drawn for a point series: its points stably sorted by date, its resolved domain, its maximum value, the sizes for its length |
| `LineChart.GenerateElectricityLineChart` | client/src/views/home/functions.ts:154-172 | draws the electricity points with title 'Electricity Bill Data' and axis text 'Consumption (kwh)' |
| `LineChart.GenerateWaterLineChart` | client/src/views/home/functions.ts:183-207 | draws the water points with title 'Water Bill Data' and axis text 'Consumption (meters cubed)' |
| `LineChart.GenerateGasLineChart` | client/src/views/home/functions.ts:218-242 | draws the gas points with title 'Gas Bill Data' and axis text 'Consumption (GJ)' |
| `LineChart.GenerateLineChart` | client/src/views/home/functions.ts:253-272 | each of the three commodities draws its own records with its own labels; any other value draws nothing |
| `Scenarios.TwoMonthsOfElectricity` | client/src/views/home/functions.ts:157-166 | records for months 0 and 1 of 2023 with 100 and 150 kWh give the points (Jan 2023, 100) and (Feb 2023, 150), the domain Jan to Feb 2023 and the maximum 150 |

## Left out

- The d3 part of `buildLineChart` (functions.ts:65-142) is not modelled. That covers the scales and `.nice()`, the axes, the line path, the circles, the clip path, title placement and all SVG mutation. These are calls into the drawing library and use floating-point pixel geometry. The model only records the labels and sizes handed to them.
- `handleDateOnChange` (functions.ts:280-284) is not modelled. It is a React state callback around the host's date-string parsing. Overrides enter the model as already-built dates.
- The fetching, routing and view files are not part of this model. They are HTTP, React and CSV file I/O.
- `JsNumber.ToNumber` reads only optionally signed decimal integers. Fractions, exponents, hexadecimal/octal/binary literals and `Infinity` are valid JavaScript numbers but become NaN (`None`) in the model, because the model has no floating point.
- `JsDate.NewDate` does not model the Date range limit. JavaScript gives an Invalid Date beyond about 275,000 years from 1970; in the model only NaN arguments give one. Time zones are not modelled either.
- `Domain.Override` dates are month indices, so a filter date's day within the month is not represented. Nothing in this core compares an override with a point date.
- `LineChart.SortByDate` fixes one order where JavaScript does not. With any Invalid Date present, `compareTime` returns NaN and is no consistent comparator, so the order of every point is up to the engine. The model picks the legal order with invalid dates first and valid dates ascending, stably.
- The point value is one `value` field, not the per-commodity `kwh`/`m3`/`gj` field that `yValue` reads, because each chart only ever reads its own field.
