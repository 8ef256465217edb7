# Space weather visualiser: a Dafny model of its data pipeline

The visualiser is a one-page dashboard. It fetches space-weather event records
from NASA's DONKI service for one event kind and one date range. It flattens
them into a table and gives every row a calendar `date`. It then plots
per-day values. This project models the part of the script that makes
decisions, and proves what that part promises:

- **Request building** (`fetch.dfy`). Every request carries a base parameter
  map: `startDate` and `endDate` as `YYYY-MM-DD`, plus `api_key`. The map is
  then updated in place with the five CME filters, or with the
  notifications `type=all`. A status of 200 yields the parsed body. Any other
  status yields the error message with the status code and the body text. An
  empty key sends nothing. The HTTP transport is a function parameter (`get`).
- **Per-kind tables** (`event_kinds.dfy`). The descriptions, date fields and
  y-axis labels are read with the script's fallbacks: "No description
  available.", no date field, and "Count".
- **Date-column resolution** (`date_column.dfy`). The kind's mapped field is
  used if the table has that column. Otherwise the first column, in column
  order, whose lower-cased name contains `date` or `time` is used, with a
  warning naming it. Otherwise every date is NaT and an error is shown. The
  DataFrame (`frames.dfy`) is a class whose `date` column is assigned in place.
- **Grouping by day** (`grouping.dfy`, `kp_readings.dfy`, `visualiser.dfy`).
  Every kind but GST counts rows per distinct non-NaT date. GST explodes the
  `allKpIndex` readings with a loop, dates each reading by `observedTime`,
  and takes the NaN-skipping mean of `kpIndex` per date. The chart is a line
  chart for CME and GST and a bar chart for everything else.

Timestamp parsing (`pd.to_datetime(..., errors='coerce').dt.date`) is a
parameter `toDate: Value -> Option<Date>`; a NaN cell always parses to NaT.
Means are exact, over `real`.

Four behaviours of the script are easy to miss; the model follows the code:

- `groupby('date')` sorts its keys by default. So the points come out in
  strictly ascending date order, and the model proves it.
- The notifications bar chart passes no `labels=`, so its y-axis shows
  plotly's default column name and not "Number of Notifications". The model
  records its label as `None`.
- On the GST path, the date-resolution warning or error is still shown,
  because the `date` column is assigned before the kind is branched on.
  After that, the top-level `startTime` is ignored.
- A GST record whose `allKpIndex` is empty, NaN or not a list explodes to one
  empty reading. If no reading has `observedTime`, pandas raises `KeyError`.
  If no reading has `kpIndex`, the aggregation raises `KeyError`. A day whose
  readings all lack `kpIndex` gets a NaN mean (`None`).

## Model

| member | source | states |
|---|---|---|
| `Dates.FormatIsoDate` | space_weather_visualiser.py:117-118 | a date is written as ten characters with `-` at positions 4 and 7 |
| `Dates.IsoDateRoundTrip` | space_weather_visualiser.py:117-118 | reading a formatted `startDate`/`endDate` back gives exactly the date it was made from |
| `Decimal.Pad` | space_weather_visualiser.py:117-118 | a zero-padded `%Y`/`%m`/`%d` field has exactly the requested width, only digits, and denotes the number |
| `Decimal.NatToStringRoundTrip` | space_weather_visualiser.py:141 | the decimal spelling of the status code reads back as that code |
| `EventKinds.ChartStyleFor` | space_weather_visualiser.py:212-253 | the chart is a line chart exactly when the kind is CME or GST |
| `EventKinds.Description` | space_weather_visualiser.py:94 | the "No description available." fallback is given exactly to kinds outside the nine; a listed kind gets its table entry |
| `EventKinds.DateField` | space_weather_visualiser.py:191 | a date field exists exactly for the nine kinds, and it is their non-empty table entry |
| `EventKinds.YLabel` | space_weather_visualiser.py:189 | the "Count" fallback is given exactly to kinds outside the nine; a listed kind gets its table entry |
| `EventKinds.EventTypesCoverKinds` | space_weather_visualiser.py:61-79 | the sidebar offers exactly the nine endpoints, each under one label |
| `EventKinds.KnownKindsAreMapped` | space_weather_visualiser.py:7-191 | each of the nine kinds has a description (table at :7-17, read at :94), a non-empty date field (:163-173) and its own y-label (:176-186), so no fallback applies |
| `EventKinds.UnknownKindsFallBack` | space_weather_visualiser.py:189-191 | an unlisted kind gets "No description available.", the "Count" label and no date field |
| `Fetch.ResponseOutcome` | space_weather_visualiser.py:138-142 | status 200 if and only if the payload is returned, and then it is the parsed body; otherwise the failure carries the status and the message with code and body text |
| `Fetch.FetchErrorMessage` | space_weather_visualiser.py:141 | the `st.error` text; `FetchErrorMessageRoundTrip` states that it keeps the code and the body text |
| `Fetch.FetchErrorMessageRoundTrip` | space_weather_visualiser.py:141 | the error message can be parsed back into its status code and body text |
| `Fetch.ForbiddenScenario` | space_weather_visualiser.py:138-142 | a 403 answer is the failure "Error fetching data: 403 - " followed by the body text |
| `Fetch.BaseParams` | space_weather_visualiser.py:116-120 | the base map has exactly the keys `startDate`, `endDate` and `api_key` |
| `Fetch.CmeFiltersExtendBase` | space_weather_visualiser.py:123-130 | the CME update adds exactly the five filters with their values and keeps the base entries |
| `Fetch.NotificationFiltersExtendBase` | space_weather_visualiser.py:131-134 | the notifications update adds only `type="all"` and keeps the base entries |
| `Fetch.FetchSpaceWeather` | space_weather_visualiser.py:114-142 | the request goes to the kind's endpoint; the exact parameter set for CME, for notifications and for every other kind; the result is the status-mapped answer to that request |
| `Fetch.Submit` | space_weather_visualiser.py:144-149 | no request is made if and only if the key is empty, and then the missing-key error is shown; otherwise the request to the kind's endpoint carries the key, the selected start and end dates, and exactly the kind's filters (the CME five, the notifications type, or none), and its answer is status-mapped |
| `Frames.DateCell` | space_weather_visualiser.py:194 | the cell written for a parsed date reads back as that date, and the cell for NaT reads back as no date |
| `Frames.ParseCell` | space_weather_visualiser.py:194 | a NaN cell always parses to NaT; any other cell is given to the parser |
| `Frames.WithColumn` | space_weather_visualiser.py:194 | assigning a column keeps the existing columns in their order as a prefix, adds only the new one (at the end when it is new), and keeps labels distinct |
| `Frames.DataFrame.constructor` | space_weather_visualiser.py:160 | the flattened table holds the given columns and rows |
| `Frames.DataFrame.SetColumn` | space_weather_visualiser.py:194 | column assignment updates each row's cell in place and keeps the table well-formed |
| `KpReadings.SubReadings` | space_weather_visualiser.py:219-220 | every record contributes at least one reading row |
| `KpReadings.Explode` | space_weather_visualiser.py:219-220 | exploding never drops a record: at least one row per record; `ExplodeReadings`, `ExplodeAppend` and `OneRecord` state its contents and order |
| `KpReadings.ExplodeReadings` | space_weather_visualiser.py:219-220 | the loop builds exactly the exploded readings, record by record |
| `KpReadings.ExplodeAppend` | space_weather_visualiser.py:219-220 | exploding a concatenation explodes each part in turn, so order across records is kept |
| `KpReadings.OneRecord` | space_weather_visualiser.py:219-220 | one record explodes to its own readings, in list order |
| `KpReadings.ExplodeReadsOnlyKpColumn` | space_weather_visualiser.py:219-220 | the readings depend only on the `allKpIndex` cells |
| `DateColumn.FindDateColumn` | space_weather_visualiser.py:197-199 | the chosen column is date-like and no earlier column is; none is chosen exactly when no column is date-like |
| `DateColumn.ResolveDateField` | space_weather_visualiser.py:191-204 | the mapped field is used exactly when it is a column; otherwise the first date-like column; nothing exactly when neither exists |
| `DateColumn.MappedWhenPresent` | space_weather_visualiser.py:193-194 | a present mapped field is always the one used |
| `DateColumn.UnmappedKindUsesHeuristic` | space_weather_visualiser.py:191-197 | a kind without a table entry never takes the mapped branch |
| `DateColumn.ResolutionNotices` | space_weather_visualiser.py:193-204 | no message for the mapped field, a warning naming a scanned field, the no-field error otherwise |
| `DateColumn.UnresolvedMeansNoDates` | space_weather_visualiser.py:202-204 | with no usable column every row's date is NaT |
| `DateColumn.EventTimeFallback` | space_weather_visualiser.py:196-201 | any flare table without `beginTime` whose first date-like column is `eventTime` takes its dates from `eventTime`, with the warning "Using 'eventTime' as the date field." |
| `DateColumn.FlareTableUsesEventTime` | space_weather_visualiser.py:196-201 | the table `flrID, eventTime, classType` meets those conditions and resolves to `eventTime` |
| `DateColumn.IsDateLike` | space_weather_visualiser.py:197 | the column test of the scan; `EventTimeIsDateLike` and `FlrIdIsNotDateLike` show one column that passes and one that does not |
| `DateColumn.DateNotices` | space_weather_visualiser.py:196-204 | at most one message; none exactly for the mapped field; an error exactly when no field was found |
| `DateColumn.ResolvedDates` | space_weather_visualiser.py:193-204 | one date per row: every date is NaT when no field was found, else each row's date is its parsed cell of the chosen field |
| `DateColumn.WithDates` | space_weather_visualiser.py:194 | after the assignment each row's `date` cell reads as that row's resolved date, and every other cell of every row is kept |
| `DateColumn.AssignDateColumn` | space_weather_visualiser.py:191-204 | the in-place assignment gives every row its resolved date, adds the `date` column, and shows the resolution's messages |
| `Grouping.GroupByDate` | space_weather_visualiser.py:208 | `groupby('date')`; its contract is stated by `GroupByDateCorrect` |
| `Grouping.GroupByDateCorrect` | space_weather_visualiser.py:208 | groups are strictly ascending by date; each holds exactly its date's items and at least one; every dated item has a group; sizes add up to the dated items |
| `Grouping.Mean` | space_weather_visualiser.py:222 | the NaN-skipping mean is NaN exactly when no value is present, and otherwise lies between the least and greatest present value |
| `Grouping.MeanWithin` | space_weather_visualiser.py:222 | a mean of values in a range lies in that range |
| `Grouping.MeanBounded` | space_weather_visualiser.py:222 | a group's mean lies between its least and greatest present value |
| `Visualiser.ShownYLabel` | space_weather_visualiser.py:212-256 | no `labels=` exactly on the notifications chart (:241-242); every other chart shows the kind's y-label |
| `Visualiser.CountReport` | space_weather_visualiser.py:207-256 | the count branches; `CountKindsReport` and `CountChartShape` state their points, style and label |
| `Visualiser.GstReport` | space_weather_visualiser.py:217-233 | the GST branch; `GstMeansReport`, `GstWithoutKpColumn` and `GstWithoutReadingFields` state its three outcomes |
| `Visualiser.ExpectedReport` | space_weather_visualiser.py:191-256 | what one press shows; `Render` is proved to produce it, and `ChartChoice` states its chart choice for every kind |
| `Visualiser.Render` | space_weather_visualiser.py:191-256 | the button's branch on the kind shows exactly the expected report and leaves the table with its `date` column |
| `Visualiser.CountKindsReport` | space_weather_visualiser.py:207-256 | for every kind but GST: one point per distinct resolved date, ascending, each count the rows on that date and at least 1, counts summing to the rows with a date |
| `Visualiser.MeanPointsCorrect` | space_weather_visualiser.py:222 | one mean per distinct date, ascending, each the mean of that date's readings and within their range |
| `Visualiser.GstMeansReport` | space_weather_visualiser.py:217-231 | GST with readings: a line chart labelled "Average Kp Index", one point per `observedTime` date, each the mean of that day's `kpIndex` and within its min and max |
| `Visualiser.GstWithoutKpColumn` | space_weather_visualiser.py:217-233 | GST without `allKpIndex`: no chart, and the "No 'allKpIndex' data available to plot." error after the resolution messages |
| `Visualiser.GstWithoutReadingFields` | space_weather_visualiser.py:220-222 | readings lacking `observedTime` or `kpIndex` altogether raise the matching `KeyError` and plot nothing |
| `Visualiser.GstIgnoresTopLevelFields` | space_weather_visualiser.py:218-222 | for a fixed column list, rows that agree on `allKpIndex` give the same GST report; after the date assignment `startTime` is ignored (the column list still decides the date-resolution messages) |
| `Visualiser.ChartChoice` | space_weather_visualiser.py:207-256 | line chart exactly for CME and GST; label from the table except on the notifications chart; mean series exactly for GST |
| `Visualiser.EmptyTableGivesNoPoints` | space_weather_visualiser.py:208 | for every kind but GST, no rows give no points and nothing raised |
| `Visualiser.NoDateFieldGivesNoPoints` | space_weather_visualiser.py:202-208 | with no usable date column, the error is shown and the count chart is empty |
| `Visualiser.CmeScenario` | space_weather_visualiser.py:207-215 | starts on 2024-01-01, 2024-01-01 and 2024-01-02 plot (2024-01-01, 2) and (2024-01-02, 1) |
| `Visualiser.GstScenario` | space_weather_visualiser.py:217-231 | one storm with Kp 4 and 6 observed on 2024-01-01 plots the single point (2024-01-01, 5) |

## Left out

- The Streamlit widgets, sidebar text, help, glossary, CSS theme, spinners and the raw-data expanders are UI only.
- The network call itself is a parameter `get`; timeouts and transport failures are not modelled.
- The one-hour `st.cache_data` cache depends on the wall clock; the model is the uncached function.
- The default dates from `datetime.utcnow()` depend on the clock; the start-after-end sidebar message blocks nothing.
- `pd.json_normalize` flattening and timestamp parsing are library behaviour; the model takes the flattened columns and rows as input, and `toDate` as a parameter.
- The `if data:` guard and the `isinstance(data, list)` check are not modelled: the pipeline starts from a table of records. An empty or failed answer is not plotted, and a non-list answer only prints "No data available for the selected parameters.".
- Chart titles, subheaders, markers and the plotly template are not modelled; a chart is its kind, its y-label and its points.
- `DateColumn.Lower` lower-cases ASCII letters only; `str.lower` also folds other alphabets, which DONKI column labels do not use.
- `Dates.FormatIsoDate` pads `%Y` to four digits for every year; some C libraries do not pad years below 1000, which the date picker does not offer.
- A list element of `allKpIndex` is taken to be an object; scalar elements, which would flatten to empty rows, are not modelled.
- Fetch.ResponseOutcome: a 200 answer's body is taken as already parsed, so `.json()` never raises here; DONKI answers 200 with a JSON array, so a body that is not JSON is not modelled.
- Visualiser.KpOf: a `kpIndex` that is not a number is read as NaN and skipped, whereas pandas' mean raises on text and counts booleans; DONKI's `kpIndex` is always numeric.
- Floating-point rounding in pandas' mean is not modelled; means are exact over `real`.
