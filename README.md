# Jakarta greenhouse-gas dashboard: verified model of its core logic

`gui11.py` is a Tkinter dashboard. It polls the Open-Meteo air-quality API for one of six
Jakarta locations and shows the hourly CO₂ (ppm) and CH₄ (ppb) series in three views:

- *Realtime* shows today's rows, a KPI line and a CSV button.
- *Forecast* shows the rows after now.
- *Data Periode* shows the rows dated within a chosen range.

This project models the logic under that UI:

- `Readings` (readings.dfy): a reading `(Waktu, CO2_ppm, CH4_ppb)` and a series of readings.
  A timestamp is a naive date-time (no time zone attached) in microseconds, and `Date` gives
  its calendar day. The API's `time` texts are naive GMT times, because the request sends no
  `timezone` parameter.
- `Fetch` (fetch.dfy): `get_air_quality_data`. It shapes the decoded response into a series,
  or falls back to the empty series.
- `Status` (status.dfy): `show_kpi`. It computes the two averages and sorts each into
  Normal / Waspada / Tinggi. The overall status is the more severe of the two.
- `Filters` (filters.dfy): the boolean masks of the three views, as one `Select` over a
  `Window` (`OnDate`, `After`, `Between`).
- `SaveButton` (save_button.dfy): `add_save_button`. A `Frame` class holds its packed
  children. Its method destroys every flagged save button, walking a copy of the packing
  list, then packs a new one last.
- `Dashboard` (dashboard.dfy): one refresh of each view (fetch, filter, KPI). It also holds
  the as-written variant described under Findings.

The clock (`datetime.now()`, `today()`), the date pickers and the HTTP request are not
modelled. The clock readings and chosen dates are parameters, and the response is a `Response`
value: either `Failed` or a decoded body whose `hourly` object may be missing. Each of its
three arrays may also be missing. A `time` entry is given as its parse outcome, and `None`
means the text is not a date-time.

A response whose arrays have different lengths yields the empty series, not a truncated
one. Building the data frame at gui11.py:57 raises, and the handler at gui11.py:58-59
catches the error.

## Model

| member | source | states |
|---|---|---|
| Readings.Date | gui11.py:265 | a timestamp's day is the one whose 24-hour span contains it, before the epoch too |
| Fetch.ParseTimes | gui11.py:54 | the times parse iff every entry parses, and then the i-th timestamp is the i-th entry's |
| Fetch.Zip | gui11.py:57 | the frame has one row per index, and row i is (time[i], carbon_dioxide[i], methane[i]) |
| Fetch.GetAirQualityData | gui11.py:49-59 | the empty series in every failure case: request failed, `hourly` missing, a key missing, a bad time, unequal lengths. Otherwise the series has the arrays' common length, and row i is the i-th entry of each array |
| Fetch.MissingHourlyIsEmpty | gui11.py:52-53 | a body without `hourly` gives the empty series, not an error |
| Fetch.UnequalLengthsAreEmpty | gui11.py:57-59 | arrays of unequal length give the empty series, not a truncated one |
| Fetch.ShapeEncodeRoundTrip | gui11.py:52-57 | shaping the three columns of any series gives back that series |
| Status.Rank | gui11.py:182 | ranks lie in 1..3; rank 1 is exactly Normal and rank 3 exactly Tinggi |
| Status.Co2Level | gui11.py:166-172 | Normal iff avg < 450; Waspada iff 450 ≤ avg ≤ 500, both ends included; Tinggi iff avg > 500 |
| Status.Ch4Level | gui11.py:174-180 | Normal iff avg < 1950; Waspada iff 1950 ≤ avg ≤ 2000; Tinggi iff avg > 2000 |
| Status.Combine | gui11.py:183-184 | the result is one of the two tiers, and its rank is at least each one's: the maximum by rank |
| Status.Overall | gui11.py:182-184 | the overall status is the CO₂ or the CH₄ tier, and it is at least as severe as both |
| Status.ClassifyMonotone | gui11.py:167-180 | a higher average never falls into a lower tier |
| Status.OverallMonotone | gui11.py:182-184 | raising either average never lowers the overall status |
| Status.CautionExample | gui11.py:166-184 | CO₂ 460 with CH₄ 1000 gives Waspada, Normal, and overall Waspada |
| Status.Mean | gui11.py:163-164 | the mean is the value whose n copies add up to the column's sum, n being the column's length. Its bounds and monotonicity are stated by MeanBounds and MeanMonotone |
| Status.MeanBounds | gui11.py:163-164 | the mean of a column lies within any bounds that hold for all of its values |
| Status.MeanMonotone | gui11.py:163-164 | raising values one by one never lowers the mean |
| Status.ShowKpi | gui11.py:154-184 | no KPI iff the rows are empty (the "Tidak ada data KPI." branch). Otherwise the averages are the means of the CO₂ and CH₄ columns, the two levels are those averages' tiers, and the status is their overall status. That status is one of the two gas tiers and ranks at least as high as each |
| Status.KpiMonotone | gui11.py:163-184 | raising readings row by row never lowers the KPI status |
| Status.AllLowIsNormal | gui11.py:163-184 | if every reading is below both caution thresholds, the status is Normal |
| Status.HighCo2IsTinggi | gui11.py:163-184 | if every CO₂ reading is above 500 ppm, the status is Tinggi |
| Status.KpiAveragesBounded | gui11.py:163-164 | the displayed averages lie within any bounds that hold for every row |
| Filters.Select | gui11.py:265 | the result is no longer than the input, and every kept row is an input row in the window |
| Filters.SelectCounts | gui11.py:265 | a row in the window is kept as many times as it occurs in the input; a row outside it is never kept |
| Filters.SelectKeepsAll | gui11.py:265 | every input row in the window is kept |
| Filters.SelectIsSubsequence | gui11.py:265 | the result is a subsequence of the input, so order is preserved |
| Filters.SelectConcat | gui11.py:265 | the mask acts row by row: filtering a + b is filtering a, then b |
| Filters.SelectAllIn | gui11.py:265 | a series lying wholly in the window is returned unchanged |
| Filters.SelectIdempotent | gui11.py:265 | filtering twice equals filtering once |
| Filters.TodayFilter | gui11.py:264-265 | a row is kept iff its date is today; order is preserved and re-filtering changes nothing |
| Filters.ForecastFilter | gui11.py:305-306 | a row is kept iff its time is strictly after now; a row stamped `now` itself is never kept |
| Filters.PeriodFilter | gui11.py:386-390 | a row is kept iff start ≤ its date ≤ end; order is preserved, and filtering is idempotent |
| Filters.PeriodReversedIsEmpty | gui11.py:389-390 | a start date after the end date keeps nothing |
| Filters.PeriodOneDay | gui11.py:389-390 | the period [d, d] keeps exactly the rows dated d |
| Filters.PeriodOneDayOneRow | gui11.py:389-390 | a single reading dated d gives one row for the period [d, d] |
| Filters.ForecastIsSuffix | gui11.py:306 | on a series in time order, the forecast rows are the last rows of the input |
| SaveButton.NonSave | gui11.py:205-207 | the surviving children are exactly the unflagged ones, no more than before |
| SaveButton.NonSaveHasNoSave | gui11.py:205-207 | no save button survives the removal loop |
| SaveButton.WithoutAt | gui11.py:207 | destroying a child removes that child alone, and the others keep their order |
| SaveButton.Frame.Pack | gui11.py:227 | a new widget with a fresh identity is packed after the existing children |
| SaveButton.Frame.Destroy | gui11.py:207 | the destroyed widget leaves the packing list; nothing else changes |
| SaveButton.Frame.AddSaveButton | gui11.py:203-227 | the new children are the old non-save children, in order, followed by the new button, and the identity counter advances by one. Exactly one save button remains, and it is the last child |
| Dashboard.RealtimeRefresh | gui11.py:260-267 | the realtime view shows exactly the fetched rows dated today, in fetched order, each as often as fetched. Its KPI is that of the shown rows, and there is none iff no fetched row is dated today |
| Dashboard.ForecastRefresh | gui11.py:301-307 | the forecast view shows exactly the fetched rows strictly after now, in fetched order, each as often as fetched |
| Dashboard.PeriodRefresh | gui11.py:383-390 | the period table shows exactly the fetched rows dated within [start, end], in fetched order, each as often as fetched |
| Dashboard.FailedFetchShowsNoData | gui11.py:58-59 | after a failed fetch, every corrected view shows no rows and no KPI |
| Dashboard.RealtimeRefreshAsWritten | gui11.py:260-269 | update_graph as written raises exactly when the fetch failed; otherwise it shows only fetched rows dated today. Its behaviour is also stated by MissingHourlyRaisesAsWritten and AsWrittenAgreesWhenShaped |
| Dashboard.PeriodRefreshAsWritten | gui11.py:383-390 | ambil_data as written raises exactly when the fetch failed; otherwise it shows only fetched rows dated within [start, end]. Its behaviour is also stated by MissingHourlyRaisesAsWritten and AsWrittenAgreesWhenShaped |
| Dashboard.MissingHourlyRaisesAsWritten | gui11.py:265 | as written, a response without `hourly` makes the realtime and period refreshes raise. The corrected refreshes show no data |
| Dashboard.AsWrittenAgreesWhenShaped | gui11.py:389-390 | on every successful fetch, the as-written and corrected refreshes agree |

## Left out

- The Tkinter window, frames, labels, comboboxes, sidebar, About text and close
  confirmation are UI layout with no logic to verify.
- Charting with matplotlib (`plot_graph`) is a foreign rendering library.
- The HTTP GET, its timeout and JSON decoding are network I/O. Their outcome is the
  `Response` parameter.
- Parsing time texts (`pd.to_datetime`), `strftime` formatting, `datetime.now()` and
  `today()` are library calls and the clock. Parse outcomes, timestamps and day numbers are
  parameters.
- JSON `null` entries in the value arrays, and pandas NaN handling in `mean()`, are not
  modelled. Values are exact reals and the mean is the exact arithmetic mean. In the source,
  an all-null column averages to NaN, and every comparison then fails, so its tier would be
  Tinggi. The model cannot express this.
- JSON `null` entries in the `time` array are not modelled either. There `pd.to_datetime`
  gives NaT without raising, so the source keeps the other rows, and the NaT row falls in no
  window. The model can encode such an entry only as a parse failure (`None`), which empties
  the whole series.
- A key that is present with a `null` value (which pandas would broadcast) is treated as
  missing.
- The 10-minute `root.after` self-rescheduling timer, and its race with refreshes triggered
  by the location selector, are event-loop scheduling.
- Writing the CSV through the file dialog is file I/O. The save button's command is not part
  of `Widget`.
- The Treeview delete/insert loop only mirrors the filtered rows into a widget.
- Time zones are not modelled. The API returns naive GMT times (the request at
  gui11.py:42-48 sends no `timezone`), while the code compares them with the local
  `datetime.now()` and its date. The model matches the code only when the `today`, `now`,
  `start` and `end` parameters are read in the API's time zone. With a local clock in
  Jakarta (UTC+7), the code's "today" and forecast windows are shifted by 7 hours.
- The About screen's CO₂ thresholds (1000/1500 ppm) are display text. The model uses the
  thresholds the code compares against (450/500 ppm).

## Findings

| source | as written | input that shows it | evidently intended | confidence | as-written member | corrected member |
|---|---|---|---|---|---|---|
| gui11.py:265 | On failure, the fetch returns a frame built from empty plain lists, so its `Waktu` column has no date-time type. `df["Waktu"].dt.date` then raises, and update_graph never reaches the KPI, the save button or the rescheduling at line 269. At start-up, `show_realtime()` (line 503) is called outside any handler. | A response without `hourly`, or any request failure (no network at start-up) | A failed fetch shows the "no data" state, like an empty filtered result | medium; not executed, relies on pandas giving an empty-list column a non-datetime dtype | Dashboard.MissingHourlyRaisesAsWritten | Dashboard.RealtimeRefresh |
| gui11.py:389-390 | The same accessor in the period mask raises for the same fallback frame, so the table is neither cleared nor refilled. | A response without `hourly` when "Ambil Data" is pressed | The table shows no rows | medium; not executed, same pandas dtype reliance | Dashboard.MissingHourlyRaisesAsWritten | Dashboard.PeriodRefresh |
