/**
 * One refresh of each view: fetch, filter by the view's window, and (realtime view)
 * compute the KPI. The clock reading and the chosen dates are parameters.
 */
module Dashboard {
  import opened Wrappers
  import opened Readings
  import opened Fetch
  import opened Status
  import opened Filters

  /** The rows and the KPI that one realtime refresh shows (update_graph). */
  function RealtimeRefresh(resp: Response, today: int): (view: (Series, Option<Kpi>))
    ensures view.1.None? <==> forall x :: x in GetAirQualityData(resp) ==> Date(x.time) != today
    ensures forall x :: x in view.0 <==> x in GetAirQualityData(resp) && Date(x.time) == today
    ensures IsSubsequence(view.0, GetAirQualityData(resp))
    ensures forall x: Reading :: Date(x.time) == today ==> multiset(view.0)[x] == multiset(GetAirQualityData(resp))[x]
    ensures view.1 == ShowKpi(view.0)
  {
    var rows := Select(GetAirQualityData(resp), OnDate(today));
    TodayFilter(GetAirQualityData(resp), today);
    SelectCounts(GetAirQualityData(resp), OnDate(today));
    (rows, ShowKpi(rows))
  }

  /** The rows that one forecast refresh shows (update_forecast). */
  function ForecastRefresh(resp: Response, now: Timestamp): (rows: Series)
    ensures forall x :: x in rows <==> x in GetAirQualityData(resp) && x.time > now
    ensures IsSubsequence(rows, GetAirQualityData(resp))
    ensures forall x: Reading :: x.time > now ==> multiset(rows)[x] == multiset(GetAirQualityData(resp))[x]
  {
    ForecastFilter(GetAirQualityData(resp), now);
    SelectCounts(GetAirQualityData(resp), After(now));
    Select(GetAirQualityData(resp), After(now))
  }

  /** The rows that one "Ambil Data" press shows in the period table (ambil_data). */
  function PeriodRefresh(resp: Response, start: int, end: int): (rows: Series)
    ensures forall x :: x in rows <==> x in GetAirQualityData(resp) && start <= Date(x.time) <= end
    ensures IsSubsequence(rows, GetAirQualityData(resp))
    ensures forall x: Reading :: start <= Date(x.time) <= end ==> multiset(rows)[x] == multiset(GetAirQualityData(resp))[x]
  {
    PeriodFilter(GetAirQualityData(resp), start, end);
    SelectCounts(GetAirQualityData(resp), Between(start, end));
    Select(GetAirQualityData(resp), Between(start, end))
  }

  /**
   * A failed fetch, whatever the cause, shows the same "no data" state in every
   * view as a successful fetch with nothing in the window: no rows and no KPI.
   */
  lemma FailedFetchShowsNoData(resp: Response, today: int, now: Timestamp, start: int, end: int)
    requires !Shapeable(resp)
    ensures RealtimeRefresh(resp, today) == ([], None)
    ensures ForecastRefresh(resp, now) == []
    ensures PeriodRefresh(resp, start, end) == []
  {
  }

  // ----- the views as written: the `.dt` accessor on the fallback frame -----

  /**
   * Whether the Waktu column of the fetched frame has a date-time type. The frame
   * built from parsed times has one; both fallback frames are built from empty
   * plain lists, and their untyped column makes the `.dt` accessor raise.
   */
  predicate WaktuIsDatetime(resp: Response)
  {
    Shapeable(resp)
  }

  /** What a refresh callback does: it renders its view, or an exception escapes it. */
  datatype Refresh<T> = Rendered(shown: T) | Raised

  /** update_graph as written: `.dt.date` is applied to whatever frame the fetch returned. */
  function RealtimeRefreshAsWritten(resp: Response, today: int): (r: Refresh<(Series, Option<Kpi>)>)
    ensures r.Raised? <==> !Shapeable(resp)
    ensures r.Rendered? ==> forall x :: x in r.shown.0 ==> x in GetAirQualityData(resp) && Date(x.time) == today
  {
    if WaktuIsDatetime(resp) then Rendered(RealtimeRefresh(resp, today)) else Raised
  }

  /** ambil_data as written: the same accessor in the period mask. */
  function PeriodRefreshAsWritten(resp: Response, start: int, end: int): (r: Refresh<Series>)
    ensures r.Raised? <==> !Shapeable(resp)
    ensures r.Rendered? ==> forall x :: x in r.shown ==> x in GetAirQualityData(resp) && start <= Date(x.time) <= end
  {
    if WaktuIsDatetime(resp) then Rendered(PeriodRefresh(resp, start, end)) else Raised
  }

  /**
   * As written, a failed fetch (here: a response without `hourly`) does not show the
   * "no data" state in the realtime and period views: the refresh raises instead,
   * while the corrected refresh shows no rows and no KPI.
   */
  lemma MissingHourlyRaisesAsWritten(today: int, start: int, end: int)
    ensures RealtimeRefreshAsWritten(Body(None), today) == Raised
    ensures PeriodRefreshAsWritten(Body(None), start, end) == Raised
    ensures RealtimeRefresh(Body(None), today) == ([], None)
    ensures PeriodRefresh(Body(None), start, end) == []
  {
    FailedFetchShowsNoData(Body(None), today, 0, start, end);
  }

  /** On every successful fetch the code as written and the corrected refresh agree. */
  lemma AsWrittenAgreesWhenShaped(resp: Response, today: int, start: int, end: int)
    requires Shapeable(resp)
    ensures RealtimeRefreshAsWritten(resp, today) == Rendered(RealtimeRefresh(resp, today))
    ensures PeriodRefreshAsWritten(resp, start, end) == Rendered(PeriodRefresh(resp, start, end))
  {
  }
}
