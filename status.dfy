/**
 * The KPI status of show_kpi: the averages of the two gases over the shown rows,
 * each sorted into a tier by fixed thresholds, and the overall status, the more
 * severe of the two tiers.
 */
module Status {
  import opened Wrappers
  import opened Readings

  /** The three tiers, from least to most severe. */
  datatype Level = Normal | Waspada | Tinggi

  /** The ranking of the tiers used to pick the more severe one. */
  function Rank(l: Level): (r: int)
    ensures 1 <= r <= 3
    ensures r == 1 <==> l == Normal
    ensures r == 3 <==> l == Tinggi
  {
    match l
    case Normal => 1
    case Waspada => 2
    case Tinggi => 3
  }

  const Co2Caution: real := 450.0  // ppm
  const Co2High: real := 500.0     // ppm
  const Ch4Caution: real := 1950.0 // ppb
  const Ch4High: real := 2000.0    // ppb

  /** The three-way threshold test written out for each gas: below, inside [low, high], otherwise. */
  function Classify(avg: real, low: real, high: real): (l: Level)
  {
    if avg < low then Normal
    else if low <= avg <= high then Waspada
    else Tinggi
  }

  function Co2Level(avg: real): (l: Level)
    ensures l == Normal <==> avg < 450.0
    ensures l == Waspada <==> 450.0 <= avg <= 500.0
    ensures l == Tinggi <==> avg > 500.0
  {
    Classify(avg, Co2Caution, Co2High)
  }

  function Ch4Level(avg: real): (l: Level)
    ensures l == Normal <==> avg < 1950.0
    ensures l == Waspada <==> 1950.0 <= avg <= 2000.0
    ensures l == Tinggi <==> avg > 2000.0
  {
    Classify(avg, Ch4Caution, Ch4High)
  }

  /** The more severe of two tiers; on a tie the first one, as Python's max with a key does. */
  function Combine(a: Level, b: Level): (l: Level)
    ensures l == a || l == b
    ensures Rank(l) >= Rank(a) && Rank(l) >= Rank(b)
  {
    if Rank(b) > Rank(a) then b else a
  }

  function Overall(co2Avg: real, ch4Avg: real): (l: Level)
    ensures l == Co2Level(co2Avg) || l == Ch4Level(ch4Avg)
    ensures Rank(l) >= Rank(Co2Level(co2Avg)) && Rank(l) >= Rank(Ch4Level(ch4Avg))
  {
    Combine(Co2Level(co2Avg), Ch4Level(ch4Avg))
  }

  /** A higher average never falls into a lower tier, whatever the (ordered) thresholds. */
  lemma ClassifyMonotone(x: real, y: real, low: real, high: real)
    requires low <= high && x <= y
    ensures Rank(Classify(x, low, high)) <= Rank(Classify(y, low, high))
  {
  }

  /** Raising either average never lowers the overall status. */
  lemma OverallMonotone(co2: real, ch4: real, co2': real, ch4': real)
    requires co2 <= co2' && ch4 <= ch4'
    ensures Rank(Overall(co2, ch4)) <= Rank(Overall(co2', ch4'))
  {
    ClassifyMonotone(co2, co2', Co2Caution, Co2High);
    ClassifyMonotone(ch4, ch4', Ch4Caution, Ch4High);
  }

  /** CO2 at 460 ppm with CH4 at 1000 ppb: CO2 is Waspada, CH4 Normal, overall Waspada. */
  lemma CautionExample()
    ensures Co2Level(460.0) == Waspada && Ch4Level(1000.0) == Normal
    ensures Overall(460.0, 1000.0) == Waspada
  {
  }

  // ----- averages over the shown rows -----

  function Sum(s: seq<real>): (total: real)
  {
    if s == [] then 0.0 else s[0] + Sum(s[1..])
  }

  /** The arithmetic mean of a non-empty column (pandas mean, on exact reals). */
  function Mean(s: seq<real>): (m: real)
    requires |s| > 0
    ensures |s| as real * m == Sum(s)
  {
    Sum(s) / |s| as real
  }

  lemma {:induction false} SumBounds(s: seq<real>, lo: real, hi: real)
    requires forall i :: 0 <= i < |s| ==> lo <= s[i] <= hi
    ensures lo * |s| as real <= Sum(s) <= hi * |s| as real
  {
    if s != [] {
      SumBounds(s[1..], lo, hi);
    }
  }

  lemma {:induction false} SumBelow(s: seq<real>, c: real)
    requires |s| > 0
    requires forall i :: 0 <= i < |s| ==> s[i] < c
    ensures Sum(s) < c * |s| as real
  {
    if |s| > 1 {
      SumBelow(s[1..], c);
    }
  }

  lemma {:induction false} SumAbove(s: seq<real>, c: real)
    requires |s| > 0
    requires forall i :: 0 <= i < |s| ==> s[i] > c
    ensures Sum(s) > c * |s| as real
  {
    if |s| > 1 {
      SumAbove(s[1..], c);
    }
  }

  lemma {:induction false} SumMonotone(s: seq<real>, t: seq<real>)
    requires |s| == |t|
    requires forall i :: 0 <= i < |s| ==> s[i] <= t[i]
    ensures Sum(s) <= Sum(t)
  {
    if s != [] {
      SumMonotone(s[1..], t[1..]);
    }
  }

  /** The mean lies between the smallest and the largest possible value of the column. */
  lemma MeanBounds(s: seq<real>, lo: real, hi: real)
    requires |s| > 0
    requires forall i :: 0 <= i < |s| ==> lo <= s[i] <= hi
    ensures lo <= Mean(s) <= hi
  {
    SumBounds(s, lo, hi);
    DivBounds(Sum(s), |s| as real, lo, hi);
  }

  lemma DivBounds(x: real, n: real, lo: real, hi: real)
    requires n > 0.0 && lo * n <= x <= hi * n
    ensures lo <= x / n <= hi
  {
  }

  lemma MeanMonotone(s: seq<real>, t: seq<real>)
    requires |s| == |t| > 0
    requires forall i :: 0 <= i < |s| ==> s[i] <= t[i]
    ensures Mean(s) <= Mean(t)
  {
    SumMonotone(s, t);
    DivMonotone(Sum(s), Sum(t), |s| as real);
  }

  lemma DivMonotone(x: real, y: real, n: real)
    requires n > 0.0 && x <= y
    ensures x / n <= y / n
  {
    assert y / n - x / n == (y - x) / n;
  }

  // ----- the KPI of a series -----

  function Co2Column(rows: Series): (col: seq<real>)
    ensures |col| == |rows|
  {
    seq(|rows|, i requires 0 <= i < |rows| => rows[i].co2)
  }

  function Ch4Column(rows: Series): (col: seq<real>)
    ensures |col| == |rows|
  {
    seq(|rows|, i requires 0 <= i < |rows| => rows[i].ch4)
  }

  /** What the KPI line shows: both averages and the overall status. */
  datatype Kpi = Kpi(co2Avg: real, ch4Avg: real, co2Level: Level, ch4Level: Level, status: Level)

  /** The KPI of the shown rows; None is the "no KPI data" message of an empty frame. */
  function ShowKpi(rows: Series): (k: Option<Kpi>)
    ensures k.None? <==> rows == []
    ensures k.Some? ==> k.value.status == k.value.co2Level || k.value.status == k.value.ch4Level
    ensures k.Some? ==> Rank(k.value.status) >= Rank(k.value.co2Level) && Rank(k.value.status) >= Rank(k.value.ch4Level)
    ensures k.Some? ==>
      && k.value.co2Avg == Mean(Co2Column(rows)) && k.value.ch4Avg == Mean(Ch4Column(rows))
      && k.value.co2Level == Co2Level(k.value.co2Avg) && k.value.ch4Level == Ch4Level(k.value.ch4Avg)
      && k.value.status == Overall(k.value.co2Avg, k.value.ch4Avg)
  {
    if rows == [] then None
    else
      var co2Avg := Mean(Co2Column(rows));
      var ch4Avg := Mean(Ch4Column(rows));
      Some(Kpi(co2Avg, ch4Avg, Co2Level(co2Avg), Ch4Level(ch4Avg), Overall(co2Avg, ch4Avg)))
  }

  /**
   * Row by row higher readings (same number of rows) never give a lower overall
   * status: the KPI is monotone in the data, not only in the averages.
   */
  lemma KpiMonotone(rows: Series, rows': Series)
    requires |rows| == |rows'| > 0
    requires forall i :: 0 <= i < |rows| ==> rows[i].co2 <= rows'[i].co2 && rows[i].ch4 <= rows'[i].ch4
    ensures Rank(ShowKpi(rows).value.status) <= Rank(ShowKpi(rows').value.status)
  {
    MeanMonotone(Co2Column(rows), Co2Column(rows'));
    MeanMonotone(Ch4Column(rows), Ch4Column(rows'));
    OverallMonotone(Mean(Co2Column(rows)), Mean(Ch4Column(rows)), Mean(Co2Column(rows')), Mean(Ch4Column(rows')));
  }

  /** If every reading is below both caution thresholds, the status is Normal. */
  lemma AllLowIsNormal(rows: Series)
    requires |rows| > 0
    requires forall i :: 0 <= i < |rows| ==> rows[i].co2 < 450.0 && rows[i].ch4 < 1950.0
    ensures ShowKpi(rows).value.status == Normal
  {
    SumBelow(Co2Column(rows), Co2Caution);
    SumBelow(Ch4Column(rows), Ch4Caution);
  }

  /** If every CO2 reading is above 500 ppm, the status is Tinggi whatever the methane. */
  lemma HighCo2IsTinggi(rows: Series)
    requires |rows| > 0
    requires forall i :: 0 <= i < |rows| ==> rows[i].co2 > 500.0
    ensures ShowKpi(rows).value.status == Tinggi
  {
    SumAbove(Co2Column(rows), Co2High);
  }

  /** If every reading lies inside given bounds, so do the averages the KPI shows. */
  lemma KpiAveragesBounded(rows: Series, co2Lo: real, co2Hi: real, ch4Lo: real, ch4Hi: real)
    requires |rows| > 0
    requires forall i :: 0 <= i < |rows| ==> co2Lo <= rows[i].co2 <= co2Hi && ch4Lo <= rows[i].ch4 <= ch4Hi
    ensures co2Lo <= ShowKpi(rows).value.co2Avg <= co2Hi
    ensures ch4Lo <= ShowKpi(rows).value.ch4Avg <= ch4Hi
  {
    MeanBounds(Co2Column(rows), co2Lo, co2Hi);
    MeanBounds(Ch4Column(rows), ch4Lo, ch4Hi);
  }
}
