/**
 * The boolean-mask row filters of the three views: the realtime view keeps today's
 * rows, the forecast view the rows after now, the period view the rows dated
 * within an inclusive range. The clock and the date pickers are parameters.
 */
module Filters {
  import opened Readings

  /** Which rows a view shows; day numbers are those of `Date`. */
  datatype Window =
    | OnDate(day: int)                 // Waktu.dt.date == today
    | After(now: Timestamp)            // Waktu > now
    | Between(start: int, end: int)    // start <= Waktu.dt.date <= end

  predicate InWindow(w: Window, r: Reading)
  {
    match w
    case OnDate(day) => Date(r.time) == day
    case After(now) => r.time > now
    case Between(start, end) => start <= Date(r.time) && Date(r.time) <= end
  }

  /** Applying the mask: the rows in the window, in their original order. */
  function Select(rows: Series, w: Window): (r: Series)
    ensures |r| <= |rows|
    ensures forall x :: x in r ==> x in rows && InWindow(w, x)
  {
    if rows == [] then []
    else (if InWindow(w, rows[0]) then [rows[0]] else []) + Select(rows[1..], w)
  }

  /**
   * Counts: a row in the window is kept as many times as it occurs in the input,
   * a row outside it never. With SelectIsSubsequence this pins the result down.
   */
  lemma {:induction false} SelectCounts(rows: Series, w: Window)
    ensures forall x :: multiset(Select(rows, w))[x] == if InWindow(w, x) then multiset(rows)[x] else 0
  {
    if rows != [] {
      SelectCounts(rows[1..], w);
      assert rows == [rows[0]] + rows[1..];
    }
  }

  /** `a` can be obtained from `b` by deleting elements. */
  predicate IsSubsequence(a: Series, b: Series)
    decreases |b|
  {
    if b == [] then a == []
    else IsSubsequence(a, b[1..]) || (a != [] && a[0] == b[0] && IsSubsequence(a[1..], b[1..]))
  }

  /** Every row in the window is kept: together with Select's ensures, x is kept iff it is in the window. */
  lemma {:induction false} SelectKeepsAll(rows: Series, w: Window, x: Reading)
    requires x in rows && InWindow(w, x)
    ensures x in Select(rows, w)
  {
    if rows[0] != x {
      SelectKeepsAll(rows[1..], w, x);
    }
  }

  /** Order is preserved: the result is a subsequence of the input. */
  lemma {:induction false} SelectIsSubsequence(rows: Series, w: Window)
    ensures IsSubsequence(Select(rows, w), rows)
  {
    if rows != [] {
      SelectIsSubsequence(rows[1..], w);
      var r := Select(rows, w);
      if InWindow(w, rows[0]) {
        assert r == [rows[0]] + Select(rows[1..], w);
        assert r != [] && r[0] == rows[0] && r[1..] == Select(rows[1..], w);
      } else {
        assert r == Select(rows[1..], w);
      }
    }
  }

  /** The mask acts row by row: filtering a concatenation filters each part. */
  lemma {:induction false} SelectConcat(a: Series, b: Series, w: Window)
    ensures Select(a + b, w) == Select(a, w) + Select(b, w)
  {
    if a == [] {
      assert a + b == b;
    } else {
      var rest := a[1..];
      assert (a + b)[0] == a[0] && (a + b)[1..] == rest + b;
      SelectConcat(rest, b, w);
      var head := if InWindow(w, a[0]) then [a[0]] else [];
      assert Select(a + b, w) == head + (Select(rest, w) + Select(b, w));
      assert Select(a, w) == head + Select(rest, w);
    }
  }

  /** A series all of whose rows are in the window is left as it is. */
  lemma {:induction false} SelectAllIn(rows: Series, w: Window)
    requires forall i :: 0 <= i < |rows| ==> InWindow(w, rows[i])
    ensures Select(rows, w) == rows
  {
    if rows != [] {
      SelectAllIn(rows[1..], w);
    }
  }

  /** Filtering twice with the same window gives the same series as filtering once. */
  lemma SelectIdempotent(rows: Series, w: Window)
    ensures Select(Select(rows, w), w) == Select(rows, w)
  {
    var r := Select(rows, w);
    assert forall i :: 0 <= i < |r| ==> r[i] in r;
    SelectAllIn(r, w);
  }

  /** The realtime view keeps exactly the rows dated today, in order, and re-filtering changes nothing. */
  lemma TodayFilter(rows: Series, today: int)
    ensures forall x :: x in Select(rows, OnDate(today)) <==> x in rows && Date(x.time) == today
    ensures IsSubsequence(Select(rows, OnDate(today)), rows)
    ensures Select(Select(rows, OnDate(today)), OnDate(today)) == Select(rows, OnDate(today))
  {
    forall x | x in rows && Date(x.time) == today
      ensures x in Select(rows, OnDate(today))
    {
      SelectKeepsAll(rows, OnDate(today), x);
    }
    SelectIsSubsequence(rows, OnDate(today));
    SelectIdempotent(rows, OnDate(today));
  }

  /** The forecast view keeps exactly the rows strictly after now; a row stamped `now` itself is dropped. */
  lemma ForecastFilter(rows: Series, now: Timestamp)
    ensures forall x :: x in Select(rows, After(now)) <==> x in rows && x.time > now
    ensures IsSubsequence(Select(rows, After(now)), rows)
    ensures forall c, m :: Reading(now, c, m) !in Select(rows, After(now))
  {
    forall x | x in rows && x.time > now
      ensures x in Select(rows, After(now))
    {
      SelectKeepsAll(rows, After(now), x);
    }
    SelectIsSubsequence(rows, After(now));
  }

  /** The period view keeps exactly the rows dated in [start, end], both ends included, in order. */
  lemma PeriodFilter(rows: Series, start: int, end: int)
    ensures forall x :: x in Select(rows, Between(start, end)) <==> x in rows && start <= Date(x.time) <= end
    ensures IsSubsequence(Select(rows, Between(start, end)), rows)
    ensures Select(Select(rows, Between(start, end)), Between(start, end)) == Select(rows, Between(start, end))
  {
    forall x | x in rows && start <= Date(x.time) <= end
      ensures x in Select(rows, Between(start, end))
    {
      SelectKeepsAll(rows, Between(start, end), x);
    }
    SelectIsSubsequence(rows, Between(start, end));
    SelectIdempotent(rows, Between(start, end));
  }

  /** A start date after the end date selects nothing. */
  lemma {:induction false} PeriodReversedIsEmpty(rows: Series, start: int, end: int)
    requires start > end
    ensures Select(rows, Between(start, end)) == []
  {
    if rows != [] {
      PeriodReversedIsEmpty(rows[1..], start, end);
    }
  }

  /** A one-day period is the same filter as the realtime view's for that day. */
  lemma {:induction false} PeriodOneDay(rows: Series, day: int)
    ensures Select(rows, Between(day, day)) == Select(rows, OnDate(day))
  {
    if rows != [] {
      PeriodOneDay(rows[1..], day);
    }
  }

  /** A series with a single reading dated `day` gives one row for the period [day, day]. */
  lemma PeriodOneDayOneRow(r: Reading, day: int)
    requires Date(r.time) == day
    ensures Select([r], Between(day, day)) == [r]
  {
  }

  /** On a series in time order the forecast rows are a suffix: the last |result| rows of the input. */
  lemma {:induction false} ForecastIsSuffix(rows: Series, now: Timestamp)
    requires Sorted(rows)
    ensures |Select(rows, After(now))| <= |rows|
    ensures Select(rows, After(now)) == rows[|rows| - |Select(rows, After(now))|..]
  {
    if rows != [] {
      if rows[0].time > now {
        SelectAllIn(rows, After(now));
      } else {
        ForecastIsSuffix(rows[1..], now);
      }
    }
  }
}
