/** The fixed one-minute window that admits HTTP requests, and what it implies for any minute. */
module RateLimit {
  import opened Tables

  const MINUTE: Time := 60

  /** A row of `organization_rate_limits`. */
  datatype Window = Window(start: Time, requests: nat)

  /** The row after one more request at `now`, or None when the request is turned away.
      A request that is turned away is rolled back, so it leaves the row as it was. */
  function Consume(row: Option<Window>, now: Time, limit: nat): (r: Option<Window>)
  {
    var w := if row.None? then Window(now, 0) else row.value;
    var w' := if now >= w.start + MINUTE then Window(now, 0) else w;
    if w'.requests >= limit then None else Some(w'.(requests := w'.requests + 1))
  }

  /** One committed admission: when it happened and the window row it left behind. */
  datatype Entry = Entry(time: Time, row: Window)

  /** Entry i is what the limiter makes of a request at its time, no earlier than the one before. */
  ghost predicate Follows(log: seq<Entry>, limit: nat, i: nat)
    requires i < |log|
  {
    && Consume(if i == 0 then None else Some(log[i - 1].row), log[i].time, limit) == Some(log[i].row)
    && (i > 0 ==> log[i - 1].time <= log[i].time)
  }

  /** A log of committed admissions of one organization and operation under a monotone clock. */
  ghost predicate IsLog(log: seq<Entry>, limit: nat) {
    forall i: nat :: i < |log| ==> Follows(log, limit, i)
  }

  /** Which request of its window entry i was, and when that window opened. */
  lemma {:induction false} LogShape(log: seq<Entry>, limit: nat, i: nat)
    requires IsLog(log, limit) && i < |log|
    ensures 1 <= log[i].row.requests <= limit
    ensures log[i].row.requests <= i + 1
    ensures log[i].row.start <= log[i].time < log[i].row.start + MINUTE
    ensures log[i + 1 - log[i].row.requests].time == log[i].row.start
    ensures log[i + 1 - log[i].row.requests].row == Window(log[i].row.start, 1)
  {
    assert Follows(log, limit, i);
    if i > 0 {
      LogShape(log, limit, i - 1);
    }
  }

  /** `limit` admissions later the window is another one, opened at least a minute after this one. */
  lemma {:induction false} NextWindow(log: seq<Entry>, limit: nat, i: nat, j: nat)
    requires IsLog(log, limit) && i < j < |log|
    ensures log[j].row.start == log[i].row.start ==> log[j].row.requests == log[i].row.requests + (j - i)
    ensures log[j].row.start != log[i].row.start ==> log[j].row.start >= log[i].row.start + MINUTE
  {
    LogShape(log, limit, j - 1);
    assert Follows(log, limit, j);
    if i < j - 1 {
      NextWindow(log, limit, i, j - 1);
    }
  }

  /** Each window admits at most `limit` requests. */
  lemma {:induction false} WindowBound(log: seq<Entry>, limit: nat, i: nat, j: nat)
    requires IsLog(log, limit) && i < j < |log| && log[i].row.start == log[j].row.start
    ensures j - i < limit
  {
    LogShape(log, limit, i);
    LogShape(log, limit, j);
    NextWindow(log, limit, i, j);
  }

  /** Any 2 * limit consecutive admissions span at least a minute: no sixty-second interval holds
      more than 2 * limit - 1 of them. The first of them either opens its window, and then the
      window after it opens a full minute later, or it leaves at most limit - 1 to its window. */
  lemma SlidingSpan(log: seq<Entry>, limit: nat, i: nat)
    requires limit > 0 && IsLog(log, limit) && i + 2 * limit - 1 < |log|
    ensures log[i + 2 * limit - 1].time >= log[i].time + MINUTE
  {
    var j := i + 2 * limit - 1;
    LogShape(log, limit, i);
    LogShape(log, limit, j);
    if log[i].row.requests == 1 {
      var k := i + limit;
      LogShape(log, limit, k);
      NextWindow(log, limit, i, k);
      if k < j { NextWindow(log, limit, k, j); }
    } else {
      var k := i + limit - 1;
      LogShape(log, limit, k);
      NextWindow(log, limit, i, k);
      NextWindow(log, limit, k, j);
    }
  }

  /** The positions of the admissions inside the half-open minute that starts at t. */
  ghost function InMinute(log: seq<Entry>, t: Time): (s: set<nat>)
  {
    set i: nat | i < |log| && t <= log[i].time < t + MINUTE
  }

  lemma {:induction false} TimesMonotone(log: seq<Entry>, limit: nat, i: nat, j: nat)
    requires IsLog(log, limit) && i <= j < |log|
    ensures log[i].time <= log[j].time
  {
    if i < j {
      TimesMonotone(log, limit, i, j - 1);
      assert Follows(log, limit, j);
    }
  }

  lemma {:induction false} IntervalSize(s: set<nat>, lo: nat, len: nat)
    requires forall i :: i in s ==> lo <= i < lo + len
    ensures |s| <= len
  {
    if len == 0 {
      assert s == {};
    } else {
      IntervalSize(s - {lo + len - 1}, lo, len - 1);
    }
  }

  /** The sliding bound: any half-open sixty-second interval holds at most 2 * limit - 1 admissions. */
  lemma SlidingBound(log: seq<Entry>, limit: nat, t: Time)
    requires limit > 0 && IsLog(log, limit)
    ensures |InMinute(log, t)| <= 2 * limit - 1
  {
    var s := InMinute(log, t);
    if s != {} {
      var lo := Least(s);
      forall i | i in s ensures lo <= i < lo + 2 * limit - 1 {
        if i >= lo + 2 * limit - 1 {
          SlidingSpan(log, limit, lo);
          TimesMonotone(log, limit, lo + 2 * limit - 1, i);
        }
      }
      IntervalSize(s, lo, 2 * limit - 1);
    }
  }

  lemma {:induction false} Least(s: set<nat>) returns (lo: nat)
    requires s != {}
    ensures lo in s && forall i :: i in s ==> lo <= i
  {
    lo :| lo in s;
    if s != {lo} {
      var m := Least(s - {lo});
      assert forall i :: i in s ==> i == lo || i in s - {lo};
      lo := if m < lo then m else lo;
    }
  }

  /** The bound is reached for every limit: one request at 0, the rest of the window at 59, a full
      window at 60. */
  ghost function Burst(limit: nat): seq<Entry>
    requires limit > 0
  {
    seq(2 * limit, i requires 0 <= i < 2 * limit =>
      if i == 0 then Entry(0, Window(0, 1))
      else if i < limit then Entry(59, Window(0, i + 1))
      else Entry(60, Window(60, i - limit + 1)))
  }

  lemma BurstFollows(limit: nat, i: nat)
    requires limit > 0 && i < 2 * limit
    ensures Follows(Burst(limit), limit, i)
  {
  }

  lemma SlidingBoundIsReached(limit: nat)
    requires limit > 0
    ensures IsLog(Burst(limit), limit)
    ensures |InMinute(Burst(limit), 1)| == 2 * limit - 1
  {
    var log := Burst(limit);
    forall i: nat | i < |log| ensures Follows(log, limit, i) {
      BurstFollows(limit, i);
    }
    assert InMinute(log, 1) == Range(1, 2 * limit);
  }

  ghost function Range(lo: nat, hi: nat): (s: set<nat>)
    ensures forall i :: i in s <==> lo <= i < hi
    ensures |s| == if lo <= hi then hi - lo else 0
  {
    if lo < hi then Range(lo, hi - 1) + {hi - 1} else {}
  }
}
