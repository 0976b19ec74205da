/** Sliding windows that forget: each answers as if it had kept everything
    (services/room_actions.py, services/api_recovery.py). */
module Windows {
  import opened Common

  const WINDOW := 600.0
  const RENAME_LIMIT := 2

  ghost predicate Ordered(times: seq<real>) {
    forall i, j | 0 <= i < j < |times| :: times[i] <= times[j]
  }

  ghost predicate Until(times: seq<real>, now: real) {
    forall i | 0 <= i < |times| :: times[i] <= now
  }

  // ---- renames -----------------------------------------------------------------

  /** The renames of the last ten minutes. */
  function Recent(times: seq<real>, now: real): seq<real> {
    if times == [] then []
    else (if now - times[0] < WINDOW then [times[0]] else []) + Recent(times[1..], now)
  }

  function RetryAfter(times: seq<real>, now: real): Option<real> {
    var recent := Recent(times, now);
    if |recent| >= RENAME_LIMIT then Some(recent[0] + WINDOW - now) else None
  }

  lemma {:induction false} RecentAppend(a: seq<real>, b: seq<real>, now: real)
    ensures Recent(a + b, now) == Recent(a, now) + Recent(b, now)
    decreases |a|
  {
    if a == [] {
      assert a + b == b;
    } else {
      assert (a + b)[1..] == a[1..] + b;
      RecentAppend(a[1..], b, now);
    }
  }

  /** Forgetting what is old now changes no later answer. */
  lemma {:induction false} PruningIsInvisible(times: seq<real>, now: real, later: real)
    requires now <= later
    ensures Recent(Recent(times, now), later) == Recent(times, later)
    decreases |times|
  {
    if times != [] {
      PruningIsInvisible(times[1..], now, later);
      var head := if now - times[0] < WINDOW then [times[0]] else [];
      RecentAppend(head, Recent(times[1..], now), later);
    }
  }

  /** The recent ones begin at index k. */
  ghost predicate From(log: seq<real>, now: real, k: nat) {
    && k <= |log| && Recent(log, now) == log[k..]
    && (forall i | 0 <= i < k :: now - log[i] >= WINDOW)
    && (forall i | k <= i < |log| :: now - log[i] < WINDOW)
  }

  lemma {:induction false} AllRecent(log: seq<real>, now: real)
    requires forall i | 0 <= i < |log| :: now - log[i] < WINDOW
    ensures Recent(log, now) == log
    decreases |log|
  {
    if log != [] {
      AllRecent(log[1..], now);
    }
  }

  /** In an ordered log the recent ones are a suffix. */
  lemma {:induction false} RecentIsSuffix(log: seq<real>, now: real) returns (k: nat)
    requires Ordered(log)
    ensures From(log, now, k)
    decreases |log|
  {
    if log == [] {
      k := 0;
    } else if now - log[0] < WINDOW {
      AllRecent(log, now);
      k := 0;
    } else {
      var m := RecentIsSuffix(log[1..], now);
      k := m + 1;
      assert log[1..][m..] == log[k..];
      assert forall i | 0 < i < |log| :: log[i] == log[1..][i - 1];
    }
  }

  /** Any three renames span ten minutes. */
  ghost predicate Spread(log: seq<real>) {
    forall i | 0 <= i < |log| - 2 :: log[i + 2] - log[i] >= 600.0
  }

  /** A rename that was admitted at `start` and recorded at `end`. */
  lemma AdmittedKeepsSpread(log: seq<real>, start: real, end: real)
    requires Ordered(log) && Until(log, start) && Spread(log) && start <= end
    requires RetryAfter(log, start).None?
    ensures Ordered(log + [end]) && Until(log + [end], end) && Spread(log + [end])
  {
    var k := RecentIsSuffix(log, start);
  }

  datatype Rename = Rename(start: real, end: real)

  /** The full log of calls that do not overlap. */
  function Log(log: seq<real>, calls: seq<Rename>): seq<real>
    decreases |calls|
  {
    if calls == [] then log
    else Log(if RetryAfter(log, calls[0].start).None? then log + [calls[0].end] else log, calls[1..])
  }

  ghost predicate Sequential(calls: seq<Rename>, from: real)
    decreases |calls|
  {
    calls == [] || (from <= calls[0].start <= calls[0].end && Sequential(calls[1..], calls[0].end))
  }

  /** No ten minutes ever see three recorded renames. */
  lemma {:induction false} NeverThreeInTheWindow(log: seq<real>, calls: seq<Rename>, from: real)
    requires Ordered(log) && Until(log, from) && Spread(log) && Sequential(calls, from)
    ensures Ordered(Log(log, calls)) && Spread(Log(log, calls))
    decreases |calls|
  {
    if calls != [] {
      if RetryAfter(log, calls[0].start).None? {
        AdmittedKeepsSpread(log, calls[0].start, calls[0].end);
        NeverThreeInTheWindow(log + [calls[0].end], calls[1..], calls[0].end);
      } else {
        NeverThreeInTheWindow(log, calls[1..], calls[0].end);
      }
    }
  }

  lemma ThirdIsLate(log: seq<real>, now: real, i: nat)
    requires Spread(log) && Until(log, now) && i + 2 < |log|
    ensures now - log[i] >= WINDOW
  {
    assert log[i + 2] <= now;
  }

  /** The time a refusal names is exact: waiting that long admits the next
      rename, waiting any less does not. */
  lemma WaitingIsExact(log: seq<real>, now: real, wait: real)
    requires Ordered(log) && Until(log, now) && Spread(log) && wait >= 0.0
    requires RetryAfter(log, now).Some?
    ensures RetryAfter(log, now).value > 0.0
    ensures RetryAfter(log, now + wait).None? <==> wait >= RetryAfter(log, now).value
  {
    var k := RecentIsSuffix(log, now);
    var m := RecentIsSuffix(log, now + wait);
    if |log| > k + 2 {
      ThirdIsLate(log, now, k);
    }
    if m < k + 1 {
      assert now + wait - log[k] < WINDOW;
    } else {
      assert now + wait - log[k] >= WINDOW;
    }
  }

  /** Recording at `end` keeps the limit if and only if a check at that very
      moment would still admit it: overlapping calls break it exactly when the
      record of another one came in between. */
  lemma RecordKeepsLimitExactly(log: seq<real>, end: real)
    requires Ordered(log) && Until(log, end) && Spread(log)
    ensures Spread(log + [end]) <==> RetryAfter(log, end).None?
  {
    if RetryAfter(log, end).None? {
      AdmittedKeepsSpread(log, end, end);
    } else {
      var k := RecentIsSuffix(log, end);
      if |log| > k + 2 {
        ThirdIsLate(log, end, k);
      } else {
        var all := log + [end];
        assert |log| == k + 2 && all[k + 2] - all[k] < WINDOW;
      }
    }
  }

  /** Such as: two calls checked in the first second after one rename, both of
      them recorded in the second. */
  lemma OverlapBreaksTheLimit()
    ensures RetryAfter([0.0], 1.0).None? && !Spread([0.0] + [2.0] + [2.0])
  {
    var log := [0.0] + [2.0];
    AllRecent([0.0], 1.0);
    AllRecent(log, 2.0);
    RecordKeepsLimitExactly(log, 2.0);
  }

  /** The table of services/room_actions.py, one channel per key; `log` is
      everything ever recorded since the channel was last forgotten. */
  class RenameHistory {
    var times: map<Channel, seq<real>>
    ghost var log: map<Channel, seq<real>>

    static ghost function Of(m: map<Channel, seq<real>>, c: Channel): seq<real> {
      if c in m then m[c] else []
    }

    /** From `now` on, table and log answer alike. */
    ghost predicate Valid(now: real)
      reads this
    {
      forall c, t | now <= t :: Recent(Of(times, c), t) == Recent(Of(log, c), t)
    }

    constructor ()
      ensures forall now :: Valid(now)
      ensures log == map[]
    {
      times, log := map[], map[];
    }

    /** _rename_retry_after */
    method Check(c: Channel, now: real) returns (retry: Option<real>)
      requires Valid(now)
      modifies this`times
      ensures Valid(now) && retry == RetryAfter(Of(log, c), now)
    {
      ghost var was := times;
      var all := if c in times then times[c] else [];
      var recent := Recent(all, now);
      times := if recent != [] then times[c := recent] else times - {c};
      forall d, t | now <= t ensures Recent(Of(times, d), t) == Recent(Of(log, d), t) {
        assert Recent(Of(was, d), t) == Recent(Of(log, d), t);
        if d == c {
          PruningIsInvisible(all, now, t);
        }
      }
      assert Recent(Of(was, c), now) == Recent(Of(log, c), now);
      return if |recent| >= RENAME_LIMIT then Some(recent[0] + WINDOW - now) else None;
    }

    method Record(c: Channel, now: real)
      requires Valid(now)
      modifies this
      ensures Valid(now) && log == old(log)[c := Of(old(log), c) + [now]]
    {
      ghost var was, before := times, log;
      var all := if c in times then times[c] else [];
      log := log[c := Of(log, c) + [now]];
      times := times[c := all + [now]];
      forall d, t | now <= t ensures Recent(Of(times, d), t) == Recent(Of(log, d), t) {
        assert Recent(Of(was, d), t) == Recent(Of(before, d), t);
        if d == c {
          RecentAppend(all, [now], t);
          RecentAppend(Of(before, c), [now], t);
        }
      }
    }

    method Forget(c: Channel, ghost now: real)
      requires Valid(now)
      modifies this
      ensures Valid(now) && log == old(log) - {c}
    {
      ghost var was, before := times, log;
      times, log := times - {c}, log - {c};
      forall d, t | now <= t ensures Recent(Of(times, d), t) == Recent(Of(log, d), t) {
        assert Recent(Of(was, d), t) == Recent(Of(before, d), t);
      }
    }
  }

  // ---- metrics -------------------------------------------------------------------

  datatype Event = Event(at: real, status: int)

  function CountOf(events: seq<Event>, status: int, now: real): nat {
    if events == [] then 0
    else (if events[0].at >= now - 600.0 && events[0].status == status then 1 else 0) + CountOf(events[1..], status, now)
  }

  /** popleft while the head is older than the window. */
  function Trimmed(events: seq<Event>, now: real): seq<Event> {
    if events != [] && events[0].at < now - WINDOW then Trimmed(events[1..], now) else events
  }

  lemma {:induction false} TrimmingIsInvisible(events: seq<Event>, now: real, status: int, later: real)
    requires now <= later
    ensures CountOf(Trimmed(events, now), status, later) == CountOf(events, status, later)
    decreases |events|
  {
    if events != [] && events[0].at < now - WINDOW {
      TrimmingIsInvisible(events[1..], now, status, later);
    }
  }

  lemma {:induction false} CountAppend(a: seq<Event>, b: seq<Event>, status: int, now: real)
    ensures CountOf(a + b, status, now) == CountOf(a, status, now) + CountOf(b, status, now)
    decreases |a|
  {
    if a == [] {
      assert a + b == b;
    } else {
      assert (a + b)[1..] == a[1..] + b;
      CountAppend(a[1..], b, status, now);
    }
  }

  /** The deque of observed statuses; `log` is everything ever observed. The
      deque of transmissions is the same with one status for all. */
  class Metrics {
    var events: seq<Event>
    ghost var log: seq<Event>

    ghost predicate Valid(now: real)
      reads this
    {
      forall status, t | now <= t :: CountOf(events, status, t) == CountOf(log, status, t)
    }

    constructor ()
      ensures log == [] && forall now :: Valid(now)
    {
      events, log := [], [];
    }

    /** A response: append, then trim. */
    method Observe(now: real, status: int)
      requires Valid(now)
      modifies this
      ensures Valid(now) && log == old(log) + [Event(now, status)]
    {
      Append(now, status);
      ghost var all := events;
      while events != [] && events[0].at < now - WINDOW
        invariant Trimmed(events, now) == Trimmed(all, now)
        invariant log == old(log) + [Event(now, status)]
        decreases |events|
      {
        events := events[1..];
      }
      forall s, t | now <= t ensures CountOf(events, s, t) == CountOf(log, s, t) {
        TrimmingIsInvisible(all, now, s, t);
        TrimmingIsInvisible(events, now, s, t);
        assert CountOf(all, s, t) == CountOf(log, s, t);
      }
    }

    /** A transport failure: append only. */
    method Append(now: real, status: int)
      requires Valid(now)
      modifies this
      ensures Valid(now) && log == old(log) + [Event(now, status)] && events == old(events) + [Event(now, status)]
    {
      ghost var before, seen := events, log;
      events, log := events + [Event(now, status)], log + [Event(now, status)];
      forall s, t | now <= t ensures CountOf(events, s, t) == CountOf(log, s, t) {
        CountAppend(before, [Event(now, status)], s, t);
        CountAppend(seen, [Event(now, status)], s, t);
        assert CountOf(before, s, t) == CountOf(seen, s, t);
      }
    }

    /** metrics(): what the whole history holds for the last ten minutes. */
    method Count(status: int, now: real) returns (n: nat)
      requires Valid(now)
      ensures n == CountOf(log, status, now)
    {
      n := 0;
      for i := 0 to |events|
        invariant n + CountOf(events[i..], status, now) == CountOf(events, status, now)
      {
        assert events[i..][1..] == events[i + 1..];
        if events[i].at >= now - WINDOW && events[i].status == status {
          n := n + 1;
        }
      }
      assert events[|events|..] == [];
      assert CountOf(events, status, now) == CountOf(log, status, now);
    }
  }
}
