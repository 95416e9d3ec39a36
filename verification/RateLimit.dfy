/** The sliding-window rate limiter, against a log that never forgets an accepted call. */
module RateLimit {
  import opened Common

  type Caller = nat

  /** A limit of zero makes the code index an empty deque. */
  datatype Answer = Accepted | Exceeded(retryAfter: int) | Broken

  function Ceiling(x: real): (c: int)
    ensures c as real >= x && (c - 1) as real < x
  {
    -((-x).Floor)
  }

  /** Leading timestamps at or before the cutoff leave the deque. */
  function Trimmed(events: seq<Time>, cutoff: Time): seq<Time> {
    if events != [] && events[0] <= cutoff then Trimmed(events[1..], cutoff) else events
  }

  datatype Checked = Checked(events: seq<Time>, answer: Answer)

  function CheckEvents(events: seq<Time>, limit: int, window: Time, now: Time): Checked {
    var es := Trimmed(events, now - window);
    if |es| < limit then Checked(es + [now], Accepted)
    else if es == [] then Checked(es, Broken)
    else
      var seconds := Ceiling(es[0] + window - now);
      Checked(es, Exceeded(if seconds < 1 then 1 else seconds))
  }

  function EventsOf(events: map<Caller, seq<Time>>, key: Caller): seq<Time> {
    if key in events then events[key] else []
  }

  class SlidingWindowRateLimiter {
    var events: map<Caller, seq<Time>>

    constructor ()
      ensures events == map[]
    {
      events := map[];
    }

    method Check(key: Caller, limit: int, window: Time, now: Time) returns (answer: Answer)
      modifies this
      ensures Checked(EventsOf(events, key), answer) == CheckEvents(EventsOf(old(events), key), limit, window, now)
      ensures forall k :: k != key ==> EventsOf(events, k) == EventsOf(old(events), k)
    {
      var es := if key in events then events[key] else [];
      while es != [] && es[0] <= now - window
        invariant Trimmed(es, now - window) == Trimmed(EventsOf(old(events), key), now - window)
        decreases |es|
      {
        es := es[1..];
      }
      events := events[key := es];
      if |es| >= limit {
        if es == [] { return Broken; }
        var seconds := Ceiling(es[0] + window - now);
        return Exceeded(if seconds < 1 then 1 else seconds);
      }
      events := events[key := es + [now]];
      return Accepted;
    }

    method Clear(key: Caller)
      modifies this
      ensures events == old(events) - {key}
    {
      events := events - {key};
    }
  }

  // ----- Reference: the log of accepted calls -----

  /** The accepted calls after `from`. */
  function After(log: seq<Time>, from: Time): (r: seq<Time>)
    ensures |r| <= |log| && forall t :: t in r <==> t in log && t > from
  {
    if log == [] then []
    else if log[|log| - 1] > from then After(log[..|log| - 1], from) + [log[|log| - 1]]
    else After(log[..|log| - 1], from)
  }

  datatype Call = Ask(now: Time) | Forget

  /** The accepted calls since the last `clear`, decided by counting over the whole log. */
  function FullLog(calls: seq<Call>, limit: int, window: Time): seq<Time> {
    if calls == [] then [] else
    var log, c := FullLog(calls[..|calls| - 1], limit, window), calls[|calls| - 1];
    if c.Forget? then []
    else if |After(log, c.now - window)| < limit then log + [c.now]
    else log
  }

  /** The deque after the same calls. */
  function Deque(calls: seq<Call>, limit: int, window: Time): seq<Time> {
    if calls == [] then [] else
    var es, c := Deque(calls[..|calls| - 1], limit, window), calls[|calls| - 1];
    if c.Forget? then [] else CheckEvents(es, limit, window, c.now).events
  }

  predicate Sorted(s: seq<Time>) {
    forall i, j :: 0 <= i < j < |s| ==> s[i] <= s[j]
  }

  /** The clock never goes back. */
  predicate Monotone(calls: seq<Call>) {
    forall i, j :: 0 <= i < j < |calls| && calls[i].Ask? && calls[j].Ask? ==> calls[i].now <= calls[j].now
  }

  lemma {:induction false} TrimmedIsAfter(log: seq<Time>, cutoff: Time)
    requires Sorted(log)
    ensures Trimmed(log, cutoff) == After(log, cutoff)
  {
    if log != [] {
      if log[0] <= cutoff {
        TrimmedIsAfter(log[1..], cutoff);
        AfterSkips(log, cutoff);
      } else {
        AfterAll(log, cutoff);
      }
    }
  }

  lemma {:induction false} AfterSkips(log: seq<Time>, from: Time)
    requires log != [] && log[0] <= from
    ensures After(log, from) == After(log[1..], from)
  {
    if |log| > 1 {
      AfterSkips(log[..|log| - 1], from);
      assert log[1..][..|log| - 2] == log[..|log| - 1][1..];
    } else {
      assert log[..0] == log[1..] == [];
    }
  }

  lemma {:induction false} AfterAll(log: seq<Time>, from: Time)
    requires forall i :: 0 <= i < |log| ==> log[i] > from
    ensures After(log, from) == log
  {
    if log != [] { AfterAll(log[..|log| - 1], from); }
  }

  lemma {:induction false} AfterTwice(log: seq<Time>, a: Time, b: Time)
    requires a <= b
    ensures After(After(log, a), b) == After(log, b) && |After(log, b)| <= |After(log, a)|
  {
    if log != [] {
      AfterTwice(log[..|log| - 1], a, b);
      var front := After(log[..|log| - 1], a);
      if log[|log| - 1] > a { assert (front + [log[|log| - 1]])[..|front|] == front; }
    }
  }

  lemma {:induction false} AfterSorted(log: seq<Time>, from: Time)
    requires Sorted(log)
    ensures Sorted(After(log, from))
  {
    if log != [] {
      AfterSorted(log[..|log| - 1], from);
      var front := After(log[..|log| - 1], from);
      forall i | 0 <= i < |front| ensures front[i] <= log[|log| - 1] { assert front[i] in log[..|log| - 1]; }
    }
  }

  /** Calls answered so far were not asked after `now`. */
  predicate NotAfter(s: seq<Time>, now: Time) {
    forall i :: 0 <= i < |s| ==> s[i] <= now
  }

  lemma {:induction false} LogIsSorted(calls: seq<Call>, limit: int, window: Time, now: Time)
    requires Monotone(calls) && AskedBy(calls, now)
    ensures Sorted(FullLog(calls, limit, window)) && NotAfter(FullLog(calls, limit, window), now)
  {
    if calls != [] && calls[|calls| - 1].Ask? {
      var front, c := calls[..|calls| - 1], calls[|calls| - 1];
      LogIsSorted(front, limit, window, c.now);
    }
  }

  predicate AskedBy(calls: seq<Call>, now: Time) {
    forall i :: 0 <= i < |calls| && calls[i].Ask? ==> calls[i].now <= now
  }

  lemma FrontIsMonotone(calls: seq<Call>)
    requires Monotone(calls) && calls != []
    ensures Monotone(calls[..|calls| - 1])
    ensures calls[|calls| - 1].Ask? ==> AskedBy(calls[..|calls| - 1], calls[|calls| - 1].now)
  {
  }

  lemma NothingKept(cutoff: Time)
    ensures Trimmed([], cutoff) == After([], cutoff)
  {
  }

  /** The deque holds the accepted calls that some cutoff, not after the next call's, has left. */
  lemma {:induction false} DequeIsRecent(calls: seq<Call>, limit: int, window: Time, now: Time)
    requires Monotone(calls) && AskedBy(calls, now)
    ensures Trimmed(Deque(calls, limit, window), now - window) == After(FullLog(calls, limit, window), now - window)
  {
    hide Trimmed, After, CheckEvents, Sorted, NotAfter, Monotone;
    NothingKept(now - window);
    if calls != [] && calls[|calls| - 1].Ask? {
      var front, c := calls[..|calls| - 1], calls[|calls| - 1];
      FrontIsMonotone(calls);
      DequeIsRecent(front, limit, window, c.now);
      LogIsSorted(front, limit, window, c.now);
      AskedDeque(FullLog(front, limit, window), Deque(front, limit, window), limit, window, c.now, now);
    }
  }

  /** One call more, for any later cutoff. */
  lemma AskedDeque(log: seq<Time>, es: seq<Time>, limit: int, window: Time, asked: Time, now: Time)
    requires Sorted(log) && NotAfter(log, asked) && Trimmed(es, asked - window) == After(log, asked - window)
    requires asked <= now
    ensures var kept := After(log, asked - window);
      Trimmed(CheckEvents(es, limit, window, asked).events, now - window)
      == After(if |kept| < limit then log + [asked] else log, now - window)
  {
    hide Trimmed, After, Sorted, NotAfter;
    var kept := After(log, asked - window);
    AfterSorted(log, asked - window);
    AfterTwice(log, asked - window, now - window);
    if |kept| < limit {
      SortedAppend(kept, log, asked);
      TrimmedIsAfter(kept + [asked], now - window);
      AfterAppend(kept, asked, now - window);
      AfterAppend(log, asked, now - window);
    } else {
      TrimmedIsAfter(kept, now - window);
    }
  }

  lemma AfterAppend(log: seq<Time>, t: Time, from: Time)
    ensures After(log + [t], from) == After(log, from) + (if t > from then [t] else [])
  {
    assert (log + [t])[..|log|] == log;
  }

  lemma SortedAppend(kept: seq<Time>, log: seq<Time>, t: Time)
    requires Sorted(kept) && NotAfter(log, t) && forall x :: x in kept ==> x in log
    ensures Sorted(kept + [t])
  {
    forall i | 0 <= i < |kept| ensures kept[i] <= t {
      var x := kept[i];
      assert x in kept;
      var j :| 0 <= j < |log| && log[j] == x;
    }
  }

  /** A call is accepted iff fewer than `limit` calls were accepted in the last window since the last `clear`. */
  lemma AcceptedIffRoom(calls: seq<Call>, limit: int, window: Time, now: Time)
    requires Monotone(calls) && AskedBy(calls, now)
    ensures CheckEvents(Deque(calls, limit, window), limit, window, now).answer == Accepted
       <==> |After(FullLog(calls, limit, window), now - window)| < limit
  {
    DequeIsRecent(calls, limit, window, now);
  }

  /** Number of accepted calls in the interval (a, b]. */
  function Between(log: seq<Time>, a: Time, b: Time): nat {
    if log == [] then 0
    else Between(log[..|log| - 1], a, b) + (if a < log[|log| - 1] <= b then 1 else 0)
  }

  lemma {:induction false} BetweenIsAfter(log: seq<Time>, a: Time, b: Time)
    ensures Between(log, a, b) <= |After(log, a)|
  {
    if log != [] { BetweenIsAfter(log[..|log| - 1], a, b); }
  }

  /** No interval of one window's length holds more accepted calls than the limit. */
  lemma {:induction false} NoWindowOverflows(calls: seq<Call>, limit: int, window: Time, a: Time)
    requires Monotone(calls) && limit >= 0 && window >= 0.0
    ensures Between(FullLog(calls, limit, window), a, a + window) <= limit
  {
    if calls != [] && calls[|calls| - 1].Ask? {
      var front, c := calls[..|calls| - 1], calls[|calls| - 1];
      var log := FullLog(front, limit, window);
      NoWindowOverflows(front, limit, window, a);
      if |After(log, c.now - window)| < limit {
        assert (log + [c.now])[..|log|] == log;
        if a < c.now <= a + window {
          BetweenIsAfter(log, a, a + window);
          AfterTwice(log, c.now - window, a);
        }
      }
    }
  }

  // ----- How long to wait -----

  lemma {:induction false} DequeIsBounded(calls: seq<Call>, limit: int, window: Time)
    requires limit >= 0
    ensures |Deque(calls, limit, window)| <= limit
  {
    if calls != [] && calls[|calls| - 1].Ask? {
      DequeIsBounded(calls[..|calls| - 1], limit, window);
      TrimmedIsShorter(Deque(calls[..|calls| - 1], limit, window), calls[|calls| - 1].now - window);
    }
  }

  lemma {:induction false} TrimmedIsShorter(events: seq<Time>, cutoff: Time)
    ensures |Trimmed(events, cutoff)| <= |events| && (Trimmed(events, cutoff) != [] ==> Trimmed(events, cutoff)[0] > cutoff)
    ensures events != [] && events[0] <= cutoff ==> |Trimmed(events, cutoff)| < |events|
  {
    if events != [] && events[0] <= cutoff { TrimmedIsShorter(events[1..], cutoff); }
  }

  lemma {:induction false} TrimmedTwice(events: seq<Time>, a: Time, b: Time)
    requires a <= b
    ensures Trimmed(Trimmed(events, a), b) == Trimmed(events, b)
  {
    if events != [] && events[0] <= a { TrimmedTwice(events[1..], a, b); }
  }

  /** A refused caller that stays away for `k` whole seconds is accepted iff `k` is at least `retry_after`. */
  lemma RetryAfterIsExact(calls: seq<Call>, limit: int, window: Time, now: Time, k: nat)
    requires limit >= 1 && window >= 0.0 && k >= 1
    requires CheckEvents(Deque(calls, limit, window), limit, window, now).answer.Exceeded?
    ensures var c := CheckEvents(Deque(calls, limit, window), limit, window, now);
      && c.answer.retryAfter >= 1
      && (CheckEvents(c.events, limit, window, now + k as real).answer == Accepted <==> k >= c.answer.retryAfter)
  {
    var events := Deque(calls, limit, window);
    var es, later := Trimmed(events, now - window), now + k as real - window;
    DequeIsBounded(calls, limit, window);
    TrimmedIsShorter(events, now - window);
    TrimmedIsShorter(es, later);
    var seconds := Ceiling(es[0] + window - now);
    assert es[0] <= later <==> es[0] + window - now <= k as real;
    assert es[0] + window - now <= k as real <==> seconds <= k;
  }

  /** Callers do not influence each other: a key's deque follows from its own calls alone. */
  method Serve(limiter: SlidingWindowRateLimiter, key: Caller, limit: int, window: Time, ghost calls: seq<Call>,
               c: Call)
    requires EventsOf(limiter.events, key) == Deque(calls, limit, window)
    modifies limiter
    ensures EventsOf(limiter.events, key) == Deque(calls + [c], limit, window)
    ensures forall k :: k != key ==> EventsOf(limiter.events, k) == EventsOf(old(limiter.events), k)
  {
    assert (calls + [c])[..|calls|] == calls;
    match c
    case Ask(now) => var answer := limiter.Check(key, limit, window, now);
    case Forget => limiter.Clear(key);
  }
}
