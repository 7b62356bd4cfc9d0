/**
  internal/api/middleware.go: the process-local fixed-window rate limiter, with
  its opportunistic sweep. Times and durations are integers (nanoseconds).
 */
module RateLimiter {
  import opened Common

  datatype IpLimit = IpLimit(hits: int, resetTime: int)

  type Counters = map<string, IpLimit>

  const SWEEP_THRESHOLD := 10000

  function Swept(c: Counters, now: int): Counters {
    if |c| > SWEEP_THRESHOLD then map k | k in c && now <= c[k].resetTime :: c[k] else c
  }

  /** One key on its own: its entry after a call, and the answer. */
  function Hit(lim: Option<IpLimit>, max: int, duration: int, now: int): (IpLimit, bool) {
    if lim.None? || now > lim.value.resetTime then (IpLimit(1, now + duration), true)
    else if lim.value.hits >= max then (lim.value, false)
    else (lim.value.(hits := lim.value.hits + 1), true)
  }

  function Entry(c: Counters, key: string): Option<IpLimit> {
    if key in c then Some(c[key]) else None
  }

  /** A call on the whole table: sweep, then the key. */
  function Allowed(c: Counters, key: string, max: int, duration: int, now: int): (Counters, bool) {
    var s := Swept(c, now);
    var (lim, ok) := Hit(Entry(s, key), max, duration, now);
    (s[key := lim], ok)
  }

  class LocalLimiter {
    var counters: Counters

    constructor ()
      ensures counters == map[]
    {
      counters := map[];
    }

    method Allow(ip: string, max: int, duration: int, now: int) returns (ok: bool)
      modifies this
      ensures (counters, ok) == Allowed(old(counters), ip, max, duration, now)
    {
      if |counters| > SWEEP_THRESHOLD {
        Sweep(now);
      }
      if ip !in counters || now > counters[ip].resetTime {
        counters := counters[ip := IpLimit(1, now + duration)];
        return true;
      }
      var lim := counters[ip];
      if lim.hits >= max {
        assert counters == counters[ip := lim];
        return false;
      }
      counters := counters[ip := lim.(hits := lim.hits + 1)];
      return true;
    }

    /** The range over the map, deleting the expired entries as it goes. */
    method Sweep(now: int)
      modifies this
      ensures counters == map k | k in old(counters) && now <= old(counters)[k].resetTime :: old(counters)[k]
    {
      var keys := counters.Keys;
      while keys != {}
        invariant keys <= counters.Keys <= old(counters).Keys
        invariant forall k :: k in counters ==> counters[k] == old(counters)[k]
        invariant forall k :: k in old(counters) && k !in keys ==>
          (k in counters <==> now <= old(counters)[k].resetTime)
        decreases |keys|
      {
        var k :| k in keys;
        keys := keys - {k};
        if now > counters[k].resetTime {
          counters := counters - {k};
        }
      }
    }
  }

  /** What a call does to the other keys: a table of at most ten thousand entries keeps them all, a larger one loses
      exactly the expired ones; a kept entry is not changed. */
  lemma SweepTakesExpired(c: Counters, key: string, max: int, duration: int, now: int, other: string)
    requires other != key
    ensures
      var after := Allowed(c, key, max, duration, now).0;
      && (other in after <==> other in c && (|c| <= 10000 || now <= c[other].resetTime))
      && (other in after ==> after[other] == c[other])
  {
  }

  // ---------- Traces ----------

  datatype Call = Call(key: string, max: int, duration: int, now: int)

  predicate Ordered(calls: seq<Call>) {
    forall i, j :: 0 <= i < j < |calls| ==> calls[i].now <= calls[j].now
  }

  /** The answers of the limiter to a trace. */
  function Answers(c: Counters, calls: seq<Call>): (r: seq<bool>)
    ensures |r| == |calls|
    decreases |calls|
  {
    if calls == [] then []
    else
      var (c', ok) := Allowed(c, calls[0].key, calls[0].max, calls[0].duration, calls[0].now);
      [ok] + Answers(c', calls[1..])
  }

  /** The answers of a limiter that holds one key only and is never swept. */
  function AloneAnswers(lim: Option<IpLimit>, calls: seq<Call>): (r: seq<bool>)
    ensures |r| == |calls|
    decreases |calls|
  {
    if calls == [] then []
    else
      var (lim', ok) := Hit(lim, calls[0].max, calls[0].duration, calls[0].now);
      [ok] + AloneAnswers(Some(lim'), calls[1..])
  }

  function CallsOf(calls: seq<Call>, key: string): seq<Call> {
    if calls == [] then []
    else (if calls[0].key == key then [calls[0]] else []) + CallsOf(calls[1..], key)
  }

  /** The answers given to one key's calls, picked out of all answers. */
  function AnswersTo(calls: seq<Call>, answers: seq<bool>, key: string): seq<bool>
    requires |calls| == |answers|
  {
    if calls == [] then []
    else (if calls[0].key == key then [answers[0]] else []) + AnswersTo(calls[1..], answers[1..], key)
  }

  /** Two entries that no call from `now` on can tell apart. */
  ghost predicate SameFrom(a: Option<IpLimit>, b: Option<IpLimit>, now: int) {
    a == b || ((a.None? || a.value.resetTime < now) && (b.None? || b.value.resetTime < now))
  }

  /** A call on the key itself answers as the lone limiter does, and leaves the same entry. */
  lemma OwnCall(c: Counters, lim: Option<IpLimit>, k: Call, now: int)
    requires now <= k.now && SameFrom(Entry(c, k.key), lim, now)
    ensures var (c', ok) := Allowed(c, k.key, k.max, k.duration, k.now);
      var (lim', ok') := Hit(lim, k.max, k.duration, k.now);
      ok == ok' && Entry(c', k.key) == Some(lim')
  {
  }

  /** A call on another key leaves an entry that the key cannot tell from its own. */
  lemma OtherCall(c: Counters, lim: Option<IpLimit>, k: Call, key: string, now: int)
    requires now <= k.now && k.key != key && SameFrom(Entry(c, key), lim, now)
    ensures SameFrom(Entry(Allowed(c, k.key, k.max, k.duration, k.now).0, key), lim, k.now)
  {
  }

  lemma AnswersStep(c: Counters, calls: seq<Call>)
    requires calls != []
    ensures var (c', ok) := Allowed(c, calls[0].key, calls[0].max, calls[0].duration, calls[0].now);
      Answers(c, calls)[0] == ok && Answers(c, calls)[1..] == Answers(c', calls[1..])
  {
  }

  lemma {:induction false} NonInterferenceFrom(c: Counters, lim: Option<IpLimit>, calls: seq<Call>, key: string,
                                               now: int)
    requires Ordered(calls)
    requires calls != [] ==> now <= calls[0].now
    requires SameFrom(Entry(c, key), lim, now)
    ensures AnswersTo(calls, Answers(c, calls), key) == AloneAnswers(lim, CallsOf(calls, key))
    decreases |calls|
  {
    if calls != [] {
      var k, rest := calls[0], calls[1..];
      var (c', ok) := Allowed(c, k.key, k.max, k.duration, k.now);
      var answers := Answers(c, calls);
      AnswersStep(c, calls);
      if k.key == key {
        OwnCall(c, lim, k, now);
        var (lim', ok') := Hit(lim, k.max, k.duration, k.now);
        NonInterferenceFrom(c', Some(lim'), rest, key, k.now);
        assert CallsOf(calls, key)[1..] == CallsOf(rest, key);
        assert AnswersTo(calls, answers, key) == [ok] + AnswersTo(rest, answers[1..], key);
      } else {
        OtherCall(c, lim, k, key, now);
        NonInterferenceFrom(c', lim, rest, key, k.now);
        assert CallsOf(calls, key) == CallsOf(rest, key);
        assert AnswersTo(calls, answers, key) == AnswersTo(rest, answers[1..], key);
      }
    }
  }

  /** For nondecreasing time, neither other keys nor the sweep change an answer. */
  lemma NonInterference(calls: seq<Call>, key: string)
    requires Ordered(calls)
    ensures AnswersTo(calls, Answers(map[], calls), key) == AloneAnswers(None, CallsOf(calls, key))
  {
    NonInterferenceFrom(map[], None, calls, key, if calls == [] then 0 else calls[0].now);
  }

  // ---------- Counting ----------

  /** How many of the calls between two instants were let through. */
  function Admitted(calls: seq<Call>, answers: seq<bool>, from: int, to: int): nat
    requires |calls| == |answers|
  {
    if calls == [] then 0
    else (if answers[0] && from <= calls[0].now <= to then 1 else 0) + Admitted(calls[1..], answers[1..], from, to)
  }

  function CountUpTo(calls: seq<Call>, to: int): nat {
    if calls == [] then 0 else (if calls[0].now <= to then 1 else 0) + CountUpTo(calls[1..], to)
  }

  predicate Uniform(calls: seq<Call>, max: int, duration: int) {
    forall k :: k in calls ==> k.max == max && k.duration == duration
  }

  /** A window always lets its first call through, whatever the maximum. */
  function Quota(max: int): (m: int)
    ensures m >= 1 && m >= max
  {
    if max < 1 then 1 else max
  }

  function Min(a: int, b: int): int {
    if a < b then a else b
  }

  lemma AloneStep(lim: Option<IpLimit>, calls: seq<Call>)
    requires calls != []
    ensures var (lim', ok) := Hit(lim, calls[0].max, calls[0].duration, calls[0].now);
      AloneAnswers(lim, calls)[0] == ok && AloneAnswers(lim, calls)[1..] == AloneAnswers(Some(lim'), calls[1..])
  {
  }

  /** Inside an open window exactly the remaining quota is let through, first come first served. */
  lemma {:induction false} InsideWindow(lim: IpLimit, calls: seq<Call>, max: int, duration: int, from: int)
    requires Ordered(calls) && Uniform(calls, max, duration)
    requires 1 <= lim.hits <= Quota(max)
    requires forall k :: k in calls ==> from <= k.now
    ensures Admitted(calls, AloneAnswers(Some(lim), calls), from, lim.resetTime) ==
            Min(Quota(max) - lim.hits, CountUpTo(calls, lim.resetTime))
    decreases |calls|
  {
    if calls != [] {
      AloneStep(Some(lim), calls);
      assert calls[0] in calls;
      if calls[0].now <= lim.resetTime {
        InsideWindow(Hit(Some(lim), max, duration, calls[0].now).0, calls[1..], max, duration, from);
      } else {
        NothingLater(calls, AloneAnswers(Some(lim), calls), from, lim.resetTime);
      }
    }
  }

  lemma {:induction false} NothingLater(calls: seq<Call>, answers: seq<bool>, from: int, to: int)
    requires |calls| == |answers|
    requires forall k :: k in calls ==> k.now > to
    ensures Admitted(calls, answers, from, to) == 0 && CountUpTo(calls, to) == 0
    decreases |calls|
  {
    if calls != [] {
      assert calls[0] in calls;
      NothingLater(calls[1..], answers[1..], from, to);
    }
  }

  lemma OrderedTail(calls: seq<Call>)
    requires Ordered(calls) && calls != []
    ensures Ordered(calls[1..])
    ensures forall k :: k in calls[1..] ==> calls[0].now <= k.now
  {
    forall k | k in calls[1..] ensures calls[0].now <= k.now {
      var i :| 0 <= i < |calls[1..]| && calls[1..][i] == k;
      assert calls[i + 1] == k;
    }
  }

  /** A window opened by the first call, for the lone limiter. */
  lemma AloneWindow(lim: Option<IpLimit>, calls: seq<Call>, max: int, duration: int, t: int, to: int)
    requires Ordered(calls) && Uniform(calls, max, duration) && duration >= 0
    requires calls != [] && calls[0].now == t && to == t + duration
    requires lim.None? || t > lim.value.resetTime
    ensures Admitted(calls, AloneAnswers(lim, calls), t, to) == Min(Quota(max), CountUpTo(calls, to))
  {
    var window, rest := IpLimit(1, to), calls[1..];
    OrderedTail(calls);
    assert calls[0] in calls;
    assert Hit(lim, max, duration, t) == (window, true);
    AloneStep(lim, calls);
    InsideWindow(window, rest, max, duration, t);
    FirstCounts(calls, AloneAnswers(lim, calls), t, to);
  }

  /** The entry of a key after its calls. */
  function AloneState(lim: Option<IpLimit>, calls: seq<Call>): Option<IpLimit>
    decreases |calls|
  {
    if calls == [] then lim
    else AloneState(Some(Hit(lim, calls[0].max, calls[0].duration, calls[0].now).0), calls[1..])
  }

  lemma {:induction false} AloneSplit(lim: Option<IpLimit>, a: seq<Call>, b: seq<Call>)
    ensures AloneAnswers(lim, a + b) == AloneAnswers(lim, a) + AloneAnswers(AloneState(lim, a), b)
    decreases |a|
  {
    if a == [] {
      assert a + b == b;
    } else {
      assert (a + b)[1..] == a[1..] + b;
      AloneSplit(Some(Hit(lim, a[0].max, a[0].duration, a[0].now).0), a[1..], b);
    }
  }

  /** In every trace, whatever other keys do and whenever entries are swept: a window that a key's call opens lets
      through exactly the quota of the key's calls from there on, or every call if there are fewer. */
  lemma WindowIsExact(calls: seq<Call>, key: string, before: seq<Call>, after: seq<Call>, max: int, duration: int,
                      to: int)
    requires Ordered(calls) && CallsOf(calls, key) == before + after && after != []
    requires Uniform(after, max, duration) && duration >= 0 && to == after[0].now + duration
    requires AloneState(None, before).None? || after[0].now > AloneState(None, before).value.resetTime
    ensures
      var answers := AnswersTo(calls, Answers(map[], calls), key);
      && |answers| == |before| + |after|
      && Admitted(after, answers[|before|..], after[0].now, to) == Min(Quota(max), CountUpTo(after, to))
  {
    NonInterference(calls, key);
    CallsOfOrdered(calls, key);
    AloneSplit(None, before, after);
    var mine := before + after;
    assert forall i :: 0 <= i < |after| ==> after[i] == mine[|before| + i];
    assert AloneAnswers(None, mine)[|before|..] == AloneAnswers(AloneState(None, before), after);
    AloneWindow(AloneState(None, before), after, max, duration, after[0].now, to);
  }

  lemma FirstCounts(calls: seq<Call>, answers: seq<bool>, from: int, to: int)
    requires calls != [] && |calls| == |answers| && answers[0] && from <= calls[0].now <= to
    ensures Admitted(calls, answers, from, to) == 1 + Admitted(calls[1..], answers[1..], from, to)
    ensures CountUpTo(calls, to) == 1 + CountUpTo(calls[1..], to)
  {
  }

  lemma {:induction false} MonotoneInterval(calls: seq<Call>, answers: seq<bool>, from: int, to: int, to': int)
    requires |calls| == |answers| && to <= to'
    ensures Admitted(calls, answers, from, to) <= Admitted(calls, answers, from, to')
    decreases |calls|
  {
    if calls != [] {
      MonotoneInterval(calls[1..], answers[1..], from, to, to');
    }
  }

  /** From inside a window: at most what is left of it and one more window. */
  lemma {:induction false} TwoWindows(lim: IpLimit, calls: seq<Call>, max: int, duration: int, from: int, to: int)
    requires Ordered(calls) && Uniform(calls, max, duration) && duration >= 0
    requires 1 <= lim.hits <= Quota(max)
    requires to <= from + duration && forall k :: k in calls ==> from <= k.now
    ensures Admitted(calls, AloneAnswers(Some(lim), calls), from, to) <= (Quota(max) - lim.hits) + Quota(max)
    decreases |calls|
  {
    if calls != [] {
      var t := calls[0].now;
      assert calls[0] in calls;
      AloneStep(Some(lim), calls);
      if t <= lim.resetTime {
        TwoWindows(Hit(Some(lim), max, duration, t).0, calls[1..], max, duration, from, to);
      } else {
        var lim' := IpLimit(1, t + duration);
        InsideWindow(lim', calls[1..], max, duration, from);
        MonotoneInterval(calls[1..], AloneAnswers(Some(lim'), calls[1..]), from, to, lim'.resetTime);
      }
    }
  }

  lemma {:induction false} AloneBound(lim: Option<IpLimit>, calls: seq<Call>, max: int, duration: int, from: int,
                                      to: int)
    requires Ordered(calls) && Uniform(calls, max, duration) && duration >= 0
    requires lim.Some? ==> 1 <= lim.value.hits <= Quota(max)
    requires to <= from + duration
    ensures Admitted(calls, AloneAnswers(lim, calls), from, to) <= 2 * Quota(max) - 1
    decreases |calls|
  {
    if calls != [] {
      var t := calls[0].now;
      assert calls[0] in calls;
      AloneStep(lim, calls);
      var lim' := Hit(lim, max, duration, t).0;
      if t < from {
        AloneBound(Some(lim'), calls[1..], max, duration, from, to);
      } else if lim.Some? && t <= lim.value.resetTime {
        TwoWindows(lim.value, calls, max, duration, from, to);
      } else {
        InsideWindow(lim', calls[1..], max, duration, from);
        MonotoneInterval(calls[1..], AloneAnswers(Some(lim'), calls[1..]), from, to, lim'.resetTime);
      }
    }
  }

  /** Over every trace, a closed interval as long as the window lets through at most 2*max - 1 calls of a key. */
  lemma IntervalBound(calls: seq<Call>, key: string, max: int, duration: int, from: int)
    requires Ordered(calls) && duration >= 0
    requires Uniform(CallsOf(calls, key), max, duration)
    ensures var mine := CallsOf(calls, key);
      var answers := AnswersTo(calls, Answers(map[], calls), key);
      |mine| == |answers| && Admitted(mine, answers, from, from + duration) <= 2 * Quota(max) - 1
  {
    NonInterference(calls, key);
    CallsOfOrdered(calls, key);
    AloneBound(None, CallsOf(calls, key), max, duration, from, from + duration);
  }

  lemma {:induction false} CallsOfIn(calls: seq<Call>, key: string, k: Call)
    requires k in CallsOf(calls, key)
    ensures k in calls
  {
    if !(calls[0].key == key && calls[0] == k) {
      CallsOfIn(calls[1..], key, k);
    }
  }

  lemma {:induction false} CallsOfOrdered(calls: seq<Call>, key: string)
    requires Ordered(calls)
    ensures Ordered(CallsOf(calls, key))
  {
    if calls != [] {
      OrderedTail(calls);
      CallsOfOrdered(calls[1..], key);
      var rest, all := CallsOf(calls[1..], key), CallsOf(calls, key);
      if calls[0].key == key {
        assert all == [calls[0]] + rest;
        forall i, j | 0 <= i < j < |all| ensures all[i].now <= all[j].now {
          assert all[j] == rest[j - 1];
          if i == 0 {
            CallsOfIn(calls[1..], key, rest[j - 1]);
          } else {
            assert all[i] == rest[i - 1];
          }
        }
      } else {
        assert all == rest;
      }
    }
  }

  // ---------- The bound is reached ----------

  function Times(n: nat, k: Call): seq<Call> {
    seq(n, _ => k)
  }

  /** One call, the rest of its window at the last moment, and a full window right after. */
  function WorstCase(key: string, max: nat, duration: int): seq<Call>
    requires max >= 1
  {
    [Call(key, max, duration, 0)]
    + (Times(max - 1, Call(key, max, duration, duration))
       + Times(max, Call(key, max, duration, duration + 1)))
  }

  lemma {:induction false} RepeatInWindow(n: nat, k: Call, lim: IpLimit, rest: seq<Call>, from: int, to: int)
    requires lim.hits + n <= k.max && k.now <= lim.resetTime && from <= k.now <= to
    ensures Admitted(Times(n, k) + rest, AloneAnswers(Some(lim), Times(n, k) + rest), from, to) ==
            n + Admitted(rest, AloneAnswers(Some(lim.(hits := lim.hits + n)), rest), from, to)
    decreases n
  {
    var calls := Times(n, k) + rest;
    if n == 0 {
      assert calls == rest;
    } else {
      AloneStep(Some(lim), calls);
      assert calls[1..] == Times(n - 1, k) + rest;
      RepeatInWindow(n - 1, k, lim.(hits := lim.hits + 1), rest, from, to);
    }
  }

  /** For every maximum and every window there is a trace that reaches the bound. */
  lemma IntervalBoundIsTight(key: string, max: nat, duration: int)
    requires max >= 1 && duration >= 1
    ensures var calls := WorstCase(key, max, duration);
      && Ordered(calls) && CallsOf(calls, key) == calls && Uniform(calls, max, duration)
      && AnswersTo(calls, Answers(map[], calls), key) == AloneAnswers(None, calls)
      && Admitted(calls, AnswersTo(calls, Answers(map[], calls), key), duration, duration + duration) == 2 * max - 1
  {
    var calls := WorstCase(key, max, duration);
    var k1 := Call(key, max, duration, duration);
    var second := Times(max, Call(key, max, duration, duration + 1));
    AloneStep(None, calls);
    assert calls[1..] == Times(max - 1, k1) + second;
    RepeatInWindow(max - 1, k1, IpLimit(1, duration), second, duration, duration + duration);
    FullWindow(key, max, duration, IpLimit(max, duration));
    WorstCaseOrdered(key, max, duration);
    CallsOfOneKey(calls, key);
    NonInterference(calls, key);
  }

  lemma {:induction false} CallsOfOneKey(calls: seq<Call>, key: string)
    requires forall i :: 0 <= i < |calls| ==> calls[i].key == key
    ensures CallsOf(calls, key) == calls
  {
    if calls != [] {
      CallsOfOneKey(calls[1..], key);
    }
  }

  lemma WorstCaseOrdered(key: string, max: nat, duration: int)
    requires max >= 1 && duration >= 1
    ensures Ordered(WorstCase(key, max, duration)) && Uniform(WorstCase(key, max, duration), max, duration)
    ensures forall i :: 0 <= i < |WorstCase(key, max, duration)| ==> WorstCase(key, max, duration)[i].key == key
  {
    var calls := WorstCase(key, max, duration);
    assert forall i :: 0 <= i < |calls| ==>
      calls[i] == Call(key, max, duration, if i == 0 then 0 else if i < max then duration else duration + 1);
  }

  lemma FullWindow(key: string, max: nat, duration: int, expired: IpLimit)
    requires max >= 1 && duration >= 1 && expired.resetTime == duration
    ensures var second := Times(max, Call(key, max, duration, duration + 1));
      Admitted(second, AloneAnswers(Some(expired), second), duration, duration + duration) == max
  {
    var k := Call(key, max, duration, duration + 1);
    var second := Times(max, k);
    AloneStep(Some(expired), second);
    assert second[1..] == Times(max - 1, k) + [];
    RepeatInWindow(max - 1, k, IpLimit(1, duration + 1 + duration), [], duration, duration + duration);
  }
}
