/**
  internal/sync/sync.go: the per-user lock around SyncUser, as a step system of
  any number of workers. With Valkey it is a key set with SETNX and a five
  minute expiry and released by an unconditional DEL; without Valkey it is an
  entry in a process-local map.
 */
module Lease {

  type User = int

  type Worker = int

  /** Milliseconds. */
  const TTL: int := 5 * 60 * 1000

  /** The key's value is always "1"; the owner is kept here only to speak about it. */
  datatype Lock = Lock(expiry: int, owner: Worker)

  datatype Hold = Hold(user: User, since: int)

  datatype State = State(now: int, locks: map<User, Lock>, holders: map<Worker, Hold>)

  datatype Step =
    | Tick(ms: nat)
    | Acquire(w: Worker, u: User)
    | Release(w: Worker)
    | FailRelease(w: Worker)  // the DEL fails, or the worker crashes: the key stays until it expires

  const START := State(0, map[], map[])

  predicate Free(s: State, u: User) {
    u !in s.locks || s.locks[u].expiry <= s.now
  }

  /** Every worker leaves the critical section at most `hold` after it acquired the lock. */
  predicate Enabled(s: State, step: Step, hold: int) {
    match step
    case Tick(ms) => forall w :: w in s.holders ==> s.now + ms <= s.holders[w].since + hold
    case Acquire(w, u) => w !in s.holders && Free(s, u)
    case Release(w) => w in s.holders
    case FailRelease(w) => w in s.holders
  }

  function Apply(s: State, step: Step): State {
    match step
    case Tick(ms) => s.(now := s.now + ms)
    case Acquire(w, u) =>
      s.(locks := s.locks[u := Lock(s.now + TTL, w)], holders := s.holders[w := Hold(u, s.now)])
    case Release(w) =>
      if w in s.holders then s.(locks := s.locks - {s.holders[w].user}, holders := s.holders - {w}) else s
    case FailRelease(w) => s.(holders := s.holders - {w})
  }

  predicate Valid(s: State, steps: seq<Step>, hold: int)
    decreases |steps|
  {
    steps != [] ==> Enabled(s, steps[0], hold) && Valid(Apply(s, steps[0]), steps[1..], hold)
  }

  function Final(s: State, steps: seq<Step>): State
    decreases |steps|
  {
    if steps == [] then s else Final(Apply(s, steps[0]), steps[1..])
  }

  /** At most one worker per user is inside. */
  ghost predicate Exclusive(s: State) {
    forall w, v :: w in s.holders && v in s.holders && s.holders[w].user == s.holders[v].user ==> w == v
  }

  /** The key that a worker's DEL would remove is the one that worker set. */
  ghost predicate ReleasesOwn(s: State) {
    forall w :: w in s.holders ==>
      s.holders[w].user in s.locks && s.locks[s.holders[w].user].owner == w
  }

  ghost predicate Inv(s: State) {
    forall w :: w in s.holders ==>
      var h := s.holders[w];
      h.user in s.locks && s.locks[h.user] == Lock(h.since + TTL, w) && s.now < h.since + TTL
  }

  lemma StepKeepsInv(s: State, step: Step, hold: int)
    requires hold < TTL && Inv(s) && Enabled(s, step, hold)
    ensures Inv(Apply(s, step))
  {
  }

  lemma {:induction false} RunKeepsInv(s: State, steps: seq<Step>, hold: int)
    requires hold < TTL && Inv(s) && Valid(s, steps, hold)
    ensures Inv(Final(s, steps))
    decreases |steps|
  {
    if steps != [] {
      StepKeepsInv(s, steps[0], hold);
      RunKeepsInv(Apply(s, steps[0]), steps[1..], hold);
    }
  }

  ghost predicate AlwaysSafe(hold: int) {
    forall steps :: Valid(START, steps, hold) ==> Exclusive(Final(START, steps)) && ReleasesOwn(Final(START, steps))
  }

  /** Two workers inside: the first one's lease ran out while it was still working. */
  function Overrun(): seq<Step> {
    [Acquire(1, 7), Tick(TTL), Acquire(2, 7)]
  }

  lemma OverrunBreaksTheLock(hold: int)
    requires hold >= TTL
    ensures Valid(START, Overrun(), hold)
    ensures !Exclusive(Final(START, Overrun())) && !ReleasesOwn(Final(START, Overrun()))
  {
    var s1 := Apply(START, Acquire(1, 7));
    var s2 := Apply(s1, Tick(TTL));
    var s3 := Apply(s2, Acquire(2, 7));
    assert Overrun()[1..] == [Tick(TTL), Acquire(2, 7)];
    assert Overrun()[1..][1..] == [Acquire(2, 7)];
    assert Overrun()[1..][1..][1..] == [];
    assert Valid(s2, [Acquire(2, 7)], hold);
    assert Valid(s1, [Tick(TTL), Acquire(2, 7)], hold);
    assert Final(s2, [Acquire(2, 7)]) == Final(s3, []) == s3;
    assert Final(s1, [Tick(TTL), Acquire(2, 7)]) == s3;
    assert Final(START, Overrun()) == s3;
    assert s3.holders[1].user == s3.holders[2].user;
  }

  /** Mutual exclusion and own-key release hold over all runs exactly when no worker stays five minutes inside. */
  lemma LeaseTheorem(hold: int)
    ensures AlwaysSafe(hold) <==> hold < 5 * 60 * 1000
  {
    if hold < TTL {
      forall steps | Valid(START, steps, hold)
        ensures Exclusive(Final(START, steps)) && ReleasesOwn(Final(START, steps))
      {
        RunKeepsInv(START, steps, hold);
      }
    } else {
      OverrunBreaksTheLock(hold);
    }
  }

  // ---------- When the lock is free ----------

  /** What an observer of the workers knows, without looking at any key: the time, who is inside since when, and
      for a user whose last worker left without a release, since when that worker was inside. */
  datatype Log = Log(now: int, inside: map<Worker, Hold>, left: map<User, int>)

  const QUIET := Log(0, map[], map[])

  function Observe(l: Log, step: Step): Log {
    match step
    case Tick(ms) => l.(now := l.now + ms)
    case Acquire(w, u) => Log(l.now, l.inside[w := Hold(u, l.now)], l.left - {u})
    case Release(w) => if w in l.inside then Log(l.now, l.inside - {w}, l.left - {l.inside[w].user}) else l
    case FailRelease(w) =>
      if w in l.inside then Log(l.now, l.inside - {w}, l.left[l.inside[w].user := l.inside[w].since]) else l
  }

  function ObserveAll(l: Log, steps: seq<Step>): Log
    decreases |steps|
  {
    if steps == [] then l else ObserveAll(Observe(l, steps[0]), steps[1..])
  }

  ghost predicate SomeoneInside(l: Log, u: User) {
    exists w :: w in l.inside && l.inside[w].user == u
  }

  /** The last worker for the user left without a release, less than five minutes after it had acquired. */
  predicate LeftBehind(l: Log, u: User) {
    u in l.left && l.now < l.left[u] + 5 * 60 * 1000
  }

  ghost predicate Matches(s: State, l: Log) {
    && Inv(s) && s.now == l.now && s.holders == l.inside
    && (forall u :: !SomeoneInside(l, u) ==>
          if u in l.left then u in s.locks && s.locks[u].expiry == l.left[u] + TTL else u !in s.locks)
    && (forall u :: SomeoneInside(l, u) ==> u !in l.left)
  }

  lemma StepMatches(s: State, l: Log, step: Step, hold: int)
    requires hold < TTL && Matches(s, l) && Enabled(s, step, hold)
    ensures Matches(Apply(s, step), Observe(l, step))
  {
    StepKeepsInv(s, step, hold);
    var s', l' := Apply(s, step), Observe(l, step);
    if step.Acquire? {
      assert l'.inside[step.w].user == step.u;
    }
    forall u ensures SomeoneInside(l', u) ==> u !in l'.left
      ensures !SomeoneInside(l', u) ==>
                if u in l'.left then u in s'.locks && s'.locks[u].expiry == l'.left[u] + TTL else u !in s'.locks {
      InsideAfter(s, l, step, u);
    }
  }

  /** Who is inside for a user after a step. */
  lemma InsideAfter(s: State, l: Log, step: Step, u: User)
    requires Matches(s, l) && (step.Release? || step.FailRelease? ==> step.w in l.inside)
    requires step.Acquire? ==> step.w !in l.inside
    ensures SomeoneInside(Observe(l, step), u) <==>
              match step
              case Tick(_) => SomeoneInside(l, u)
              case Acquire(_, v) => SomeoneInside(l, u) || u == v
              case Release(w) => SomeoneInside(l, u) && l.inside[w].user != u
              case FailRelease(w) => SomeoneInside(l, u) && l.inside[w].user != u
  {
    var l' := Observe(l, step);
    if SomeoneInside(l, u) {
      var w :| w in l.inside && l.inside[w].user == u;
      assert !(step.Release? || step.FailRelease?) || step.w != w ==> w in l'.inside && l'.inside[w].user == u;
    }
    if step.Acquire? {
      assert step.w in l'.inside && l'.inside[step.w].user == step.u;
    }
  }

  lemma {:induction false} RunMatches(s: State, l: Log, steps: seq<Step>, hold: int)
    requires hold < TTL && Matches(s, l) && Valid(s, steps, hold)
    ensures Matches(Final(s, steps), ObserveAll(l, steps))
    decreases |steps|
  {
    if steps != [] {
      StepMatches(s, l, steps[0], hold);
      RunMatches(Apply(s, steps[0]), Observe(l, steps[0]), steps[1..], hold);
    }
  }

  /** Over every run a user is locked exactly while a worker is inside for that user, or for the rest of the five
      minutes of one that left without a release: a release frees the lock at once. */
  lemma LockedIff(steps: seq<Step>, hold: int, u: User)
    requires hold < 5 * 60 * 1000 && Valid(START, steps, hold)
    ensures
      var l := ObserveAll(QUIET, steps);
      !Free(Final(START, steps), u) <==> SomeoneInside(l, u) || LeftBehind(l, u)
  {
    RunMatches(START, QUIET, steps, hold);
    var s, l := Final(START, steps), ObserveAll(QUIET, steps);
    if SomeoneInside(l, u) {
      var w :| w in l.inside && l.inside[w].user == u;
      assert s.locks[u] == Lock(s.holders[w].since + TTL, w);
    }
  }

  /** After a release the next worker gets in at once, whoever it is. */
  lemma ReleaseLetsNextIn(steps: seq<Step>, hold: int, w: Worker, next: Worker)
    requires hold < 5 * 60 * 1000 && Valid(START, steps, hold)
    requires w in Final(START, steps).holders && (next == w || next !in Final(START, steps).holders)
    ensures
      var s := Final(START, steps);
      Enabled(Apply(s, Release(w)), Acquire(next, s.holders[w].user), hold)
  {
    RunMatches(START, QUIET, steps, hold);
    var s, l := Final(START, steps), ObserveAll(QUIET, steps);
    StepMatches(s, l, Release(w), hold);
    InsideAfter(s, l, Release(w), s.holders[w].user);
  }

  // ---------- Without Valkey ----------

  datatype LocalState = LocalState(syncing: set<User>, inside: map<Worker, User>)

  datatype LocalStep = Enter(w: Worker, u: User) | Leave(w: Worker) | ProcessExit

  const LOCAL_START := LocalState({}, map[])

  predicate LocalEnabled(s: LocalState, step: LocalStep) {
    match step
    case Enter(w, u) => w !in s.inside && u !in s.syncing
    case Leave(w) => w in s.inside
    case ProcessExit => true
  }

  function LocalApply(s: LocalState, step: LocalStep): LocalState
    requires LocalEnabled(s, step)
  {
    match step
    case Enter(w, u) => LocalState(s.syncing + {u}, s.inside[w := u])
    case Leave(w) => LocalState(s.syncing - {s.inside[w]}, s.inside - {w})
    case ProcessExit => LOCAL_START
  }

  predicate LocalValid(s: LocalState, steps: seq<LocalStep>)
    decreases |steps|
  {
    steps != [] ==> LocalEnabled(s, steps[0]) && LocalValid(LocalApply(s, steps[0]), steps[1..])
  }

  function LocalFinal(s: LocalState, steps: seq<LocalStep>): LocalState
    requires LocalValid(s, steps)
    decreases |steps|
  {
    if steps == [] then s else LocalFinal(LocalApply(s, steps[0]), steps[1..])
  }

  /** One worker per user, and the map holds exactly the users being synced. */
  ghost predicate LocalExclusive(s: LocalState) {
    && s.syncing == (set w | w in s.inside :: s.inside[w])
    && forall w, v :: w in s.inside && v in s.inside && s.inside[w] == s.inside[v] ==> w == v
  }

  /** The process-local lock excludes over every run, with no assumption about time. */
  lemma {:induction false} LocalTheorem(s: LocalState, steps: seq<LocalStep>)
    requires LocalExclusive(s) && LocalValid(s, steps)
    ensures LocalExclusive(LocalFinal(s, steps))
    decreases |steps|
  {
    if steps != [] {
      var s' := LocalApply(s, steps[0]);
      match steps[0] {
        case Enter(w, u) =>
          assert s'.inside[w] == u && forall x :: x in s.inside ==> s'.inside[x] == s.inside[x];
        case Leave(w) =>
          assert forall x :: x in s.inside && x != w ==> s'.inside[x] == s.inside[x] && s.inside[x] != s.inside[w];
        case ProcessExit =>
      }
      LocalTheorem(s', steps[1..]);
    }
  }

  /** After any run a user can enter exactly when nobody is inside for that user: at once after a leave, and everyone
      after the process is gone. */
  lemma LocalFreeIff(s: LocalState, steps: seq<LocalStep>, w: Worker, u: User)
    requires LocalExclusive(s) && LocalValid(s, steps)
    ensures
      var t := LocalFinal(s, steps);
      && (LocalEnabled(t, Enter(w, u)) <==> w !in t.inside && forall v :: v in t.inside ==> t.inside[v] != u)
      && (w in t.inside ==> LocalEnabled(LocalApply(t, Leave(w)), Enter(w, t.inside[w])))
      && LocalEnabled(LocalApply(t, ProcessExit), Enter(w, u))
  {
    LocalTheorem(s, steps);
  }
}
