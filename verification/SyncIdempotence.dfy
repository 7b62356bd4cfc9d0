/**
  SyncUser without faults: what it records, when the synced-ids cache may be trusted, and
  when a second run has nothing left to do.
 */
module SyncIdempotence {
  import opened Common
  import Ids
  import opened Ledger
  import opened SyncEngine
  import ContestStore
  import UserStore

  // ---------- Runs without faults ----------

  ghost predicate GoogleServes(env: Env) {
    && (forall i, a :: env.inserts(i, a).Served? && env.updates(i, a).Served?)
    && (forall i :: env.writes(i).Done?)
  }

  /** Served, an insert or a conflict with its update leads to the row's write. */
  lemma ReachesWrite(det: Det, s: State, me: int, i: nat, env: Env, contest: string) returns (t: State)
    requires me in s.workers && s.workers[me].phase == Inserting(contest, 1) && GoogleServes(env)
    ensures me in t.workers && t.workers[me] == s.workers[me].(phase := Writing(contest))
    ensures t.ledger == s.ledger && t.users == s.users && t.contests == s.contests && t.calls > s.calls
    ensures Drive(det, s, me, i, env) == Drive(det, t, me, i, env)
  {
    t := Advance(det, s, me, i, env);
    if t.workers[me].phase.Updating? {
      assert Drive(det, s, me, i, env) == Drive(det, t, me, i, env);
      t := Advance(det, t, me, i, env);
    }
  }

  /** What serving one contest leaves. */
  ghost predicate ServedOnce(det: Det, s: State, me: int, contest: string, t: State)
    requires me in s.workers && me in t.workers
  {
    var user := s.workers[me].user;
    && t.ledger == InsertRow(s, user, contest, det.Id(user, contest)).ledger
    && t.workers[me].phase.Idle? && t.calls > s.calls
    && (t.workers[me].anySynced <==> s.workers[me].anySynced || RowAllowed(s, user, contest, det.Id(user, contest)))
  }

  lemma WriteServed(det: Det, s: State, me: int, i: nat, env: Env, contest: string)
    requires me in s.workers && s.workers[me].phase == Writing(contest) && env.writes(i).Done?
    ensures
      var t := Drive(det, s, me, i, env);
      var user := s.workers[me].user;
      && t.ledger == InsertRow(s, user, contest, det.Id(user, contest)).ledger
      && t.workers[me].phase.Idle? && t.calls == s.calls
      && (t.workers[me].anySynced <==> s.workers[me].anySynced || RowAllowed(s, user, contest, det.Id(user, contest)))
  {
    var t := Advance(det, s, me, i, env);
    assert Drive(det, t, me, i, env) == t;
  }

  lemma DriveServed(det: Det, s: State, me: int, i: nat, env: Env, contest: string)
    requires me in s.workers && s.workers[me].phase.Idle? && GoogleServes(env)
    ensures ServedOnce(det, s, me, contest, Drive(det, Apply(det, s, Pick(me, contest)), me, i, env))
  {
    var user := s.workers[me].user;
    var s1 := ReachesWrite(det, Apply(det, s, Pick(me, contest)), me, i, env, contest);
    WriteServed(det, s1, me, i, env, contest);
    SameTablesSameRow(s, s1, user, contest, det.Id(user, contest));
  }

  lemma SameTablesSameRow(s: State, t: State, user: int, contest: string, event: string)
    requires s.ledger == t.ledger && s.users == t.users && s.contests == t.contests
    ensures InsertRow(s, user, contest, event).ledger == InsertRow(t, user, contest, event).ledger
    ensures RowAllowed(s, user, contest, event) == RowAllowed(t, user, contest, event)
  {
  }

  /** The ledger after recording, in order, the contests not taken as synced. */
  function Recorded(det: Det, s: State, user: int, contests: seq<ContestStore.Contest>, synced: set<string>): (t: State)
    ensures t == s.(ledger := t.ledger)
  {
    if contests == [] then s
    else
      var n := |contests| - 1;
      var s1 := Recorded(det, s, user, contests[..n], synced);
      if contests[n].id in synced then s1 else InsertRow(s1, user, contests[n].id, det.Id(user, contests[n].id))
  }

  ghost predicate AllIn(contests: seq<ContestStore.Contest>, ids: set<string>) {
    forall i :: 0 <= i < |contests| ==> contests[i].id in ids
  }

  lemma AllInSnoc(contests: seq<ContestStore.Contest>, ids: set<string>)
    requires contests != []
    ensures AllIn(contests, ids) <==> AllIn(contests[..|contests| - 1], ids) && contests[|contests| - 1].id in ids
  {
  }

  /** Served throughout, the loop records what Recorded says and calls Google exactly when a contest is not taken as
    synced. */
  lemma {:induction false} SyncAllServed(det: Det, s: State, me: int, contests: seq<ContestStore.Contest>,
                                         synced: set<string>, env: Env)
    requires me in s.workers && s.workers[me].phase.Idle? && GoogleServes(env)
    ensures
      var t := SyncAll(det, s, me, contests, synced, env);
      && t.ledger == Recorded(det, s, s.workers[me].user, contests, synced).ledger
      && t.workers[me].phase.Idle?
      && (t.calls == s.calls <==> AllIn(contests, synced))
  {
    if contests != [] {
      var n, user := |contests| - 1, s.workers[me].user;
      SyncAllServed(det, s, me, contests[..n], synced, env);
      AllInSnoc(contests, synced);
      var s1 := SyncAll(det, s, me, contests[..n], synced, env);
      if contests[n].id !in synced {
        DriveServed(det, s1, me, n, env, contests[n].id);
        SameTablesSameRow(s1, Recorded(det, s, user, contests[..n], synced), user, contests[n].id,
                          det.Id(user, contests[n].id));
      }
    }
  }

  /** With every considered contest stored, new rows are reported exactly when there was something to record. */
  lemma {:induction false} AnySyncedExact(det: Det, s: State, me: int, contests: seq<ContestStore.Contest>,
                                          synced: set<string>, env: Env)
    requires me in s.workers && s.workers[me].phase.Idle? && GoogleServes(env)
    requires s.workers[me].user in s.users && AllIn(contests, s.contests)
    ensures SyncAll(det, s, me, contests, synced, env).workers[me].anySynced <==>
            s.workers[me].anySynced || !AllIn(contests, synced)
  {
    if contests != [] {
      var n := |contests| - 1;
      AllInSnoc(contests, synced);
      AllInSnoc(contests, s.contests);
      SyncAllServed(det, s, me, contests[..n], synced, env);
      AnySyncedExact(det, s, me, contests[..n], synced, env);
      if contests[n].id !in synced {
        DriveServed(det, SyncAll(det, s, me, contests[..n], synced, env), me, n, env, contests[n].id);
      }
    }
  }

  // ---------- The synced-ids cache ----------

  lemma {:induction false} RecordedKeeps(det: Det, s: State, user: int, contests: seq<ContestStore.Contest>,
                                         synced: set<string>, key: (int, string))
    requires key in s.ledger
    ensures key in Recorded(det, s, user, contests, synced).ledger
  {
    if contests != [] {
      RecordedKeeps(det, s, user, contests[..|contests| - 1], synced, key);
    }
  }

  /** Ids that are in the ledger anyway make no difference to what gets recorded. */
  lemma {:induction false} RecordedLow(det: Det, s: State, user: int, contests: seq<ContestStore.Contest>,
                                       synced: set<string>)
    requires forall c :: c in synced ==> (user, c) in s.ledger
    ensures Recorded(det, s, user, contests, synced).ledger == Recorded(det, s, user, contests, {}).ledger
  {
    if contests != [] {
      var n := |contests| - 1;
      RecordedLow(det, s, user, contests[..n], synced);
      if contests[n].id in synced {
        RecordedKeeps(det, s, user, contests[..n], {}, (user, contests[n].id));
      }
    }
  }

  /** No two of these contests share an event id for this user. */
  ghost predicate Injective(det: Det, user: int, ids: set<string>) {
    forall c, c' :: c in ids && c' in ids && det.Id(user, c) == det.Id(user, c') ==> c == c'
  }

  ghost predicate LedgerWithin(s: State, user: int, ids: set<string>) {
    forall c :: (user, c) in s.ledger ==> c in ids
  }

  ghost predicate UserRowsOk(det: Det, s: State, user: int) {
    forall c :: (user, c) in s.ledger ==> s.ledger[(user, c)] == det.Id(user, c)
  }

  /** What a fault-free run records: every stored contest not taken as synced. */
  lemma {:induction false} RecordedExact(det: Det, s: State, user: int, contests: seq<ContestStore.Contest>,
                                         synced: set<string>, ids: set<string>)
    requires user in s.users && UserRowsOk(det, s, user)
    requires Injective(det, user, ids) && LedgerWithin(s, user, ids) && AllIn(contests, ids)
    ensures
      var t := Recorded(det, s, user, contests, synced);
      && UserRowsOk(det, t, user) && LedgerWithin(t, user, ids)
      && (forall key :: key in t.ledger <==>
            key in s.ledger || (key.0 == user && HasContest(contests, key.1) && key.1 !in synced
              && key.1 in s.contests))
      && (forall key :: key in s.ledger ==> t.ledger[key] == s.ledger[key])
  {
    if contests != [] {
      var n := |contests| - 1;
      RecordedExact(det, s, user, contests[..n], synced, ids);
      RowOnceExact(det, Recorded(det, s, user, contests[..n], synced), user, contests[n].id, ids);
      forall c ensures HasContest(contests, c) <==> HasContest(contests[..n], c) || contests[n].id == c {
        HasContestSnoc(contests, c);
      }
    }
  }

  lemma RowOnceExact(det: Det, s: State, user: int, c: string, ids: set<string>)
    requires user in s.users && UserRowsOk(det, s, user)
    requires Injective(det, user, ids) && LedgerWithin(s, user, ids) && c in ids
    ensures
      var t := InsertRow(s, user, c, det.Id(user, c)).ledger;
      && (c in s.contests ==> t == s.ledger[(user, c) := det.Id(user, c)])
      && (c !in s.contests && (user, c) !in s.ledger ==> t == s.ledger)
      && (c !in s.contests && (user, c) in s.ledger ==> t == s.ledger)
  {
    assert RowConflict(s, user, c, det.Id(user, c)) <==> (user, c) in s.ledger by {
      if k :| k in s.ledger && k.0 == user && s.ledger[k] == det.Id(user, c) {
        assert k == (user, k.1);
      }
    }
    if (user, c) in s.ledger {
      assert s.ledger[(user, c) := det.Id(user, c)] == s.ledger;
    }
  }

  /** Taking ids as synced leaves the ledger a direct run leaves exactly when every
      considered and stored contest among them is in the ledger. */
  lemma CacheHarmlessIff(det: Det, s: State, user: int, contests: seq<ContestStore.Contest>, synced: set<string>,
                         ids: set<string>)
    requires user in s.users && UserRowsOk(det, s, user)
    requires Injective(det, user, ids) && LedgerWithin(s, user, ids) && AllIn(contests, ids)
    ensures Recorded(det, s, user, contests, synced).ledger == Recorded(det, s, user, contests, {}).ledger <==>
              forall c :: c in synced && HasContest(contests, c) && c in s.contests ==> (user, c) in s.ledger
  {
    var a := Recorded(det, s, user, contests, synced).ledger;
    var b := Recorded(det, s, user, contests, {}).ledger;
    RecordedExact(det, s, user, contests, synced, ids);
    RecordedExact(det, s, user, contests, {}, ids);
    if forall c :: c in synced && HasContest(contests, c) && c in s.contests ==> (user, c) in s.ledger {
      forall key ensures key in a <==> key in b {
      }
      forall key | key in a ensures a[key] == b[key] {
        assert key.0 == user ==> key == (user, key.1);
      }
      assert a == b;
    } else {
      var c :| c in synced && HasContest(contests, c) && c in s.contests && (user, c) !in s.ledger;
      assert (user, c) in b && (user, c) !in a;
    }
  }

  // ---------- Whole runs ----------

  /** Every call is served, every statement done, every cache operation succeeds. */
  ghost predicate FaultFree(env: Env) {
    && env.lock && env.getUser && env.readUser && env.setUser && env.auth && env.primary.Good?
    && env.creation.Created? && env.creation.id != "" && env.creation.id != "primary"
    && env.calendarDb.Done? && env.calendarDel && env.forgetDb.Done?
    && env.joinOk && (forall i :: env.rowDeletes(i).Done?)
    && env.idsOk && env.setSynced && env.delSynced
    && (forall i :: env.get(i) && env.put(i)) && env.queryOk
    && GoogleServes(env)
  }

  /** The contests a run considers. */
  function Considered(db: Listings, e: Engine, platforms: seq<string>, env: Env): seq<ContestStore.Contest> {
    var contests := Contests(db, e, platforms, env).1;
    if contests.None? then [] else contests.value
  }

  lemma SameConsidered(db: Listings, e: Engine, e': Engine, platforms: seq<string>, env: Env)
    requires e.store == e'.store
    ensures Considered(db, e, platforms, env) == Considered(db, e', platforms, env)
  {
  }

  /** The state of the loop: after the deselection, before the assembly. */
  function Prepared(det: Det, db: Listings, e: Engine, user: int, platforms: seq<string>, calendar: string, me: int,
                    env: Env): Engine
    requires me !in e.world.workers
  {
    Deselect(det, db, e.(world := Apply(det, e.world, Start(me, user, calendar))), user, platforms, me, env)
  }

  /** The cached ids are rows of selected platforms. */
  ghost predicate Low(e: Engine, user: int, platforms: seq<string>) {
    user in e.synced ==>
      forall c :: c in e.synced[user] ==>
        (user, c) in e.world.ledger && c in e.store.rows && e.store.rows[c].platform in platforms
  }

  lemma SyncUnfolds(det: Det, db: Listings, e: Engine, user: int, me: int, env: Env)
    requires me !in e.world.workers && env.lock && env.auth && env.primary.Good? && env.creation.Created?
    requires Load(e, user, env).1.Some?
    ensures
      var (e1, u) := Load(e, user, env);
      var (e2, calendar) := ChooseCalendar(det, e1, user, u.value, env);
      && me !in e2.world.workers && calendar.Some?
      && Sync(det, db, e, user, me, env) == Reconcile(det, db, e2, user, u.value.platforms, calendar.value, me, env)
  {
  }

  lemma ChooseKeepsTables(det: Det, e: Engine, user: int, u: UserStore.CachedUser, env: Env)
    ensures
      var e2 := ChooseCalendar(det, e, user, u, env).0;
      e2.world == e.world.(calls := e2.world.calls) && e2.store == e.store && e2.synced == e.synced
  {
  }

  /** Without faults a known user gets as far as the reconciliation, with a calendar to write to. */
  lemma SyncIsReconcile(det: Det, db: Listings, e: Engine, user: int, me: int, env: Env)
    returns (e2: Engine, u: UserStore.CachedUser, calendar: string)
    requires SyncEngine.Inv(det, e) && me !in e.world.workers && FaultFree(env) && Load(e, user, env).1.Some?
    ensures u == Load(e, user, env).1.value && e2 == ChooseCalendar(det, Load(e, user, env).0, user, u, env).0
    ensures SyncEngine.Inv(det, e2) && me !in e2.world.workers
    ensures e2.world == e.world.(calls := e2.world.calls) && e2.store == e.store && e2.synced == e.synced
    ensures Sync(det, db, e, user, me, env) == Reconcile(det, db, e2, user, u.platforms, calendar, me, env)
  {
    var (e1, found) := Load(e, user, env);
    u := found.value;
    LoadFollows(det, e, user, env);
    ChooseFollows(det, e1, user, u, env);
    ChooseKeepsTables(det, e1, user, u, env);
    SyncUnfolds(det, db, e, user, me, env);
    e2 := ChooseCalendar(det, e1, user, u, env).0;
    calendar := ChooseCalendar(det, e1, user, u, env).1.value;
  }

  lemma PreparedFacts(det: Det, db: Listings, e: Engine, user: int, platforms: seq<string>, calendar: string, me: int,
                      env: Env)
    requires SyncEngine.Inv(det, e) && me !in e.world.workers && Truthful(db) && FaultFree(env)
    ensures
      var p := Prepared(det, db, e, user, platforms, calendar, me, env);
      && SyncEngine.Inv(det, p) && p == e.(world := p.world)
      && me in p.world.workers && p.world.workers[me] == Worker(user, calendar, Idle, false)
      && (forall key :: key in p.world.ledger <==> key in e.world.ledger && (key.0 == user ==>
        e.store.rows[key.1].platform in platforms))
      && (forall key :: key in p.world.ledger ==> p.world.ledger[key] == e.world.ledger[key])
  {
    var e1 := e.(world := Apply(det, e.world, Start(me, user, calendar)));
    StepKeepsInv(det, e.world, Start(me, user, calendar));
    DeselectFollows(det, db, e1, user, platforms, me, env);
    forall key ensures
        var t := Prepared(det, db, e, user, platforms, calendar, me, env).world.ledger;
        && (key in t <==> key in e.world.ledger && (key.0 == user ==> e.store.rows[key.1].platform in platforms))
        && (key in t ==> t[key] == e.world.ledger[key]) {
      DeselectExact(det, db, e1, user, platforms, me, env, key);
    }
  }

  /** What the insertions without faults leave. */
  ghost predicate Settled(det: Det, db: Listings, p: Engine, user: int, platforms: seq<string>, synced: set<string>,
                          me: int, env: Env, r: Engine)
    requires AtRest(p.world, me)
  {
    var s := SyncAll(det, p.world, me, Considered(db, p, platforms, env), synced, env);
    && r.users == p.users && r.store == Contests(db, p, platforms, env).0.store
    && r.world == s.(workers := s.workers - {me})
    && r.synced == if s.workers[me].anySynced && env.valkey then p.synced - {user} else p.synced
  }

  lemma InsertionsServed(det: Det, db: Listings, p: Engine, user: int, platforms: seq<string>, synced: set<string>,
                         me: int, env: Env)
    requires me in p.world.workers && p.world.workers[me].phase.Idle? && env.queryOk && env.delSynced
             && GoogleServes(env)
    ensures
      var (r, err) := Insertions(det, db, p, user, platforms, synced, me, env);
      !err && Settled(det, db, p, user, platforms, synced, me, env, r)
  {
    SyncAllServed(det, p.world, me, Considered(db, p, platforms, env), synced, env);
  }

  /** What a reconciliation without faults leaves. */
  lemma ReconcileServed(det: Det, db: Listings, e: Engine, user: int, platforms: seq<string>, calendar: string,
                        me: int, env: Env)
    requires SyncEngine.Inv(det, e) && me !in e.world.workers && Truthful(db) && FaultFree(env) && platforms != []
    ensures
      var p := Prepared(det, db, e, user, platforms, calendar, me, env);
      var (p', synced) := ReadSynced(db, p, user, env);
      var (r, err) := Reconcile(det, db, e, user, platforms, calendar, me, env);
      AtRest(p'.world, me) && !err && Settled(det, db, p', user, platforms, synced, me, env, r)
  {
    PreparedFacts(det, db, e, user, platforms, calendar, me, env);
    var p := Prepared(det, db, e, user, platforms, calendar, me, env);
    var (p', synced) := ReadSynced(db, p, user, env);
    InsertionsServed(det, db, p', user, platforms, synced, me, env);
  }

  lemma SameStoreSameContests(db: Listings, e: Engine, e': Engine, platforms: seq<string>, env: Env)
    requires e.store == e'.store && env.queryOk
    ensures Contests(db, e, platforms, env).1 == Contests(db, e', platforms, env).1
    ensures Contests(db, e, platforms, env).1.Some?
    ensures Contests(db, e', platforms, env).0 == e'.(store := Contests(db, e, platforms, env).0.store)
  {
  }

  // ---------- A stale-low cache is harmless ----------

  lemma {:induction false} SameTablesSameRecord(det: Det, s: State, t: State, user: int,
                                                contests: seq<ContestStore.Contest>, synced: set<string>)
    requires s.ledger == t.ledger && s.users == t.users && s.contests == t.contests
    ensures Recorded(det, s, user, contests, synced).ledger == Recorded(det, t, user, contests, synced).ledger
  {
    if contests != [] {
      var n := |contests| - 1;
      SameTablesSameRecord(det, s, t, user, contests[..n], synced);
      SameTablesSameRow(Recorded(det, s, user, contests[..n], synced), Recorded(det, t, user, contests[..n], synced),
                        user, contests[n].id, det.Id(user, contests[n].id));
    }
  }

  /** The ids taken as synced are all in the ledger, whether they came from a low cache or from the ledger. */
  lemma SyncedInLedger(det: Det, db: Listings, e: Engine, user: int, platforms: seq<string>, calendar: string, me: int,
                       env: Env)
    requires SyncEngine.Inv(det, e) && me !in e.world.workers && Truthful(db) && FaultFree(env)
             && Low(e, user, platforms)
    ensures
      var p := Prepared(det, db, e, user, platforms, calendar, me, env);
      forall c :: c in ReadSynced(db, p, user, env).1 ==> (user, c) in p.world.ledger
  {
    PreparedFacts(det, db, e, user, platforms, calendar, me, env);
  }

  /** The ledger a reconciliation leaves: what the loop records on the prepared tables. */
  lemma LedgerOfReconcile(det: Det, db: Listings, e: Engine, user: int, platforms: seq<string>, calendar: string,
                          me: int, env: Env)
    requires SyncEngine.Inv(det, e) && me !in e.world.workers && Truthful(db) && FaultFree(env) && platforms != []
    ensures
      var p := Prepared(det, db, e, user, platforms, calendar, me, env);
      Reconcile(det, db, e, user, platforms, calendar, me, env).0.world.ledger ==
        Recorded(det, p.world, user, Considered(db, e, platforms, env), ReadSynced(db, p, user, env).1).ledger
  {
    var p := Prepared(det, db, e, user, platforms, calendar, me, env);
    var (p', synced) := ReadSynced(db, p, user, env);
    PreparedFacts(det, db, e, user, platforms, calendar, me, env);
    ReconcileServed(det, db, e, user, platforms, calendar, me, env);
    SameStoreSameContests(db, e, p', platforms, env);
    SyncAllServed(det, p.world, me, Considered(db, e, platforms, env), synced, env);
  }

  /** The ledger a reconciliation leaves does not depend on a low cache. */
  lemma ReconcileLedger(det: Det, db: Listings, e: Engine, user: int, platforms: seq<string>, calendar: string,
                        me: int, env: Env)
    requires SyncEngine.Inv(det, e) && me !in e.world.workers && Truthful(db) && FaultFree(env)
             && Low(e, user, platforms)
    requires platforms != []
    ensures
      var p := Prepared(det, db, e, user, platforms, calendar, me, env);
      Reconcile(det, db, e, user, platforms, calendar, me, env).0.world.ledger ==
        Recorded(det, p.world, user, Considered(db, e, platforms, env), {}).ledger
  {
    var p := Prepared(det, db, e, user, platforms, calendar, me, env);
    LedgerOfReconcile(det, db, e, user, platforms, calendar, me, env);
    SyncedInLedger(det, db, e, user, platforms, calendar, me, env);
    RecordedLow(det, p.world, user, Considered(db, e, platforms, env), ReadSynced(db, p, user, env).1);
  }

  /** The run that asks the ledger rather than the cache. */
  function Direct(env: Env): Env {
    env.(getSynced := false)
  }

  lemma DirectDiffersOnlyInSynced(det: Det, db: Listings, e: Engine, user: int, u: UserStore.CachedUser,
                                  platforms: seq<string>, env: Env)
    requires FaultFree(env)
    ensures FaultFree(Direct(env)) && Load(e, user, Direct(env)) == Load(e, user, env)
    ensures ChooseCalendar(det, e, user, u, Direct(env)) == ChooseCalendar(det, e, user, u, env)
    ensures Considered(db, e, platforms, Direct(env)) == Considered(db, e, platforms, env)
  {
  }

  lemma SamePreparedLedger(det: Det, db: Listings, e: Engine, user: int, platforms: seq<string>, calendar: string,
                           me: int, env: Env, env': Env)
    requires SyncEngine.Inv(det, e) && me !in e.world.workers && Truthful(db) && FaultFree(env) && FaultFree(env')
    ensures
      var p := Prepared(det, db, e, user, platforms, calendar, me, env);
      var q := Prepared(det, db, e, user, platforms, calendar, me, env');
      p.world.ledger == q.world.ledger && p.world.users == q.world.users && p.world.contests == q.world.contests
  {
    PreparedFacts(det, db, e, user, platforms, calendar, me, env);
    PreparedFacts(det, db, e, user, platforms, calendar, me, env');
  }

  lemma NothingSelected(det: Det, db: Listings, e: Engine, user: int, calendar: string, me: int, env: Env)
    requires me !in e.world.workers
    ensures
      var p := Prepared(det, db, e, user, [], calendar, me, env);
      var (r, err) := Reconcile(det, db, e, user, [], calendar, me, env);
      !err && r == Leave(det, ReadSynced(db, p, user, env).0, me) && r.world == p.world.(workers :=
        p.world.workers - {me})
  {
  }

  lemma ReconcileTrustsLowCache(det: Det, db: Listings, e: Engine, user: int, platforms: seq<string>, calendar: string,
                                me: int, env: Env)
    requires SyncEngine.Inv(det, e) && me !in e.world.workers && Truthful(db)
    requires FaultFree(env) && FaultFree(Direct(env)) && Low(e, user, platforms)
    requires Considered(db, e, platforms, Direct(env)) == Considered(db, e, platforms, env)
    ensures Reconcile(det, db, e, user, platforms, calendar, me, env).0.world.ledger ==
              Reconcile(det, db, e, user, platforms, calendar, me, Direct(env)).0.world.ledger
  {
    SamePreparedLedger(det, db, e, user, platforms, calendar, me, env, Direct(env));
    if platforms == [] {
      NothingSelected(det, db, e, user, calendar, me, env);
      NothingSelected(det, db, e, user, calendar, me, Direct(env));
    } else {
      ReconcileLedger(det, db, e, user, platforms, calendar, me, env);
      ReconcileLedger(det, db, e, user, platforms, calendar, me, Direct(env));
      SameTablesSameRecord(det, Prepared(det, db, e, user, platforms, calendar, me, env).world,
                           Prepared(det, db, e, user, platforms, calendar, me, Direct(env)).world,
                           user, Considered(db, e, platforms, env), {});
    }
  }

  /** If the cached ids are a subset of the rows the deselection leaves, a run that trusts
      them ends with the ledger of a run that reads the ledger itself. */
  lemma StaleLowIsHarmless(det: Det, db: Listings, e: Engine, user: int, me: int, env: Env)
    requires SyncEngine.Inv(det, e) && me !in e.world.workers && Truthful(db) && FaultFree(env)
    requires Load(e, user, env).1.Some? && Low(e, user, Load(e, user, env).1.value.platforms)
    ensures Sync(det, db, e, user, me, env).0.world.ledger == Sync(det, db, e, user, me, Direct(env)).0.world.ledger
  {
    var (e1, u) := Load(e, user, env);
    DirectDiffersOnlyInSynced(det, db, e, user, u.value, u.value.platforms, env);
    DirectDiffersOnlyInSynced(det, db, e1, user, u.value, u.value.platforms, env);
    SyncUnfolds(det, db, e, user, me, env);
    SyncUnfolds(det, db, e, user, me, Direct(env));
    LoadFollows(det, e, user, env);
    ChooseFollows(det, e1, user, u.value, env);
    ChooseKeepsTables(det, e1, user, u.value, env);
    var (e2, calendar) := ChooseCalendar(det, e1, user, u.value, env);
    DirectDiffersOnlyInSynced(det, db, e2, user, u.value, u.value.platforms, env);
    ReconcileTrustsLowCache(det, db, e2, user, u.value.platforms, calendar.value, me, env);
  }

  // ---------- When trusting the cache is harmless, for whole runs ----------

  /** A cached id the run reads and considers. */
  ghost predicate TrustedId(db: Listings, e: Engine, user: int, platforms: seq<string>, env: Env, c: string) {
    && env.valkey && env.getSynced && user in e.synced && c in e.synced[user]
    && HasContest(Considered(db, e, platforms, env), c)
  }

  /** Every cached id that is read, considered and stored is in the ledger. */
  ghost predicate Trustworthy(db: Listings, e: Engine, user: int, platforms: seq<string>, env: Env) {
    forall c :: TrustedId(db, e, user, platforms, env, c) && c in e.store.rows ==> (user, c) in e.world.ledger
  }

  /** A considered contest that is stored is of a selected platform. */
  lemma ConsideredIsSelected(db: Listings, e: Engine, platforms: seq<string>, env: Env, c: string)
    requires ContestStore.Inv(e.store) && Truthful(db) && env.queryOk
    requires HasContest(Considered(db, e, platforms, env), c) && c in e.store.rows
    ensures e.store.rows[c].platform in platforms
  {
    var contests := Considered(db, e, platforms, env);
    SameStoreSameContests(db, e, e, platforms, env);
    ContestsSelected(db, e, platforms, env);
    var i :| 0 <= i < |contests| && contests[i].id == c;
    ContestStore.SameIdSameContest(contests[i], e.store.rows[c]);
  }

  /** The ledger of a reconciliation that asks the ledger for the synced ids. */
  lemma DirectLedger(det: Det, db: Listings, e: Engine, user: int, platforms: seq<string>, calendar: string, me: int,
                     env: Env)
    requires SyncEngine.Inv(det, e) && me !in e.world.workers && Truthful(db) && FaultFree(env) && !env.getSynced
    requires platforms != []
    ensures
      var p := Prepared(det, db, e, user, platforms, calendar, me, env);
      Reconcile(det, db, e, user, platforms, calendar, me, env).0.world.ledger ==
        Recorded(det, p.world, user, Considered(db, e, platforms, env), {}).ledger
  {
    var p := Prepared(det, db, e, user, platforms, calendar, me, env);
    LedgerOfReconcile(det, db, e, user, platforms, calendar, me, env);
    RecordedLow(det, p.world, user, Considered(db, e, platforms, env), ReadSynced(db, p, user, env).1);
  }

  /** On the prepared tables: the ids taken as synced are harmless exactly when the cache is trustworthy. */
  lemma PreparedTrust(det: Det, db: Listings, e: Engine, user: int, platforms: seq<string>, calendar: string, me: int,
                      env: Env)
    requires SyncEngine.Inv(det, e) && me !in e.world.workers && Truthful(db) && FaultFree(env)
    ensures
      var p := Prepared(det, db, e, user, platforms, calendar, me, env);
      var synced := ReadSynced(db, p, user, env).1;
      (forall c :: c in synced && HasContest(Considered(db, e, platforms, env), c) && c in p.world.contests ==>
        (user, c) in p.world.ledger)
        <==> Trustworthy(db, e, user, platforms, env)
  {
    var p := Prepared(det, db, e, user, platforms, calendar, me, env);
    var synced := ReadSynced(db, p, user, env).1;
    PreparedFacts(det, db, e, user, platforms, calendar, me, env);
    var hit := env.valkey && env.getSynced && user in e.synced;
    forall c | c in synced && !hit ensures (user, c) in p.world.ledger {
    }
    forall c | HasContest(Considered(db, e, platforms, env), c) && c in e.store.rows
      ensures (user, c) in p.world.ledger <==> (user, c) in e.world.ledger {
      ConsideredIsSelected(db, e, platforms, env, c);
    }
    assert hit ==> forall c :: c in synced <==> c in e.synced[user];
  }

  lemma SelectedTrust(det: Det, db: Listings, e: Engine, user: int, platforms: seq<string>, calendar: string, me: int,
                      env: Env, ids: set<string>)
    requires SyncEngine.Inv(det, e) && me !in e.world.workers && Truthful(db) && platforms != []
    requires FaultFree(env) && FaultFree(Direct(env)) && user in e.world.users
    requires Considered(db, e, platforms, Direct(env)) == Considered(db, e, platforms, env)
    requires Injective(det, user, ids) && LedgerWithin(e.world, user, ids)
             && AllIn(Considered(db, e, platforms, env), ids)
    ensures Reconcile(det, db, e, user, platforms, calendar, me, env).0.world.ledger ==
              Reconcile(det, db, e, user, platforms, calendar, me, Direct(env)).0.world.ledger
            <==> Trustworthy(db, e, user, platforms, env)
  {
    var contests := Considered(db, e, platforms, env);
    var p := Prepared(det, db, e, user, platforms, calendar, me, env);
    var q := Prepared(det, db, e, user, platforms, calendar, me, Direct(env));
    SamePreparedLedger(det, db, e, user, platforms, calendar, me, env, Direct(env));
    PreparedFacts(det, db, e, user, platforms, calendar, me, env);
    LedgerOfReconcile(det, db, e, user, platforms, calendar, me, env);
    DirectLedger(det, db, e, user, platforms, calendar, me, Direct(env));
    SameTablesSameRecord(det, p.world, q.world, user, contests, {});
    CacheHarmlessIff(det, p.world, user, contests, ReadSynced(db, p, user, env).1, ids);
    PreparedTrust(det, db, e, user, platforms, calendar, me, env);
  }

  lemma ReconcileTrust(det: Det, db: Listings, e: Engine, user: int, platforms: seq<string>, calendar: string, me: int,
                       env: Env, ids: set<string>)
    requires SyncEngine.Inv(det, e) && me !in e.world.workers && Truthful(db)
    requires FaultFree(env) && FaultFree(Direct(env)) && user in e.world.users
    requires Considered(db, e, platforms, Direct(env)) == Considered(db, e, platforms, env)
    requires Injective(det, user, ids) && LedgerWithin(e.world, user, ids)
             && AllIn(Considered(db, e, platforms, env), ids)
    ensures Reconcile(det, db, e, user, platforms, calendar, me, env).0.world.ledger ==
              Reconcile(det, db, e, user, platforms, calendar, me, Direct(env)).0.world.ledger
            <==> Trustworthy(db, e, user, platforms, env)
  {
    if platforms == [] {
      SamePreparedLedger(det, db, e, user, [], calendar, me, env, Direct(env));
      NothingSelected(det, db, e, user, calendar, me, env);
      NothingSelected(det, db, e, user, calendar, me, Direct(env));
      NothingConsidered(db, e, env);
    } else {
      SelectedTrust(det, db, e, user, platforms, calendar, me, env, ids);
    }
  }

  /** Trusting the synced-ids cache leaves the ledger of a run that reads the ledger itself if and
      only if every cached id that is read, considered and stored is in the ledger. */
  lemma TrustIsHarmlessIff(det: Det, db: Listings, e: Engine, user: int, me: int, env: Env, ids: set<string>)
    requires Calm(det, db, e, user, me, env)
    requires Injective(det, user, ids) && LedgerWithin(e.world, user, ids)
    requires AllIn(Considered(db, e, Load(e, user, env).1.value.platforms, env), ids)
    ensures Sync(det, db, e, user, me, env).0.world.ledger == Sync(det, db, e, user, me, Direct(env)).0.world.ledger
            <==> Trustworthy(db, e, user, Load(e, user, env).1.value.platforms, env)
  {
    var (e1, u) := Load(e, user, env);
    var platforms := u.value.platforms;
    DirectDiffersOnlyInSynced(det, db, e, user, u.value, platforms, env);
    DirectDiffersOnlyInSynced(det, db, e1, user, u.value, platforms, env);
    SyncUnfolds(det, db, e, user, me, env);
    SyncUnfolds(det, db, e, user, me, Direct(env));
    LoadFollows(det, e, user, env);
    ChooseFollows(det, e1, user, u.value, env);
    ChooseKeepsTables(det, e1, user, u.value, env);
    LoadTouchesOnlyUsers(e, user, env);
    var (e2, calendar) := ChooseCalendar(det, e1, user, u.value, env);
    DirectDiffersOnlyInSynced(det, db, e2, user, u.value, platforms, env);
    SameStoreSameContests(db, e, e2, platforms, env);
    SameTrust(db, e, e2, user, platforms, env);
    ReconcileTrust(det, db, e2, user, platforms, calendar.value, me, env, ids);
  }

  lemma SameTrust(db: Listings, e: Engine, e': Engine, user: int, platforms: seq<string>, env: Env)
    requires e.store == e'.store && e.synced == e'.synced && e.world.ledger == e'.world.ledger
    requires Considered(db, e, platforms, env) == Considered(db, e', platforms, env)
    ensures Trustworthy(db, e, user, platforms, env) <==> Trustworthy(db, e', user, platforms, env)
  {
    assert forall c :: TrustedId(db, e, user, platforms, env, c) <==> TrustedId(db, e', user, platforms, env, c);
  }

  lemma NothingConsidered(db: Listings, e: Engine, env: Env)
    requires ContestStore.Inv(e.store) && Truthful(db) && env.queryOk
    ensures forall c :: !HasContest(Considered(db, e, [], env), c)
  {
    SameStoreSameContests(db, e, e, [], env);
    ContestsSelected(db, e, [], env);
  }

  // ---------- The second run ----------

  /** What the next run will load: the same platforms, and a calendar where one is wanted. */
  ghost predicate LoadsLike(r: Engine, user: int, env: Env, u: UserStore.CachedUser) {
    var v := Load(r, user, env).1;
    && v.Some? && v.value.platforms == u.platforms && v.value.useDedicated == u.useDedicated
    && (u.useDedicated ==> HasCalendar(v.value))
  }

  /** A created calendar is read back from the row. */
  lemma LoadAfterCreation(e: Engine, user: int, env: Env, env2: Env, r: Engine)
    requires UserStore.Inv(e.users) && FaultFree(env) && FaultFree(env2)
    requires user in e.users.rows && user !in e.users.stale && Load(e, user, env).1.value.useDedicated
    requires r.users == UserStore.SetCalendar(Load(e, user, env).0.users, user, env.creation.id,
                                              env.calendarDb, env.calendarDel)
    ensures LoadsLike(r, user, env2, Load(e, user, env).1.value)
  {
    assert UserStore.Agreement(e.users);
  }

  lemma LoadUnchanged(e: Engine, user: int, env: Env, env2: Env, r: Engine)
    requires FaultFree(env) && FaultFree(env2) && env.valkey == env2.valkey && user in e.users.rows
    requires r.users == Load(e, user, env).0.users
    ensures Load(r, user, env2).1 == Load(e, user, env).1
  {
  }

  lemma LoadAgain(det: Det, e: Engine, user: int, env: Env, env2: Env, r: Engine)
    requires UserStore.Inv(e.users) && FaultFree(env) && FaultFree(env2) && env.valkey == env2.valkey
    requires user in e.users.rows && user !in e.users.stale
    requires r.users == ChooseCalendar(det, Load(e, user, env).0, user, Load(e, user, env).1.value, env).0.users
    ensures LoadsLike(r, user, env2, Load(e, user, env).1.value)
  {
    var u := Load(e, user, env).1.value;
    if u.useDedicated && !HasCalendar(u) {
      LoadAfterCreation(e, user, env, env2, r);
    } else {
      LoadUnchanged(e, user, env, env2, r);
    }
  }

  lemma LoadTouchesOnlyUsers(e: Engine, user: int, env: Env)
    ensures Load(e, user, env).0 == e.(users := Load(e, user, env).0.users)
  {
  }

  lemma {:induction false} NothingUnselected(e: Engine, user: int, platforms: seq<string>, ids: seq<string>)
    requires OnlySelected(e, user, platforms)
    ensures Unselected(e, user, platforms, ids) == []
  {
    if ids != [] {
      NothingUnselected(e, user, platforms, ids[..|ids| - 1]);
    }
  }

  /** With only selected rows left, the deselection does nothing. */
  lemma PreparedAgain(det: Det, db: Listings, e: Engine, user: int, platforms: seq<string>, calendar: string, me: int,
                      env: Env)
    requires me !in e.world.workers && OnlySelected(e, user, platforms)
    ensures Prepared(det, db, e, user, platforms, calendar, me, env) == e.(world :=
            Apply(det, e.world, Start(me, user, calendar)))
  {
    var e1 := e.(world := Apply(det, e.world, Start(me, user, calendar)));
    NothingUnselected(e1, user, platforms, db.join(e1.world, user));
  }

  /** Right after a run the same contests are considered. */
  lemma ConsideredAgain(det: Det, db: Listings, e: Engine, r: Engine, platforms: seq<string>, env: Env, env2: Env,
                        ids: set<string>)
    requires FaultFree(env) && FaultFree(env2) && env.valkey == env2.valkey
    requires r.store == Contests(db, e, platforms, env).0.store
    ensures AllIn(Considered(db, r, platforms, env2), ids) <==> AllIn(Considered(db, e, platforms, env), ids)
  {
    var a, b := Considered(db, e, platforms, env), Considered(db, r, platforms, env2);
    if env.valkey {
      forall c ensures c in a <==> c in b {
        ContestStore.AssembleAgain(e.store, platforms, ReadsOf(db, e, platforms, env), ReadsOf(db, r, platforms, env2),
                                   c);
      }
      SameContestsSameIds(a, b, ids);
    }
  }

  lemma SameContestsSameIds(a: seq<ContestStore.Contest>, b: seq<ContestStore.Contest>, ids: set<string>)
    requires forall c :: c in a <==> c in b
    ensures AllIn(a, ids) <==> AllIn(b, ids)
  {
    if AllIn(a, ids) {
      forall i | 0 <= i < |b| ensures b[i].id in ids {
        assert b[i] in a;
      }
    }
    if AllIn(b, ids) {
      forall i | 0 <= i < |a| ensures a[i].id in ids {
        assert a[i] in b;
      }
    }
  }

  function LedgerIds(s: State, user: int): set<string> {
    set k | k in s.ledger && k.0 == user :: k.1
  }

  /** After a run the ledger holds every considered contest exactly when all of them are stored. */
  lemma LedgerAfter(det: Det, s: State, user: int, contests: seq<ContestStore.Contest>, synced: set<string>,
                    ids: set<string>)
    requires Ledger.Inv(det, s) && user in s.users && synced <= LedgerIds(s, user)
    requires Injective(det, user, ids) && LedgerWithin(s, user, ids) && AllIn(contests, ids)
    ensures AllIn(contests, LedgerIds(Recorded(det, s, user, contests, synced), user)) <==> AllIn(contests, s.contests)
  {
    var t := Recorded(det, s, user, contests, synced);
    RecordedExact(det, s, user, contests, synced, ids);
    if AllIn(contests, s.contests) {
      forall i | 0 <= i < |contests| ensures contests[i].id in LedgerIds(t, user) {
        assert HasContest(contests, contests[i].id);
        assert (user, contests[i].id) in t.ledger;
      }
    }
    if AllIn(contests, LedgerIds(t, user)) {
      forall i | 0 <= i < |contests| ensures contests[i].id in s.contests {
        assert contests[i].id in LedgerIds(t, user);
        assert (user, contests[i].id) in t.ledger;
      }
    }
  }

  /** The next run takes as synced the ledger's ids, or what this run took when it recorded nothing. */
  lemma ReadSyncedAgain(db: Listings, p: Engine, user: int, env: Env, r: Engine, env2: Env, any: bool)
    requires RowsListed(db.ids) && FaultFree(env) && FaultFree(env2) && env.valkey == env2.valkey
    requires r.synced == if any && env.valkey then ReadSynced(db, p, user, env).0.synced - {user}
             else ReadSynced(db, p, user, env).0.synced
    ensures
      var next := ReadSynced(db, r, user, env2).1;
      next == LedgerIds(r.world, user) || (!any && next == ReadSynced(db, p, user, env).1)
  {
    var next := ReadSynced(db, r, user, env2).1;
    if !(env.valkey && env2.getSynced && user in r.synced) {
      forall c ensures c in next <==> c in LedgerIds(r.world, user) {
        assert c in LedgerIds(r.world, user) <==> (user, c) in r.world.ledger;
      }
    }
  }

  /** The ids the next run takes as synced hold every considered contest exactly when all of them are stored. */
  lemma NextSynced(det: Det, s: State, me: int, contests: seq<ContestStore.Contest>, synced: set<string>, env: Env,
                   next: set<string>, ids: set<string>)
    requires Ledger.Inv(det, s) && GoogleServes(env)
    requires me in s.workers && s.workers[me].phase.Idle? && !s.workers[me].anySynced && s.workers[me].user in s.users
    requires synced <= LedgerIds(s, s.workers[me].user)
    requires Injective(det, s.workers[me].user, ids) && LedgerWithin(s, s.workers[me].user, ids) && AllIn(contests, ids)
    requires
      var t := SyncAll(det, s, me, contests, synced, env);
      next == LedgerIds(t, s.workers[me].user) || (!t.workers[me].anySynced && next == synced)
    ensures AllIn(contests, next) <==> AllIn(contests, s.contests)
  {
    var user := s.workers[me].user;
    SyncAllServed(det, s, me, contests, synced, env);
    if next == LedgerIds(SyncAll(det, s, me, contests, synced, env), user) {
      LedgerAfter(det, s, user, contests, synced, ids);
    } else {
      if AllIn(contests, s.contests) {
        AnySyncedExact(det, s, me, contests, synced, env);
      }
      if AllIn(contests, synced) {
        LowIsStored(det, s, user, contests, synced);
      }
    }
  }

  /** Ids in the ledger are stored contests. */
  lemma LowIsStored(det: Det, s: State, user: int, contests: seq<ContestStore.Contest>, synced: set<string>)
    requires Ledger.Inv(det, s) && synced <= LedgerIds(s, user) && AllIn(contests, synced)
    ensures AllIn(contests, s.contests)
  {
    forall i | 0 <= i < |contests| ensures contests[i].id in s.contests {
      assert contests[i].id in LedgerIds(s, user);
    }
  }

  /** The second reconciliation calls Google exactly when a considered contest is not taken as synced. */
  lemma ReconcileAgain(det: Det, db: Listings, r: Engine, user: int, platforms: seq<string>, calendar: string, me: int,
                       env: Env)
    requires SyncEngine.Inv(det, r) && me !in r.world.workers && Truthful(db) && FaultFree(env) && platforms != []
    requires OnlySelected(r, user, platforms)
    ensures Reconcile(det, db, r, user, platforms, calendar, me, env).0.world.calls == r.world.calls <==>
              AllIn(Considered(db, r, platforms, env), ReadSynced(db, r, user, env).1)
  {
    var p := Prepared(det, db, r, user, platforms, calendar, me, env);
    var (p', synced) := ReadSynced(db, p, user, env);
    PreparedAgain(det, db, r, user, platforms, calendar, me, env);
    ReconcileServed(det, db, r, user, platforms, calendar, me, env);
    SameStoreSameContests(db, r, p', platforms, env);
    SyncAllServed(det, p.world, me, Considered(db, r, platforms, env), synced, env);
    SameLedgerSameSynced(db, r, p, user, env);
  }

  lemma SameLedgerSameSynced(db: Listings, e: Engine, e': Engine, user: int, env: Env)
    requires RowsListed(db.ids) && e.world.ledger == e'.world.ledger && e.synced == e'.synced
    ensures ReadSynced(db, e, user, env).1 == ReadSynced(db, e', user, env).1
  {
    var ids, ids' := db.ids(e.world, user), db.ids(e'.world, user);
    assert (set c | c in ids) == (set c | c in ids') by {
      forall c ensures c in ids <==> c in ids' {
        assert c in ids <==> (user, c) in e.world.ledger;
        assert c in ids' <==> (user, c) in e'.world.ledger;
      }
    }
  }

  /** What the first run hands to the second. */
  ghost predicate Handed(det: Det, db: Listings, e: Engine, user: int, platforms: seq<string>, env: Env, r: Engine,
                         env2: Env)
  {
    && OnlySelected(r, user, platforms)
    && (AllIn(Considered(db, r, platforms, env2), ReadSynced(db, r, user, env2).1) <==>
          AllIn(Considered(db, e, platforms, env), e.world.contests))
  }

  lemma SettledSynced(det: Det, db: Listings, p: Engine, user: int, platforms: seq<string>, me: int, env: Env,
                      r: Engine, env2: Env, ids: set<string>)
    requires Ledger.Inv(det, p.world) && RowsListed(db.ids) && FaultFree(env) && FaultFree(env2)
    requires env.valkey == env2.valkey
    requires me in p.world.workers && p.world.workers[me].phase.Idle? && !p.world.workers[me].anySynced
    requires p.world.workers[me].user == user && user in p.world.users
    requires forall c :: c in ReadSynced(db, p, user, env).1 ==> (user, c) in p.world.ledger
    requires Injective(det, user, ids) && LedgerWithin(p.world, user, ids)
             && AllIn(Considered(db, p, platforms, env), ids)
    requires
      var (p', synced) := ReadSynced(db, p, user, env);
      Settled(det, db, p', user, platforms, synced, me, env, r)
    ensures AllIn(Considered(db, p, platforms, env), ReadSynced(db, r, user, env2).1) <==>
              AllIn(Considered(db, p, platforms, env), p.world.contests)
  {
    var contests := Considered(db, p, platforms, env);
    var (p', synced) := ReadSynced(db, p, user, env);
    SameStoreSameContests(db, p, p', platforms, env);
    var s := SyncAll(det, p.world, me, contests, synced, env);
    ReadSyncedAgain(db, p, user, env, r, env2, s.workers[me].anySynced);
    assert LedgerIds(r.world, user) == LedgerIds(s, user);
    NextSynced(det, p.world, me, contests, synced, env, ReadSynced(db, r, user, env2).1, ids);
  }

  lemma FirstReconcile(det: Det, db: Listings, e: Engine, user: int, platforms: seq<string>, calendar: string, me: int,
                       env: Env, env2: Env, ids: set<string>)
    requires SyncEngine.Inv(det, e) && me !in e.world.workers && Truthful(db) && platforms != []
    requires FaultFree(env) && FaultFree(env2) && env.valkey == env2.valkey
    requires user in e.world.users && Low(e, user, platforms)
    requires Injective(det, user, ids) && LedgerWithin(e.world, user, ids)
             && AllIn(Considered(db, e, platforms, env), ids)
    ensures Handed(det, db, e, user, platforms, env, Reconcile(det, db, e, user, platforms, calendar, me, env).0, env2)
  {
    var r := Reconcile(det, db, e, user, platforms, calendar, me, env).0;
    var p := Prepared(det, db, e, user, platforms, calendar, me, env);
    ReconcileDeselects(det, db, e, user, platforms, calendar, me, env);
    PreparedFacts(det, db, e, user, platforms, calendar, me, env);
    ReconcileServed(det, db, e, user, platforms, calendar, me, env);
    SyncedInLedger(det, db, e, user, platforms, calendar, me, env);
    SameStoreSameContests(db, e, p, platforms, env);
    SettledSynced(det, db, p, user, platforms, me, env, r, env2, ids);
    ConsideredAgain(det, db, e, r, platforms, env, env2, ReadSynced(db, r, user, env2).1);
  }

  /** What the first reconciliation leaves besides: no worker, and the users as they were. */
  lemma ReconcileLeaves(det: Det, db: Listings, e: Engine, user: int, platforms: seq<string>, calendar: string,
                        me: int, env: Env)
    requires SyncEngine.Inv(det, e) && me !in e.world.workers && Truthful(db) && FaultFree(env)
    ensures
      var (r, err) := Reconcile(det, db, e, user, platforms, calendar, me, env);
      !err && me !in r.world.workers && r.users == e.users
  {
    if platforms == [] {
      NothingSelected(det, db, e, user, calendar, me, env);
    } else {
      ReconcileServed(det, db, e, user, platforms, calendar, me, env);
    }
  }

  ghost predicate Calm(det: Det, db: Listings, e: Engine, user: int, me: int, env: Env) {
    && SyncEngine.Inv(det, e) && Truthful(db) && me !in e.world.workers && FaultFree(env)
    && user in e.users.rows && user !in e.users.stale
  }

  lemma FirstRun(det: Det, db: Listings, e: Engine, user: int, me: int, env: Env, env2: Env, ids: set<string>)
    requires Calm(det, db, e, user, me, env) && FaultFree(env2) && env.valkey == env2.valkey
    requires Low(e, user, Load(e, user, env).1.value.platforms)
    requires Injective(det, user, ids) && LedgerWithin(e.world, user, ids)
    requires AllIn(Considered(db, e, Load(e, user, env).1.value.platforms, env), ids)
    ensures
      var u := Load(e, user, env).1.value;
      var (r, err) := Sync(det, db, e, user, me, env);
      && !err && SyncEngine.Inv(det, r) && me !in r.world.workers
      && LoadsLike(r, user, env2, u) && OnlySelected(r, user, u.platforms)
      && (u.platforms != [] ==> Handed(det, db, e, user, u.platforms, env, r, env2))
  {
    var e2, u, calendar := SyncIsReconcile(det, db, e, user, me, env);
    var r := Sync(det, db, e, user, me, env).0;
    SyncIsALedgerRun(det, db, e, user, me, env);
    ReconcileLeaves(det, db, e2, user, u.platforms, calendar, me, env);
    LoadAgain(det, e, user, env, env2, r);
    ReconcileDeselects(det, db, e2, user, u.platforms, calendar, me, env);
    SameStoreSameContests(db, e, e2, u.platforms, env);
    if u.platforms != [] {
      FirstReconcile(det, db, e2, user, u.platforms, calendar, me, env, env2, ids);
    }
  }

  lemma NoCreation(det: Det, e: Engine, user: int, u: UserStore.CachedUser, env: Env)
    requires u.useDedicated ==> HasCalendar(u)
    ensures ChooseCalendar(det, e, user, u, env).0 == e
  {
  }

  lemma SecondRun(det: Det, db: Listings, r: Engine, user: int, me: int, env: Env, u: UserStore.CachedUser)
    requires SyncEngine.Inv(det, r) && Truthful(db) && me !in r.world.workers && FaultFree(env)
    requires LoadsLike(r, user, env, u) && OnlySelected(r, user, u.platforms)
    ensures Sync(det, db, r, user, me, env).0.world.calls == r.world.calls <==>
              u.platforms == [] || AllIn(Considered(db, r, u.platforms, env), ReadSynced(db, r, user, env).1)
  {
    var r2, v, calendar := SyncIsReconcile(det, db, r, user, me, env);
    NoCreation(det, Load(r, user, env).0, user, v, env);
    LoadTouchesOnlyUsers(r, user, env);
    if u.platforms == [] {
      NothingSelected(det, db, r2, user, calendar, me, env);
      PreparedAgain(det, db, r2, user, [], calendar, me, env);
    } else {
      ReconcileAgain(det, db, r2, user, u.platforms, calendar, me, env);
      SameStoreSameContests(db, r, r2, u.platforms, env);
      SameLedgerSameSynced(db, r, r2, user, env);
    }
  }

  /** Run again at once with nothing changed, a fault-free SyncUser creates no calendar and
      inserts, updates or deletes no event, exactly when every contest it considers is
      stored: a cached contest whose row is gone cannot be recorded and is sent each time. */
  lemma SecondRunIsQuiet(det: Det, db: Listings, e: Engine, user: int, me: int, env: Env, env2: Env, ids: set<string>)
    requires Calm(det, db, e, user, me, env) && FaultFree(env2) && env.valkey == env2.valkey
    requires Low(e, user, Load(e, user, env).1.value.platforms)
    requires Injective(det, user, ids) && LedgerWithin(e.world, user, ids)
    requires AllIn(Considered(db, e, Load(e, user, env).1.value.platforms, env), ids)
    ensures
      var platforms := Load(e, user, env).1.value.platforms;
      var r := Sync(det, db, e, user, me, env).0;
      && me !in r.world.workers
      && (Sync(det, db, r, user, me, env2).0.world.calls == r.world.calls <==>
            AllIn(Considered(db, e, platforms, env), e.store.rows.Keys))
  {
    var u := Load(e, user, env).1.value;
    FirstRun(det, db, e, user, me, env, env2, ids);
    SecondRun(det, db, Sync(det, db, e, user, me, env).0, user, me, env2, u);
    if u.platforms == [] {
      SameStoreSameContests(db, e, e, [], env);
      ContestsSelected(db, e, [], env);
    }
  }

  // ---------- What a run achieves, and what a stale cache costs ----------

  /** Every upcoming contest of a selected platform is considered. */
  lemma UpcomingIsConsidered(db: Listings, e: Engine, platforms: seq<string>, env: Env, id: string)
    requires ContestStore.Inv(e.store) && Truthful(db) && env.queryOk
    requires forall p :: p in platforms ==> p !in e.store.stale
    requires id in e.store.rows && e.store.rows[id].platform in platforms
             && ContestStore.Upcoming(e.store, e.store.rows[id])
    ensures HasContest(Considered(db, e, platforms, env), id)
  {
    var c := ContestStore.Selected(e.store.rows[id]);
    SameStoreSameContests(db, e, e, platforms, env);
    assert ContestStore.Direct(e.store, platforms, c);
    if env.valkey {
      AssemblyFacts(db, e, platforms, env);
      ContestStore.CachedAssemblyRefinesDirect(e.store, platforms, ReadsOf(db, e, platforms, env), c);
    } else {
      assert ContestStore.IsListing(e.store, platforms, db.contests(e.store.rows, e.store.now, platforms));
    }
    assert c in Considered(db, e, platforms, env) && c.id == id;
  }

  /** A fault-free run with a low cache records every stored upcoming contest of the selected
      platforms; with DeselectionIsComplete, the user's rows are then all of selected platforms. */
  lemma FaultFreeRunSyncsEverything(det: Det, db: Listings, e: Engine, user: int, me: int, env: Env, ids: set<string>,
                                    id: string)
    requires Calm(det, db, e, user, me, env)
    requires Low(e, user, Load(e, user, env).1.value.platforms)
    requires Injective(det, user, ids) && LedgerWithin(e.world, user, ids)
    requires AllIn(Considered(db, e, Load(e, user, env).1.value.platforms, env), ids)
    requires forall p :: p in Load(e, user, env).1.value.platforms ==> p !in e.store.stale
    requires id in e.store.rows && e.store.rows[id].platform in Load(e, user, env).1.value.platforms
    requires ContestStore.Upcoming(e.store, e.store.rows[id])
    ensures
      var ledger := Sync(det, db, e, user, me, env).0.world.ledger;
      (user, id) in ledger && ledger[(user, id)] == det.Id(user, id)
  {
    var e2, u, calendar := SyncIsReconcile(det, db, e, user, me, env);
    var platforms := u.platforms;
    var p := Prepared(det, db, e2, user, platforms, calendar, me, env);
    PreparedFacts(det, db, e2, user, platforms, calendar, me, env);
    ReconcileLedger(det, db, e2, user, platforms, calendar, me, env);
    SameStoreSameContests(db, e, e2, platforms, env);
    UpcomingIsConsidered(db, e2, platforms, env, id);
    RecordedExact(det, p.world, user, Considered(db, e2, platforms, env), {}, ids);
  }

  lemma {:induction false} DeleteAllOnlyDeletes(det: Det, s: State, me: int, list: seq<(string, string)>, env: Env,
                                                key: (int, string))
    requires me in s.workers
    ensures key in DeleteAll(det, s, me, list, env).ledger ==> key in s.ledger
  {
    if list != [] {
      DeleteAllOnlyDeletes(det, s, me, list[..|list| - 1], env, key);
    }
  }

  lemma ReconcileSkipsCached(det: Det, db: Listings, e: Engine, user: int, platforms: seq<string>, calendar: string,
                             me: int, env: Env, c: string)
    requires me !in e.world.workers
    requires env.valkey && env.getSynced && user in e.synced && c in e.synced[user] && (user, c) !in e.world.ledger
    ensures (user, c) !in Reconcile(det, db, e, user, platforms, calendar, me, env).0.world.ledger
  {
    var e1 := e.(world := Apply(det, e.world, Start(me, user, calendar)));
    var p := Deselect(det, db, e1, user, platforms, me, env);
    DeleteAllOnlyDeletes(det, e1.world, me, Unselected(e1, user, platforms, db.join(e1.world, user)), env, (user, c));
    var (p', synced) := ReadSynced(db, p, user, env);
    InsertionsSkipCached(det, db, p', user, platforms, synced, me, env, c);
  }

  lemma InsertionsSkipCached(det: Det, db: Listings, p: Engine, user: int, platforms: seq<string>, synced: set<string>,
                             me: int, env: Env, c: string)
    requires AtRest(p.world, me) && p.world.workers[me].user == user && c in synced && (user, c) !in p.world.ledger
    ensures (user, c) !in Insertions(det, db, p, user, platforms, synced, me, env).0.world.ledger
  {
    var contests := Considered(db, p, platforms, env);
    SyncAllRows(det, p.world, me, contests, synced, env, (user, c));
  }

  lemma AuthorizedSkipsCached(det: Det, db: Listings, e: Engine, user: int, u: UserStore.CachedUser, me: int, env: Env,
                              c: string)
    requires me !in e.world.workers
    requires env.valkey && env.getSynced && user in e.synced && c in e.synced[user] && (user, c) !in e.world.ledger
    ensures (user, c) !in Authorized(det, db, e, user, u, me, env).0.world.ledger
  {
    var (e1, calendar) := ChooseCalendar(det, e, user, u, env);
    ChooseKeepsTables(det, e, user, u, env);
    if calendar.Some? {
      ReconcileSkipsCached(det, db, e1, user, u.platforms, calendar.value, me, env, c);
    }
  }

  /** An id in the synced-ids cache is never recorded by a run that reads the cache, whatever else happens. */
  lemma CachedIsNeverRecorded(det: Det, db: Listings, e: Engine, user: int, me: int, env: Env, c: string)
    requires me !in e.world.workers
    requires env.valkey && env.getSynced && user in e.synced && c in e.synced[user] && (user, c) !in e.world.ledger
    ensures (user, c) !in Sync(det, db, e, user, me, env).0.world.ledger
  {
    var (e1, u) := Load(e, user, env);
    LoadTouchesOnlyUsers(e, user, env);
    if u.Some? {
      AuthorizedSkipsCached(det, db, e1, user, u.value, me, env, c);
    }
  }

  // ---------- Event ids from the digest ----------

  /** The deterministic ids of the program, for a digest and the users' Google ids. */
  function DetOf(digest: string -> seq<Ids.Byte>, google: int -> string): Det {
    Det(google, (g, contest) => Ids.EventId(digest, g, contest))
  }

  /** A user's event ids are distinct exactly when the digest does not collide on that user's contests. */
  lemma DistinctUnlessDigestCollides(digest: string -> seq<Ids.Byte>, google: int -> string, user: int,
                                     ids: set<string>)
    requires '_' !in google(user)
    requires forall c :: c in ids ==> |digest(google(user) + "_" + c)| == 16
    ensures Injective(DetOf(digest, google), user, ids) <==>
              forall c, c' :: c in ids && c' in ids ==>
                (digest(google(user) + "_" + c) == digest(google(user) + "_" + c') ==> c == c')
  {
    var g := google(user);
    forall c, c' | c in ids && c' in ids
      ensures Ids.EventId(digest, g, c) == Ids.EventId(digest, g, c') <==> digest(g + "_" + c) == digest(g + "_" + c') {
      Ids.EventIdCollision(digest, g, c, g, c');
    }
    forall c ensures DetOf(digest, google).Id(user, c) == Ids.EventId(digest, g, c) {
    }
  }
}
