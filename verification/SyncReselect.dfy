/**
  The deselection drops ledger rows but not the synced-ids cache (internal/sync/sync.go):
  when the id of a deselected contest stays cached, and what a later selection of its
  platform then leads to.
 */
module SyncReselect {
  import opened Common
  import opened Ledger
  import opened SyncEngine
  import opened SyncIdempotence
  import ContestStore
  import UserStore

  /** Some considered contest is stored and not taken as synced, so that the run records it. */
  predicate SomeNew(contests: seq<ContestStore.Contest>, synced: set<string>, stored: set<string>) {
    exists i :: 0 <= i < |contests| && contests[i].id !in synced && contests[i].id in stored
  }

  lemma SomeNewSnoc(contests: seq<ContestStore.Contest>, synced: set<string>, stored: set<string>)
    requires contests != []
    ensures
      var n := |contests| - 1;
      SomeNew(contests, synced, stored) <==>
        SomeNew(contests[..n], synced, stored) || (contests[n].id !in synced && contests[n].id in stored)
  {
    var n := |contests| - 1;
    if SomeNew(contests, synced, stored) {
      var i :| 0 <= i < |contests| && contests[i].id !in synced && contests[i].id in stored;
      assert i < n ==> contests[..n][i].id !in synced && contests[..n][i].id in stored;
    }
    if SomeNew(contests[..n], synced, stored) {
      var i :| 0 <= i < n && contests[..n][i].id !in synced && contests[..n][i].id in stored;
      assert contests[i].id !in synced && contests[i].id in stored;
    }
  }

  ghost predicate RowsStored(s: State, user: int) {
    forall c :: (user, c) in s.ledger ==> c in s.contests
  }

  /** Without digest collisions a row can be written exactly for a stored contest. */
  lemma RowAllowedIff(det: Det, s: State, user: int, c: string, ids: set<string>)
    requires user in s.users && UserRowsOk(det, s, user) && RowsStored(s, user)
    requires Injective(det, user, ids) && LedgerWithin(s, user, ids) && c in ids
    ensures RowAllowed(s, user, c, det.Id(user, c)) <==> c in s.contests
  {
    if k :| k in s.ledger && k.0 == user && s.ledger[k] == det.Id(user, c) {
      assert k == (user, k.1);
    }
  }

  /** The loop reports new rows if and only if it had a stored contest to record. */
  lemma {:induction false} AnySyncedIff(det: Det, s: State, me: int, contests: seq<ContestStore.Contest>,
                                        synced: set<string>, env: Env, ids: set<string>)
    requires me in s.workers && s.workers[me].phase.Idle? && GoogleServes(env)
    requires s.workers[me].user in s.users && UserRowsOk(det, s, s.workers[me].user)
             && RowsStored(s, s.workers[me].user)
    requires Injective(det, s.workers[me].user, ids) && LedgerWithin(s, s.workers[me].user, ids) && AllIn(contests, ids)
    ensures SyncAll(det, s, me, contests, synced, env).workers[me].anySynced <==>
              s.workers[me].anySynced || SomeNew(contests, synced, s.contests)
  {
    if contests != [] {
      var n, user := |contests| - 1, s.workers[me].user;
      var s1 := SyncAll(det, s, me, contests[..n], synced, env);
      SomeNewSnoc(contests, synced, s.contests);
      AnySyncedIff(det, s, me, contests[..n], synced, env, ids);
      SyncAllServed(det, s, me, contests[..n], synced, env);
      if contests[n].id !in synced {
        RecordedExact(det, s, user, contests[..n], synced, ids);
        RowAllowedIff(det, s1, user, contests[n].id, ids);
        DriveServed(det, s1, me, n, env, contests[n].id);
      }
    }
  }

  /** A run that reads the cached ids of the user. */
  ghost predicate ReadsCache(e: Engine, user: int, env: Env) {
    env.valkey && env.getSynced && user in e.synced
  }

  function CachedIds(e: Engine, user: int): set<string> {
    if user in e.synced then set c | c in e.synced[user] else {}
  }

  lemma HitReads(db: Listings, e: Engine, user: int, env: Env)
    requires ReadsCache(e, user, env)
    ensures ReadSynced(db, e, user, env) == (e, CachedIds(e, user))
  {
  }

  /** What a reconciliation does to the cached ids it reads. */
  lemma ReconcileKeepsCacheIff(det: Det, db: Listings, e: Engine, user: int, platforms: seq<string>, calendar: string,
                               me: int, env: Env, ids: set<string>)
    requires SyncEngine.Inv(det, e) && me !in e.world.workers && Truthful(db) && FaultFree(env)
    requires user in e.world.users && ReadsCache(e, user, env)
    requires Injective(det, user, ids) && LedgerWithin(e.world, user, ids)
             && AllIn(Considered(db, e, platforms, env), ids)
    ensures Reconcile(det, db, e, user, platforms, calendar, me, env).0.synced ==
              if SomeNew(Considered(db, e, platforms, env), CachedIds(e, user), e.world.contests) then e.synced - {user}
              else e.synced
  {
    var p := Prepared(det, db, e, user, platforms, calendar, me, env);
    PreparedFacts(det, db, e, user, platforms, calendar, me, env);
    HitReads(db, p, user, env);
    if platforms == [] {
      NothingSelected(det, db, e, user, calendar, me, env);
      NothingNew(db, e, env, CachedIds(e, user), e.world.contests);
    } else {
      ReconcileServed(det, db, e, user, platforms, calendar, me, env);
      SameConsidered(db, e, p, platforms, env);
      AnySyncedIff(det, p.world, me, Considered(db, e, platforms, env), CachedIds(e, user), env, ids);
    }
  }

  lemma NothingNew(db: Listings, e: Engine, env: Env, synced: set<string>, stored: set<string>)
    requires ContestStore.Inv(e.store) && Truthful(db) && env.queryOk
    ensures !SomeNew(Considered(db, e, [], env), synced, stored)
  {
    NothingConsidered(db, e, env);
    var contests := Considered(db, e, [], env);
    forall i | 0 <= i < |contests| ensures HasContest(contests, contests[i].id) {
    }
  }

  /** A whole run that reads the cached ids keeps them if and only if it records nothing. */
  lemma RunKeepsCacheIff(det: Det, db: Listings, e: Engine, user: int, me: int, env: Env, ids: set<string>)
    requires Calm(det, db, e, user, me, env) && ReadsCache(e, user, env)
    requires Injective(det, user, ids) && LedgerWithin(e.world, user, ids)
    requires AllIn(Considered(db, e, Load(e, user, env).1.value.platforms, env), ids)
    ensures Sync(det, db, e, user, me, env).0.synced ==
              if SomeNew(Considered(db, e, Load(e, user, env).1.value.platforms, env), CachedIds(e, user),
                e.store.rows.Keys)
              then e.synced - {user} else e.synced
  {
    var e2, u, calendar := SyncIsReconcile(det, db, e, user, me, env);
    SameConsidered(db, e, e2, u.platforms, env);
    ReconcileKeepsCacheIff(det, db, e2, user, u.platforms, calendar, me, env, ids);
  }

  /** A row the run removes is not added again by it. */
  lemma ReconcileRemoves(det: Det, db: Listings, e: Engine, user: int, platforms: seq<string>, calendar: string,
                         me: int, env: Env, c: string)
    requires SyncEngine.Inv(det, e) && me !in e.world.workers && Truthful(db) && FaultFree(env)
    requires ReadsCache(e, user, env) && c in e.synced[user]
    requires (user, c) in e.world.ledger && e.store.rows[c].platform !in platforms
    ensures (user, c) !in Reconcile(det, db, e, user, platforms, calendar, me, env).0.world.ledger
  {
    var p := Prepared(det, db, e, user, platforms, calendar, me, env);
    PreparedFacts(det, db, e, user, platforms, calendar, me, env);
    HitReads(db, p, user, env);
    if platforms == [] {
      NothingSelected(det, db, e, user, calendar, me, env);
    } else {
      InsertionsSkipCached(det, db, p, user, platforms, CachedIds(e, user), me, env, c);
    }
  }

  /** After a fault-free run that deselects a contest whose id is cached, the row is gone, and the id is still
      cached if and only if the run recorded nothing: no considered contest is stored and not among the ids. */
  lemma DeselectedIdStaysIff(det: Det, db: Listings, e: Engine, user: int, me: int, env: Env, ids: set<string>,
                             c: string)
    requires Calm(det, db, e, user, me, env) && ReadsCache(e, user, env) && c in e.synced[user]
    requires (user, c) in e.world.ledger && e.store.rows[c].platform !in Load(e, user, env).1.value.platforms
    requires Injective(det, user, ids) && LedgerWithin(e.world, user, ids)
    requires AllIn(Considered(db, e, Load(e, user, env).1.value.platforms, env), ids)
    ensures
      var r := Sync(det, db, e, user, me, env).0;
      && (user, c) !in r.world.ledger
      && (user in r.synced && c in r.synced[user] <==>
            !SomeNew(Considered(db, e, Load(e, user, env).1.value.platforms, env), CachedIds(e, user),
              e.store.rows.Keys))
      && (user in r.synced ==> c in r.synced[user])
  {
    RunKeepsCacheIff(det, db, e, user, me, env, ids);
    var e2, u, calendar := SyncIsReconcile(det, db, e, user, me, env);
    ReconcileRemoves(det, db, e2, user, u.platforms, calendar, me, env, c);
  }

  /** The contest is stored, still to come, and of a platform the run selects and whose cached list is complete. */
  ghost predicate Wanted(e: Engine, user: int, env: Env, c: string)
    requires Load(e, user, env).1.Some?
  {
    && c in e.store.rows && e.store.rows[c].platform in Load(e, user, env).1.value.platforms
    && ContestStore.Upcoming(e.store, e.store.rows[c])
    && forall p :: p in Load(e, user, env).1.value.platforms ==> p !in e.store.stale
  }

  /** A fault-free run records a wanted contest that has no row if and only if it does not read the id as cached. */
  lemma WantedIsRecordedIff(det: Det, db: Listings, r: Engine, user: int, me: int, env: Env, ids: set<string>,
                            c: string)
    requires Calm(det, db, r, user, me, env) && env.valkey && env.getSynced
    requires Wanted(r, user, env, c) && (user, c) !in r.world.ledger
    requires user in r.synced ==> c in r.synced[user]
    requires Injective(det, user, ids) && LedgerWithin(r.world, user, ids)
    requires AllIn(Considered(db, r, Load(r, user, env).1.value.platforms, env), ids)
    ensures (user, c) in Sync(det, db, r, user, me, env).0.world.ledger <==> user !in r.synced
  {
    if user in r.synced {
      CachedIsNeverRecorded(det, db, r, user, me, env, c);
    } else {
      FaultFreeRunSyncsEverything(det, db, r, user, me, env, ids, c);
    }
  }

  /** Deselect the platform of a cached contest, run, select the platform again, run: with both runs fault-free
      the contest is recorded again if and only if the first run recorded some other contest. */
  lemma ReselectedIsRecordedIff(det: Det, db: Listings, e: Engine, user: int, me: int, env: Env, ids: set<string>,
                                r: Engine, env2: Env, ids2: set<string>, c: string)
    requires Calm(det, db, e, user, me, env) && ReadsCache(e, user, env) && c in e.synced[user]
    requires (user, c) in e.world.ledger && e.store.rows[c].platform !in Load(e, user, env).1.value.platforms
    requires Injective(det, user, ids) && LedgerWithin(e.world, user, ids)
    requires AllIn(Considered(db, e, Load(e, user, env).1.value.platforms, env), ids)
    requires r.world == Sync(det, db, e, user, me, env).0.world && r.synced == Sync(det, db, e, user, me, env).0.synced
    requires Calm(det, db, r, user, me, env2) && env2.valkey && env2.getSynced && Wanted(r, user, env2, c)
    requires Injective(det, user, ids2) && LedgerWithin(r.world, user, ids2)
    requires AllIn(Considered(db, r, Load(r, user, env2).1.value.platforms, env2), ids2)
    ensures (user, c) in Sync(det, db, r, user, me, env2).0.world.ledger <==>
              SomeNew(Considered(db, e, Load(e, user, env).1.value.platforms, env), CachedIds(e, user),
                      e.store.rows.Keys)
  {
    DeselectedIdStaysIff(det, db, e, user, me, env, ids, c);
    WantedIsRecordedIff(det, db, r, user, me, env2, ids2, c);
  }

  // ---------- A run that finds no cached ids ----------

  /** The ids of the user's rows that the deselection leaves. */
  function SelectedIds(e: Engine, user: int, platforms: seq<string>): set<string> {
    set k | k in e.world.ledger && k.0 == user && k.1 in e.store.rows && e.store.rows[k.1].platform in platforms :: k.1
  }

  lemma MissReads(det: Det, db: Listings, e: Engine, user: int, platforms: seq<string>, calendar: string, me: int,
                  env: Env)
    requires SyncEngine.Inv(det, e) && me !in e.world.workers && Truthful(db) && FaultFree(env)
    requires env.valkey && user !in e.synced
    ensures
      var p := Prepared(det, db, e, user, platforms, calendar, me, env);
      var (p', synced) := ReadSynced(db, p, user, env);
      && synced == SelectedIds(e, user, platforms) == LedgerIds(p.world, user)
      && user in p'.synced && synced == set c | c in p'.synced[user]
  {
    var p := Prepared(det, db, e, user, platforms, calendar, me, env);
    PreparedFacts(det, db, e, user, platforms, calendar, me, env);
    var ids := db.ids(p.world, user);
    forall c ensures c in ids <==> c in SelectedIds(e, user, platforms) {
      assert c in ids <==> (user, c) in p.world.ledger;
      assert c in SelectedIds(e, user, platforms) <==> (user, c) in p.world.ledger;
    }
    forall c ensures c in LedgerIds(p.world, user) <==> (user, c) in p.world.ledger {
    }
  }

  lemma ReconcileFillsCache(det: Det, db: Listings, e: Engine, user: int, platforms: seq<string>, calendar: string,
                            me: int, env: Env, ids: set<string>)
    requires SyncEngine.Inv(det, e) && me !in e.world.workers && Truthful(db) && FaultFree(env)
    requires env.valkey && user !in e.synced && user in e.world.users && platforms != []
    requires Injective(det, user, ids) && LedgerWithin(e.world, user, ids)
             && AllIn(Considered(db, e, platforms, env), ids)
    ensures
      var r := Reconcile(det, db, e, user, platforms, calendar, me, env).0;
      var some := SomeNew(Considered(db, e, platforms, env), SelectedIds(e, user, platforms), e.world.contests);
      && (some ==> user !in r.synced)
      && (!some ==> user in r.synced && CachedIds(r, user) == LedgerIds(r.world, user))
  {
    var contests := Considered(db, e, platforms, env);
    var p := Prepared(det, db, e, user, platforms, calendar, me, env);
    var (p', synced) := ReadSynced(db, p, user, env);
    MissReads(det, db, e, user, platforms, calendar, me, env);
    PreparedFacts(det, db, e, user, platforms, calendar, me, env);
    ReconcileServed(det, db, e, user, platforms, calendar, me, env);
    SameConsidered(db, e, p', platforms, env);
    AnySyncedIff(det, p.world, me, contests, synced, env, ids);
    SyncAllServed(det, p.world, me, contests, synced, env);
    if !SomeNew(contests, synced, e.world.contests) {
      NothingRecorded(det, p.world, user, contests, synced, ids);
    }
  }

  /** With nothing new the ledger of the user stays as it is. */
  lemma NothingRecorded(det: Det, s: State, user: int, contests: seq<ContestStore.Contest>, synced: set<string>,
                        ids: set<string>)
    requires user in s.users && UserRowsOk(det, s, user)
    requires Injective(det, user, ids) && LedgerWithin(s, user, ids) && AllIn(contests, ids)
    requires !SomeNew(contests, synced, s.contests)
    ensures LedgerIds(Recorded(det, s, user, contests, synced), user) == LedgerIds(s, user)
  {
    var t := Recorded(det, s, user, contests, synced);
    RecordedExact(det, s, user, contests, synced, ids);
    forall c ensures c in LedgerIds(t, user) <==> c in LedgerIds(s, user) {
      assert c in LedgerIds(t, user) <==> (user, c) in t.ledger;
      assert c in LedgerIds(s, user) <==> (user, c) in s.ledger;
      if HasContest(contests, c) {
        var i :| 0 <= i < |contests| && contests[i].id == c;
        assert contests[i].id in synced || contests[i].id !in s.contests;
      }
    }
  }

  /** A fault-free run that finds no cached ids leaves none if it records something, and else exactly the ids of
      the user's rows. */
  lemma RunFillsCache(det: Det, db: Listings, e: Engine, user: int, me: int, env: Env, ids: set<string>)
    requires Calm(det, db, e, user, me, env) && env.valkey && user !in e.synced
    requires Load(e, user, env).1.value.platforms != []
    requires Injective(det, user, ids) && LedgerWithin(e.world, user, ids)
    requires AllIn(Considered(db, e, Load(e, user, env).1.value.platforms, env), ids)
    ensures
      var platforms := Load(e, user, env).1.value.platforms;
      var r := Sync(det, db, e, user, me, env).0;
      var some := SomeNew(Considered(db, e, platforms, env), SelectedIds(e, user, platforms), e.store.rows.Keys);
      && (some ==> user !in r.synced)
      && (!some ==> user in r.synced && CachedIds(r, user) == LedgerIds(r.world, user))
  {
    var e2, u, calendar := SyncIsReconcile(det, db, e, user, me, env);
    SameConsidered(db, e, e2, u.platforms, env);
    ReconcileFillsCache(det, db, e2, user, u.platforms, calendar, me, env, ids);
  }
}
