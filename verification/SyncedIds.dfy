/**
  The synced-ids cache over runs of the whole system: a cached id has its row in the ledger,
  unless the row went after the id was cached, by a deselection or by a cascade.
 */
module SyncedIds {
  import opened Common
  import opened Ledger
  import opened SyncEngine
  import opened SyncIdempotence
  import ContestStore
  import EngineRuns
  import UserStore

  // ---------- What one SyncUser run does ----------

  predicate Cached(e: Engine, k: (int, string)) {
    k.0 in e.synced && k.1 in e.synced[k.0]
  }

  lemma ReadSyncedSource(db: Listings, e: Engine, user: int, env: Env, k: (int, string))
    requires RowsListed(db.ids)
    ensures Cached(ReadSynced(db, e, user, env).0, k) ==> Cached(e, k) || k in e.world.ledger
    ensures ReadSynced(db, e, user, env).0.world == e.world
  {
  }

  lemma InsertionsOnlyDrop(det: Det, db: Listings, e: Engine, user: int, platforms: seq<string>, synced: set<string>,
                           me: int, env: Env, k: (int, string))
    requires AtRest(e.world, me)
    ensures Cached(Insertions(det, db, e, user, platforms, synced, me, env).0, k) ==> Cached(e, k)
  {
  }

  lemma ReconcileSource(det: Det, db: Listings, e: Engine, user: int, platforms: seq<string>, calendar: string, me: int,
                        env: Env, k: (int, string))
    requires me !in e.world.workers && RowsListed(db.ids)
    ensures Cached(Reconcile(det, db, e, user, platforms, calendar, me, env).0, k) ==>
            Cached(e, k) || k in e.world.ledger
  {
    var e1 := e.(world := Apply(det, e.world, Start(me, user, calendar)));
    var p := Deselect(det, db, e1, user, platforms, me, env);
    DeleteAllOnlyDeletes(det, e1.world, me, Unselected(e1, user, platforms, db.join(e1.world, user)), env, k);
    var (p', synced) := ReadSynced(db, p, user, env);
    ReadSyncedSource(db, p, user, env, k);
    if platforms != [] {
      InsertionsOnlyDrop(det, db, p', user, platforms, synced, me, env, k);
    }
  }

  /** Whatever fails, an id is cached after a run only if it was before or its row was in the ledger. */
  lemma SyncSource(det: Det, db: Listings, e: Engine, user: int, me: int, env: Env, k: (int, string))
    requires me !in e.world.workers && RowsListed(db.ids)
    ensures Cached(Sync(det, db, e, user, me, env).0, k) ==> Cached(e, k) || k in e.world.ledger
  {
    var (e1, u) := Load(e, user, env);
    LoadTouchesOnlyUsers(e, user, env);
    if u.Some? {
      AuthorizedSource(det, db, e1, user, u.value, me, env, k);
    }
  }

  lemma AuthorizedSource(det: Det, db: Listings, e: Engine, user: int, u: UserStore.CachedUser, me: int, env: Env,
                         k: (int, string))
    requires me !in e.world.workers && RowsListed(db.ids)
    ensures Cached(Authorized(det, db, e, user, u, me, env).0, k) ==> Cached(e, k) || k in e.world.ledger
  {
    var (e1, calendar) := ChooseCalendar(det, e, user, u, env);
    ChooseKeepsTables(det, e, user, u, env);
    if env.auth && env.primary.Good? && calendar.Some? {
      ReconcileSource(det, db, e1, user, u.platforms, calendar.value, me, env, k);
    }
  }

  lemma {:induction false} DeleteAllRemoves(det: Det, s: State, me: int, list: seq<(string, string)>, env: Env,
                                            k: (int, string))
    requires me in s.workers && k in s.ledger
    ensures k !in DeleteAll(det, s, me, list, env).ledger ==> k.0 == s.workers[me].user && Listed(list, k.1)
  {
    if list != [] {
      DeleteAllRemoves(det, s, me, list[..|list| - 1], env, k);
      ListedSnoc(list, k.1);
    }
  }

  /** Whose row it is and that it is of a platform not selected. */
  ghost predicate Unselects(e: Engine, user: int, platforms: seq<string>, k: (int, string)) {
    k.0 == user && k.1 in e.store.rows && e.store.rows[k.1].platform !in platforms
  }

  lemma FinishRemoves(det: Det, e: Engine, user: int, me: int, env: Env, k: (int, string))
    requires AtRest(e.world, me) && k in e.world.ledger
    ensures
      var t := Finish(det, e, user, me, env).world;
      k !in t.ledger ==> k.0 == user && user !in t.users
  {
  }

  lemma InsertionsRemove(det: Det, db: Listings, e: Engine, user: int, platforms: seq<string>, synced: set<string>,
                         me: int, env: Env, k: (int, string))
    requires AtRest(e.world, me) && k in e.world.ledger
    ensures
      var t := Insertions(det, db, e, user, platforms, synced, me, env).0.world;
      k !in t.ledger ==> k.0 == user && user !in t.users
  {
    var (e1, contests) := Contests(db, e, platforms, env);
    if contests.Some? {
      SyncAllRows(det, e.world, me, contests.value, synced, env, k);
      FinishRemoves(det, e1.(world := SyncAll(det, e1.world, me, contests.value, synced, env)), user, me, env, k);
    }
  }

  lemma ReconcileRemoves(det: Det, db: Listings, e: Engine, user: int, platforms: seq<string>, calendar: string,
                         me: int, env: Env, k: (int, string))
    requires me !in e.world.workers && k in e.world.ledger
    ensures
      var t := Reconcile(det, db, e, user, platforms, calendar, me, env).0.world;
      k !in t.ledger ==> Unselects(e, user, platforms, k) || (k.0 == user && user !in t.users)
  {
    var e1 := e.(world := Apply(det, e.world, Start(me, user, calendar)));
    var p := Deselect(det, db, e1, user, platforms, me, env);
    var list := db.join(e1.world, user);
    UnselectedExact(e1, user, platforms, list, k.1);
    DeleteAllRemoves(det, e1.world, me, Unselected(e1, user, platforms, list), env, k);
    var (p', synced) := ReadSynced(db, p, user, env);
    if platforms != [] && k in p'.world.ledger {
      InsertionsRemove(det, db, p', user, platforms, synced, me, env, k);
    }
  }

  /** The row goes with the user. */
  ghost predicate Leaves(e: Engine, user: int, k: (int, string)) {
    k.0 == user && user !in e.world.users
  }

  lemma AuthorizedRemoves(det: Det, db: Listings, e: Engine, user: int, u: UserStore.CachedUser, me: int, env: Env,
                          k: (int, string))
    requires me !in e.world.workers && k in e.world.ledger
    ensures
      var r := Authorized(det, db, e, user, u, me, env).0;
      k !in r.world.ledger ==> Unselects(e, user, u.platforms, k) || Leaves(r, user, k)
  {
    if env.auth && env.primary.Good? {
      var (e1, calendar) := ChooseCalendar(det, e, user, u, env);
      ChooseKeepsTables(det, e, user, u, env);
      if calendar.Some? {
        ReconcileRemoves(det, db, e1, user, u.platforms, calendar.value, me, env, k);
      }
    }
  }

  /** Whatever fails, a run removes a row only if it is the user's and of a platform the run does not select,
      or together with the user. */
  lemma SyncRemoves(det: Det, db: Listings, e: Engine, user: int, me: int, env: Env, k: (int, string))
    requires me !in e.world.workers && k in e.world.ledger
    ensures
      var r := Sync(det, db, e, user, me, env).0;
      k !in r.world.ledger ==>
        Leaves(r, user, k) || (Load(e, user, env).1.Some? && Unselects(e, user, Load(e, user, env).1.value.platforms,
               k))
  {
    var (e1, u) := Load(e, user, env);
    LoadTouchesOnlyUsers(e, user, env);
    if u.Some? {
      AuthorizedRemoves(det, db, e1, user, u.value, me, env, k);
    }
  }

  // ---------- Runs of the system ----------

  /** The rows that went while their id was cached, and whose id has been cached ever since. */
  ghost function LostBy(e: Engine, e': Engine, lost: set<(int, string)>): set<(int, string)> {
    set k | k in lost + e.world.ledger.Keys && Cached(e', k) && (k in lost || k !in e'.world.ledger)
  }

  ghost function Lost(det: Det, db: Listings, e: Engine, steps: seq<EngineRuns.Step>, lost: set<(int, string)>):
    set<(int, string)>
    requires EngineRuns.Valid(det, db, e, steps)
    decreases |steps|
  {
    if steps == [] then lost
    else
      var e' := EngineRuns.Apply(det, db, e, steps[0]);
      Lost(det, db, e', steps[1..], LostBy(e, e', lost))
  }

  ghost predicate CachedOrLost(e: Engine, lost: set<(int, string)>) {
    forall k :: Cached(e, k) ==> k in e.world.ledger || k in lost
  }

  lemma StepSource(det: Det, db: Listings, e: Engine, step: EngineRuns.Step, k: (int, string))
    requires EngineRuns.Enabled(det, e, step) && Truthful(db)
    ensures Cached(EngineRuns.Apply(det, db, e, step), k) ==> Cached(e, k) || k in e.world.ledger
  {
    match step
    case SyncRun(user, me, env) => SyncSource(det, db, e, user, me, env, k);
    case _ =>
  }

  /** A row goes only by a run that does not select its platform, or with its user or its contest. */
  lemma LostCause(det: Det, db: Listings, e: Engine, step: EngineRuns.Step, k: (int, string))
    requires EngineRuns.Enabled(det, e, step) && k in e.world.ledger
    ensures
      var e' := EngineRuns.Apply(det, db, e, step);
      k !in e'.world.ledger ==>
        || (step.SyncRun? && step.user == k.0 && Load(e, k.0, step.env).1.Some?
            && Unselects(e, k.0, Load(e, k.0, step.env).1.value.platforms, k))
        || k.0 !in e'.world.users || k.1 !in e'.world.contests
  {
    match step
    case SyncRun(user, me, env) => SyncRemoves(det, db, e, user, me, env, k);
    case _ =>
  }

  /** Over every run of the system a cached id has its row in the ledger, unless that row went since the id was
      cached; LostCause says how it can go. */
  lemma {:induction false} CachedIdsOverRuns(det: Det, db: Listings, e: Engine, steps: seq<EngineRuns.Step>,
                                             lost: set<(int, string)>)
    requires EngineRuns.Valid(det, db, e, steps) && Truthful(db) && CachedOrLost(e, lost)
    ensures CachedOrLost(EngineRuns.Final(det, db, e, steps), Lost(det, db, e, steps, lost))
    decreases |steps|
  {
    if steps != [] {
      var e' := EngineRuns.Apply(det, db, e, steps[0]);
      var lost' := LostBy(e, e', lost);
      forall k | Cached(e', k) ensures k in e'.world.ledger || k in lost' {
        StepSource(det, db, e, steps[0], k);
      }
      CachedIdsOverRuns(det, db, e', steps[1..], lost');
    }
  }

  /** From the start of the system, where nothing is cached. */
  lemma CachedIdsFromStart(det: Det, db: Listings, steps: seq<EngineRuns.Step>)
    requires EngineRuns.Valid(det, db, EngineRuns.START, steps) && Truthful(db)
    ensures CachedOrLost(EngineRuns.Final(det, db, EngineRuns.START, steps), Lost(det, db, EngineRuns.START, steps, {}))
  {
    CachedIdsOverRuns(det, db, EngineRuns.START, steps, {});
  }

  /** The ids a run takes as synced are the cached ones, or else the ledger's, or else none; what it then caches are
      the ledger's, exactly with Valkey and a write that succeeds. */
  lemma SyncedReadIff(db: Listings, e: Engine, user: int, env: Env, c: string)
    requires Truthful(db)
    ensures
      var (t, ids) := ReadSynced(db, e, user, env);
      var hit := env.valkey && env.getSynced && user in e.synced;
      && (c in ids <==> if hit then c in e.synced[user] else env.idsOk && (user, c) in e.world.ledger)
      && if !hit && env.idsOk && env.valkey && env.setSynced then
           && t == e.(synced := t.synced) && t.synced.Keys == e.synced.Keys + {user}
           && (c in t.synced[user] <==> (user, c) in e.world.ledger)
           && forall id :: id in e.synced && id != user ==> t.synced[id] == e.synced[id]
         else t == e
  {
    assert RowsListed(db.ids);
  }
}
