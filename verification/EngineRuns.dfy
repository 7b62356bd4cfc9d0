/**
  The whole system as runs: logins, saves, deletions and prunes of users, extractions, prunes
  and assemblies of contests, undisturbed SyncUser runs, changes users make in their
  calendars and lost cache entries, in any order, with the cascades of the foreign keys. The
  invariant that the theorems about one SyncUser run assume holds in every reachable state.
 */
module EngineRuns {
  import opened Common
  import opened Ledger
  import opened SyncEngine
  import ContestStore
  import UserStore

  datatype Step =
    | OnUsers(users: UserStore.Step)
    | OnContests(contests: ContestStore.Step)
    | SyncRun(user: int, me: int, env: Env)
    | LoseSynced(user: int)
    | InCalendar(key: CalendarKey, event: string, change: Change)

  /** The foreign keys: rows of users or contests that are gone go too. */
  function Cascade(s: State, users: set<int>, contests: set<string>): State {
    s.(users := users, contests := contests,
       ledger := map k | k in s.ledger && k.0 in users && k.1 in contests :: s.ledger[k])
  }

  ghost function WithUsers(e: Engine, users: UserStore.State): Engine {
    e.(users := users, world := Cascade(e.world, users.rows.Keys, e.world.contests))
  }

  function WithStore(e: Engine, store: ContestStore.State): Engine {
    e.(store := store, world := Cascade(e.world, e.world.users, store.rows.Keys))
  }

  /** `det` names the account an id is given when its row is made. */
  ghost predicate Enabled(det: Det, e: Engine, step: Step) {
    match step
    case OnUsers(s) =>
      forall id :: id in UserStore.Apply(e.users, s).owners ==> det.owner(id) == UserStore.Apply(e.users, s).owners[id]
    case OnContests(s) => ContestStore.Enabled(e.store, s)
    case SyncRun(_, me, _) => me !in e.world.workers
    case LoseSynced(_) => true
    case InCalendar(key, event, _) => event in Calendar(e.world, key)
  }

  ghost function Apply(det: Det, db: Listings, e: Engine, step: Step): Engine
    requires Enabled(det, e, step)
  {
    match step
    case OnUsers(s) => WithUsers(e, UserStore.Apply(e.users, s))
    case OnContests(s) => WithStore(e, ContestStore.Apply(e.store, s))
    case SyncRun(user, me, env) => Sync(det, db, e, user, me, env).0
    case LoseSynced(user) => e.(synced := e.synced - {user})
    case InCalendar(key, event, change) => e.(world := DoOutside(e.world, key, event, change))
  }

  ghost predicate Valid(det: Det, db: Listings, e: Engine, steps: seq<Step>)
    decreases |steps|
  {
    steps != [] ==> Enabled(det, e, steps[0]) && Valid(det, db, Apply(det, db, e, steps[0]), steps[1..])
  }

  ghost function Final(det: Det, db: Listings, e: Engine, steps: seq<Step>): Engine
    requires Valid(det, db, e, steps)
    decreases |steps|
  {
    if steps == [] then e else Final(det, db, Apply(det, db, e, steps[0]), steps[1..])
  }

  const START := Engine(UserStore.START, ContestStore.State(map[], map[], 0, {}),
                        State(map[], {}, map[], {}, {}, map[], 0), map[])

  lemma StartInv(det: Det)
    ensures SyncEngine.Inv(det, START)
  {
  }

  lemma CascadeKeepsInv(det: Det, s: State, users: set<int>, contests: set<string>)
    requires Ledger.Inv(det, s)
    ensures Ledger.Inv(det, Cascade(s, users, contests))
  {
    FewerRowsKeepInv(det, s, Cascade(s, users, contests));
  }

  lemma StepKeepsInv(det: Det, db: Listings, e: Engine, step: Step)
    requires SyncEngine.Inv(det, e) && Truthful(db) && Enabled(det, e, step)
    ensures SyncEngine.Inv(det, Apply(det, db, e, step))
  {
    match step
    case OnUsers(s) =>
      UserStore.StepKeepsInv(e.users, s);
      CascadeKeepsInv(det, e.world, UserStore.Apply(e.users, s).rows.Keys, e.world.contests);
    case OnContests(s) =>
      ContestStore.StepKeepsInv(e.store, s);
      CascadeKeepsInv(det, e.world, e.world.users, ContestStore.Apply(e.store, s).rows.Keys);
    case SyncRun(user, me, env) => SyncIsALedgerRun(det, db, e, user, me, env);
    case LoseSynced(_) =>
    case InCalendar(key, event, change) => OutsideKeepsInv(det, e.world, key, event, change);
  }

  /** In every reachable state of the system: cached users agree with their rows and cached lists hold
      the upcoming contests where no invalidation was missed, rows encode their ids, ledger rows are of
      present users and contests under deterministic ids Google took, and no calendar holds two events
      for one contest. */
  lemma {:induction false} SystemIsSafe(det: Det, db: Listings, e: Engine, steps: seq<Step>)
    requires SyncEngine.Inv(det, e) && Truthful(db) && Valid(det, db, e, steps)
    ensures SyncEngine.Inv(det, Final(det, db, e, steps))
    decreases |steps|
  {
    if steps != [] {
      StepKeepsInv(det, db, e, steps[0]);
      SystemIsSafe(det, db, Apply(det, db, e, steps[0]), steps[1..]);
    }
  }

  /** From the start of the system. */
  lemma SystemIsSafeFromStart(det: Det, db: Listings, steps: seq<Step>)
    requires Truthful(db) && Valid(det, db, START, steps)
    ensures SyncEngine.Inv(det, Final(det, db, START, steps))
  {
    StartInv(det);
    SystemIsSafe(det, db, START, steps);
  }

  ghost predicate Reachable(det: Det, db: Listings, e: Engine) {
    exists steps :: Valid(det, db, START, steps) && Final(det, db, START, steps) == e
  }

  lemma ReachStart(det: Det, db: Listings)
    ensures Reachable(det, db, START)
  {
    assert Valid(det, db, START, []) && Final(det, db, START, []) == START;
  }

  lemma ReachStep(det: Det, db: Listings, e: Engine, step: Step)
    requires Reachable(det, db, e) && Enabled(det, e, step)
    ensures Reachable(det, db, Apply(det, db, e, step))
  {
    var steps :| Valid(det, db, START, steps) && Final(det, db, START, steps) == e;
    RunSnoc(det, db, START, steps, step);
  }

  /** One more step at the end of a run. */
  lemma {:induction false} RunSnoc(det: Det, db: Listings, e: Engine, steps: seq<Step>, step: Step)
    requires Valid(det, db, e, steps) && Enabled(det, Final(det, db, e, steps), step)
    ensures Valid(det, db, e, steps + [step])
    ensures Final(det, db, e, steps + [step]) == Apply(det, db, Final(det, db, e, steps), step)
    decreases |steps|
  {
    var more := steps + [step];
    if steps == [] {
      assert more[1..] == [];
      assert Valid(det, db, Apply(det, db, e, step), more[1..]);
    } else {
      assert more[1..] == steps[1..] + [step];
      RunSnoc(det, db, Apply(det, db, e, steps[0]), steps[1..], step);
    }
  }

  // ---------- What goes, goes everywhere ----------

  /** A deleted account leaves no row, no ledger row and no cached user, and the user id has neither in any later
      state of the system. */
  lemma DeletedAccountLeavesNothing(det: Det, db: Listings, e: Engine, id: int, steps: seq<Step>)
    requires SyncEngine.Inv(det, e) && Truthful(db) && id in e.users.rows
    requires Enabled(det, e, OnUsers(UserStore.DoDeleteAccount(id, Done, true)))
    requires Valid(det, db, Apply(det, db, e, OnUsers(UserStore.DoDeleteAccount(id, Done, true))), steps)
    ensures
      var gone := Apply(det, db, e, OnUsers(UserStore.DoDeleteAccount(id, Done, true)));
      var later := Final(det, db, gone, steps);
      && id !in gone.users.cache && id !in gone.users.rows && id !in later.users.rows
      && forall c :: (id, c) !in gone.world.ledger && (id, c) !in later.world.ledger
  {
    var step := OnUsers(UserStore.DoDeleteAccount(id, Done, true));
    var gone := Apply(det, db, e, step);
    StepKeepsInv(det, db, e, step);
    StaysGone(det, db, gone, id, steps);
    SystemIsSafe(det, db, gone, steps);
  }

  /** An id that was given once and has no row gets none again, whatever runs. */
  lemma {:induction false} StaysGone(det: Det, db: Listings, e: Engine, id: int, steps: seq<Step>)
    requires SyncEngine.Inv(det, e) && Truthful(db) && Valid(det, db, e, steps)
    requires id !in e.users.rows && id < e.users.nextId
    ensures id !in Final(det, db, e, steps).users.rows
    decreases |steps|
  {
    if steps != [] {
      StepKeepsInv(det, db, e, steps[0]);
      StepStaysGone(det, db, e, id, steps[0]);
      StaysGone(det, db, Apply(det, db, e, steps[0]), id, steps[1..]);
    }
  }

  lemma StepStaysGone(det: Det, db: Listings, e: Engine, id: int, step: Step)
    requires SyncEngine.Inv(det, e) && Enabled(det, e, step) && id !in e.users.rows && id < e.users.nextId
    ensures
      var e' := Apply(det, db, e, step);
      id !in e'.users.rows && id < e'.users.nextId
  {
    match step
    case OnUsers(s) => UserStore.StepAddsOnlyNewIds(e.users, s, id);
    case SyncRun(user, me, env) => SyncAddsNoUser(det, db, e, user, me, env);
    case _ =>
  }

  predicate NoNewUser(e: Engine, e': Engine) {
    e'.users.nextId == e.users.nextId && e'.users.rows.Keys <= e.users.rows.Keys
  }

  lemma ForgetAddsNoUser(det: Det, e: Engine, user: int, env: Env)
    ensures NoNewUser(e, Forget(det, e, user, env))
  {
  }

  lemma FinishAddsNoUser(det: Det, e: Engine, user: int, me: int, env: Env)
    requires AtRest(e.world, me)
    ensures NoNewUser(e, Finish(det, e, user, me, env))
  {
    ForgetAddsNoUser(det, e, user, env);
  }

  lemma InsertionsAddNoUser(det: Det, db: Listings, e: Engine, user: int, platforms: seq<string>, synced: set<string>,
                            me: int, env: Env)
    requires AtRest(e.world, me)
    ensures NoNewUser(e, Insertions(det, db, e, user, platforms, synced, me, env).0)
  {
    var (e1, contests) := Contests(db, e, platforms, env);
    if contests.Some? {
      FinishAddsNoUser(det, e1.(world := SyncAll(det, e1.world, me, contests.value, synced, env)), user, me, env);
    }
  }

  lemma ReconcileAddsNoUser(det: Det, db: Listings, e: Engine, user: int, platforms: seq<string>, calendar: string,
                            me: int, env: Env)
    requires me !in e.world.workers
    ensures NoNewUser(e, Reconcile(det, db, e, user, platforms, calendar, me, env).0)
  {
    var e1 := e.(world := Ledger.Apply(det, e.world, Start(me, user, calendar)));
    var e2 := Deselect(det, db, e1, user, platforms, me, env);
    var (e3, synced) := ReadSynced(db, e2, user, env);
    if platforms != [] {
      InsertionsAddNoUser(det, db, e3, user, platforms, synced, me, env);
    }
  }

  lemma AuthorizedAddsNoUser(det: Det, db: Listings, e: Engine, user: int, u: UserStore.CachedUser, me: int, env: Env)
    requires me !in e.world.workers
    ensures NoNewUser(e, Authorized(det, db, e, user, u, me, env).0)
  {
    if env.auth && env.primary.GrantGone? {
      ForgetAddsNoUser(det, e, user, env);
    } else if env.auth && env.primary.Good? {
      var (e1, calendar) := ChooseCalendar(det, e, user, u, env);
      assert NoNewUser(e, e1);
      if calendar.None? {
        ForgetAddsNoUser(det, e1, user, env);
      } else {
        ReconcileAddsNoUser(det, db, e1, user, u.platforms, calendar.value, me, env);
      }
    }
  }

  /** A sync gives out no user id. */
  lemma SyncAddsNoUser(det: Det, db: Listings, e: Engine, user: int, me: int, env: Env)
    requires me !in e.world.workers
    ensures NoNewUser(e, Sync(det, db, e, user, me, env).0)
  {
    var (e1, u) := Load(e, user, env);
    if u.Some? {
      AuthorizedAddsNoUser(det, db, e1, user, u.value, me, env);
    }
  }

  /** Pruning past contests takes their ledger rows with them, and no other. */
  lemma PruneTakesEndedRows(det: Det, db: Listings, e: Engine, k: (int, string))
    requires SyncEngine.Inv(det, e) && k in e.world.ledger
    ensures
      var t := Apply(det, db, e, OnContests(ContestStore.DoPruneOld(Done))).world.ledger;
      (k in t <==> e.store.rows[k.1].end >= e.store.now) && (k in t ==> t[k] == e.world.ledger[k])
  {
    ContestStore.PruneOldTakesEnded(e.store, k.1);
  }
}
