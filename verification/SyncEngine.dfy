/**
  SyncUser (internal/sync/sync.go), run undisturbed from its lock to its release: the
  user's cache and row, the choice of calendar, the removal of deselected platforms, the
  synced-ids cache, the assembly of contests and the insert-or-restore loop. Every
  answer of the outside world comes from an environment; the database's listings are
  functions of the tables, in any order. The steps taken on calendars and ledger are
  those of the Ledger step system.
 */
module SyncEngine {
  import opened Common
  import opened Ledger
  import ContestStore
  import UserStore

  datatype Engine = Engine(users: UserStore.State, store: ContestStore.State, world: State,
                           synced: map<int, seq<string>>)

  datatype Google = Good | GrantGone | Bad

  datatype Creation = Created(id: string) | CreationRevoked | CreationFailed

  datatype DeleteAnswer = NotFound | Answer(reply: Reply)

  /** What the world answers, call by call: positions count from zero, attempts from one. */
  datatype Env = Env(lock: bool, valkey: bool,
                     getUser: bool, readUser: bool, setUser: bool,
                     auth: bool, primary: Google, creation: Creation, calendarDb: Db, calendarDel: bool,
                     forgetDb: Db, forgetDel: bool,
                     joinOk: bool, deletes: (nat, nat) -> DeleteAnswer, rowDeletes: nat -> Db,
                     getSynced: bool, idsOk: bool, setSynced: bool,
                     get: nat -> bool, queryOk: bool, put: nat -> bool,
                     inserts: (nat, nat) -> Reply, updates: (nat, nat) -> Reply, writes: nat -> Db, delSynced: bool)

  /** The answers of the three SELECTs as functions of the tables. */
  datatype Listings = Listings(join: (State, int) -> seq<string>, ids: (State, int) -> seq<string>,
                               contests: (Rows, int, seq<string>) -> seq<ContestStore.Contest>)

  type Rows = map<string, ContestStore.Contest>

  ghost predicate RowsListed(list: (State, int) -> seq<string>) {
    forall s, user, c :: c in list(s, user) <==> (user, c) in s.ledger
  }

  ghost predicate Truthful(db: Listings) {
    && RowsListed(db.join) && RowsListed(db.ids)
    && forall s: ContestStore.State, platforms ::
         ContestStore.IsListing(s, platforms, db.contests(s.rows, s.now, platforms))
  }

  ghost predicate Inv(det: Det, e: Engine) {
    && UserStore.Inv(e.users) && ContestStore.Inv(e.store) && Ledger.Inv(det, e.world)
    && e.world.users == e.users.rows.Keys && e.world.contests == e.store.rows.Keys
    && OwnersKnown(det, e)
  }

  /** `det` names the account every user id was given. */
  ghost predicate OwnersKnown(det: Det, e: Engine) {
    forall id :: id in e.users.owners ==> det.owner(id) == e.users.owners[id]
  }

  // ---------- The user, the grant, the calendar ----------

  function Load(e: Engine, user: int, env: Env): (Engine, Option<UserStore.CachedUser>) {
    if env.valkey && env.getUser && user in e.users.cache then (e, Some(e.users.cache[user]))
    else if !env.readUser || user !in e.users.rows then (e, None)
    else (e.(users := UserStore.Refill(e.users, user, false, env.valkey && env.setUser)),
          Some(UserStore.Cached(user, e.users.rows[user], false)))
  }

  /** handleSyncError on a revoked grant. */
  function Forget(det: Det, e: Engine, user: int, env: Env): Engine {
    e.(users := UserStore.Revoke(e.users, user, env.forgetDb, env.forgetDel),
       world := if env.forgetDb.Refused? then e.world else Apply(det, e.world, RemoveUser(user)))
  }

  predicate HasCalendar(u: UserStore.CachedUser) {
    u.calendarId != "" && u.calendarId != "primary"
  }

  /** The calendar to write to; none when the grant turns out to be gone. */
  function ChooseCalendar(det: Det, e: Engine, user: int, u: UserStore.CachedUser, env: Env): (Engine, Option<string>) {
    if !u.useDedicated then (e, Some("primary"))
    else if HasCalendar(u) then (e, Some(u.calendarId))
    else
      var e1 := e.(world := Apply(det, e.world, CreateCalendar));
      match env.creation
      case Created(id) =>
        (e1.(users := UserStore.SetCalendar(e.users, user, id, env.calendarDb, env.calendarDel)), Some(id))
      case CreationRevoked => (e1, None)
      case CreationFailed => (e1, Some("primary"))
  }

  // ---------- Deselected platforms ----------

  /** Up to three deletes of one event, stopping when it is gone. */
  function TryDelete(det: Det, s: State, me: int, event: string, k: nat, attempt: nat, env: Env): (t: State)
    requires me in s.workers
    ensures t == s.(calendars := t.calendars, calls := t.calls) && s.calls <= t.calls
    decreases 4 - attempt
  {
    if attempt > TRIES then s
    else
      var answer := env.deletes(k, attempt);
      var s1 := Apply(det, s, DeleteEvent(me, event, if answer.NotFound? then Failed else answer.reply));
      if answer.NotFound? || answer.reply.Served? then s1 else TryDelete(det, s1, me, event, k, attempt + 1, env)
  }

  /** The rows of the join whose platform is not selected, with their events. */
  function Unselected(e: Engine, user: int, platforms: seq<string>, ids: seq<string>): seq<(string, string)> {
    if ids == [] then []
    else
      var c := ids[|ids| - 1];
      Unselected(e, user, platforms, ids[..|ids| - 1])
      + if c in e.store.rows && e.store.rows[c].platform !in platforms && (user, c) in e.world.ledger
        then [(c, e.world.ledger[(user, c)])] else []
  }

  function DeleteAll(det: Det, s: State, me: int, list: seq<(string, string)>, env: Env): (t: State)
    requires me in s.workers
    ensures t == s.(calendars := t.calendars, calls := t.calls, ledger := t.ledger) && s.calls <= t.calls
  {
    if list == [] then s
    else
      var n := |list| - 1;
      var s1 := TryDelete(det, DeleteAll(det, s, me, list[..n], env), me, list[n].1, n, 1, env);
      Apply(det, s1, DeleteRow(me, list[n].0, env.rowDeletes(n)))
  }

  function Deselect(det: Det, db: Listings, e: Engine, user: int, platforms: seq<string>, me: int, env: Env): Engine
    requires me in e.world.workers
  {
    if !env.joinOk then e
    else e.(world := DeleteAll(det, e.world, me, Unselected(e, user, platforms, db.join(e.world, user)), env))
  }

  // ---------- Synced ids and contests ----------

  /** The ids taken as synced: the cached ones, else the ledger's, which are then cached. */
  function ReadSynced(db: Listings, e: Engine, user: int, env: Env): (Engine, set<string>) {
    if env.valkey && env.getSynced && user in e.synced then (e, set c | c in e.synced[user])
    else if !env.idsOk then (e, {})
    else
      var ids := db.ids(e.world, user);
      (if env.valkey && env.setSynced then e.(synced := e.synced[user := ids]) else e, set c | c in ids)
  }

  function ReadsOf(db: Listings, e: Engine, platforms: seq<string>, env: Env): ContestStore.Reads {
    var missed := ContestStore.Missed(e.store.cache, platforms, env.get, |platforms|);
    ContestStore.Reads(env.get, if env.queryOk then Some(db.contests(e.store.rows, e.store.now, missed))
                       else None, env.put)
  }

  function Contests(db: Listings, e: Engine, platforms: seq<string>, env: Env): (Engine,
                    Option<seq<ContestStore.Contest>>) {
    if env.valkey then
      var (store, contests) := ContestStore.Assemble(e.store, platforms, ReadsOf(db, e, platforms, env));
      (e.(store := store), contests)
    else (e, if env.queryOk then Some(db.contests(e.store.rows, e.store.now, platforms)) else None)
  }

  // ---------- Insert or restore ----------

  function Rank(phase: Phase): nat {
    match phase
    case Inserting(_, a) => if a < TRIES then 9 - a else 6
    case Updating(_, a) => if a < TRIES then 5 - a else 2
    case Writing(_) => 1
    case _ => 0
  }

  predicate AtRest(s: State, me: int) {
    me in s.workers && (s.workers[me].phase.Idle? || s.workers[me].phase.Halted?)
  }

  function NextStep(s: State, me: int, i: nat, env: Env): Step
    requires me in s.workers && !AtRest(s, me)
  {
    match s.workers[me].phase
    case Inserting(_, a) => Insert(me, env.inserts(i, a))
    case Updating(_, a) => Update(me, env.updates(i, a))
    case _ => Write(me, env.writes(i))
  }

  /** One step of the worker, closer to rest. */
  function Advance(det: Det, s: State, me: int, i: nat, env: Env): (t: State)
    requires me in s.workers && !AtRest(s, me)
    ensures me in t.workers && t.workers[me].user == s.workers[me].user
    ensures t.users == s.users && t.contests == s.contests && s.calls <= t.calls
    ensures Rank(t.workers[me].phase) < Rank(s.workers[me].phase)
  {
    Apply(det, s, NextStep(s, me, i, env))
  }

  /** One contest from its first insert to its row, or to giving up. */
  function Drive(det: Det, s: State, me: int, i: nat, env: Env): (t: State)
    requires me in s.workers
    ensures AtRest(t, me) && t.workers[me].user == s.workers[me].user
    ensures t.users == s.users && t.contests == s.contests && s.calls <= t.calls
    decreases Rank(s.workers[me].phase)
  {
    if AtRest(s, me) then s else Drive(det, Advance(det, s, me, i, env), me, i, env)
  }

  function SyncAll(det: Det, s: State, me: int, contests: seq<ContestStore.Contest>, synced: set<string>,
                   env: Env): (t: State)
    requires AtRest(s, me)
    ensures AtRest(t, me) && t.workers[me].user == s.workers[me].user
    ensures t.users == s.users && t.contests == s.contests && s.calls <= t.calls
  {
    if contests == [] then s
    else
      var n := |contests| - 1;
      var s1 := SyncAll(det, s, me, contests[..n], synced, env);
      if s1.workers[me].phase.Halted? || contests[n].id in synced then s1
      else Drive(det, Apply(det, s1, Pick(me, contests[n].id)), me, n, env)
  }

  // ---------- The whole run ----------

  function Leave(det: Det, e: Engine, me: int): Engine {
    e.(world := Apply(det, e.world, Stop(me)))
  }

  /** After the loop: a revoked grant forgets the user, new rows drop the synced-ids cache. */
  function Finish(det: Det, e: Engine, user: int, me: int, env: Env): Engine
    requires AtRest(e.world, me)
  {
    if e.world.workers[me].phase.Halted? then Leave(det, Forget(det, e, user, env), me)
    else if e.world.workers[me].anySynced && env.valkey && env.delSynced then
      Leave(det, e.(synced := e.synced - {user}), me)
    else Leave(det, e, me)
  }

  function Insertions(det: Det, db: Listings, e: Engine, user: int, platforms: seq<string>, synced: set<string>,
                      me: int, env: Env): (Engine, bool)
    requires AtRest(e.world, me)
  {
    var (e1, contests) := Contests(db, e, platforms, env);
    if contests.None? then (Leave(det, e1, me), true)
    else (Finish(det, e1.(world := SyncAll(det, e1.world, me, contests.value, synced, env)), user, me, env), false)
  }

  function Reconcile(det: Det, db: Listings, e: Engine, user: int, platforms: seq<string>, calendar: string, me: int,
                     env: Env): (Engine, bool)
    requires me !in e.world.workers
  {
    var e1 := e.(world := Apply(det, e.world, Start(me, user, calendar)));
    var e2 := Deselect(det, db, e1, user, platforms, me, env);
    var (e3, synced) := ReadSynced(db, e2, user, env);
    if platforms == [] then (Leave(det, e3, me), false)
    else Insertions(det, db, e3, user, platforms, synced, me, env)
  }

  function Authorized(det: Det, db: Listings, e: Engine, user: int, u: UserStore.CachedUser, me: int,
                      env: Env): (Engine, bool)
    requires me !in e.world.workers
  {
    if !env.auth || env.primary.Bad? then (e, true)
    else if env.primary.GrantGone? then (Forget(det, e, user, env), false)
    else
      var (e1, calendar) := ChooseCalendar(det, e, user, u, env);
      if calendar.None? then (Forget(det, e1, user, env), false)
      else Reconcile(det, db, e1, user, u.platforms, calendar.value, me, env)
  }

  /** SyncUser and whether it returns an error. */
  function Sync(det: Det, db: Listings, e: Engine, user: int, me: int, env: Env): (Engine, bool)
    requires me !in e.world.workers
  {
    if !env.lock then (e, true)
    else
      var (e1, u) := Load(e, user, env);
      if u.None? then (e1, true) else Authorized(det, db, e1, user, u.value, me, env)
  }

  // ---------- A run of SyncUser is a run of the Ledger system ----------

  ghost predicate Reaches(det: Det, s: State, t: State) {
    exists steps :: Valid(det, s, steps) && Final(det, s, steps) == t
  }

  lemma Stay(det: Det, s: State)
    ensures Reaches(det, s, s)
  {
    assert Valid(det, s, []) && Final(det, s, []) == s;
  }

  lemma OneStep(det: Det, s: State, step: Step)
    requires Enabled(s, step)
    ensures Reaches(det, s, Apply(det, s, step))
  {
    var t := Apply(det, s, step);
    assert [step][1..] == [];
    assert Valid(det, t, []) && Final(det, t, []) == t;
    assert Valid(det, s, [step]) && Final(det, s, [step]) == t;
  }

  lemma {:induction false} RunThenRun(det: Det, s: State, a: seq<Step>, b: seq<Step>)
    requires Valid(det, s, a) && Valid(det, Final(det, s, a), b)
    ensures Valid(det, s, a + b) && Final(det, s, a + b) == Final(det, Final(det, s, a), b)
    decreases |a|
  {
    if a == [] {
      assert a + b == b;
    } else {
      RunThenRun(det, Apply(det, s, a[0]), a[1..], b);
      assert (a + b)[1..] == a[1..] + b;
    }
  }

  lemma Chain(det: Det, s: State, t: State, u: State)
    requires Reaches(det, s, t) && Reaches(det, t, u)
    ensures Reaches(det, s, u)
  {
    var a :| Valid(det, s, a) && Final(det, s, a) == t;
    var b :| Valid(det, t, b) && Final(det, t, b) == u;
    RunThenRun(det, s, a, b);
  }

  lemma ReachKeepsInv(det: Det, s: State, t: State)
    requires Reaches(det, s, t) && Ledger.Inv(det, s)
    ensures Ledger.Inv(det, t)
  {
    var steps :| Valid(det, s, steps) && Final(det, s, steps) == t;
    LedgerIsSafe(det, s, steps);
  }

  /** One step, then the rest. */
  lemma StepThen(det: Det, s: State, step: Step, t: State)
    requires Enabled(s, step) && Reaches(det, Apply(det, s, step), t)
    ensures Reaches(det, s, t)
  {
    OneStep(det, s, step);
    Chain(det, s, Apply(det, s, step), t);
  }

  lemma ThenStep(det: Det, s: State, t: State, step: Step)
    requires Reaches(det, s, t) && Enabled(t, step)
    ensures Reaches(det, s, Apply(det, t, step))
  {
    OneStep(det, t, step);
    Chain(det, s, t, Apply(det, t, step));
  }

  lemma {:induction false} TryDeleteRuns(det: Det, s: State, me: int, event: string, k: nat, attempt: nat, env: Env)
    requires me in s.workers
    ensures Reaches(det, s, TryDelete(det, s, me, event, k, attempt, env))
    decreases 4 - attempt
  {
    if attempt > TRIES {
      Stay(det, s);
    } else {
      var answer := env.deletes(k, attempt);
      var step := DeleteEvent(me, event, if answer.NotFound? then Failed else answer.reply);
      var s1 := Apply(det, s, step);
      if answer.NotFound? || answer.reply.Served? {
        OneStep(det, s, step);
      } else {
        TryDeleteRuns(det, s1, me, event, k, attempt + 1, env);
        StepThen(det, s, step, TryDelete(det, s1, me, event, k, attempt + 1, env));
      }
    }
  }

  lemma {:induction false} DeleteAllRuns(det: Det, s: State, me: int, list: seq<(string, string)>, env: Env)
    requires me in s.workers
    ensures Reaches(det, s, DeleteAll(det, s, me, list, env))
  {
    if list == [] {
      Stay(det, s);
    } else {
      var n := |list| - 1;
      var s1 := DeleteAll(det, s, me, list[..n], env);
      var s2 := TryDelete(det, s1, me, list[n].1, n, 1, env);
      DeleteAllRuns(det, s, me, list[..n], env);
      TryDeleteRuns(det, s1, me, list[n].1, n, 1, env);
      Chain(det, s, s1, s2);
      ThenStep(det, s, s2, DeleteRow(me, list[n].0, env.rowDeletes(n)));
    }
  }

  lemma {:induction false} DriveRuns(det: Det, s: State, me: int, i: nat, env: Env)
    requires me in s.workers
    ensures Reaches(det, s, Drive(det, s, me, i, env))
    decreases Rank(s.workers[me].phase)
  {
    if AtRest(s, me) {
      Stay(det, s);
    } else {
      var step := NextStep(s, me, i, env);
      DriveRuns(det, Advance(det, s, me, i, env), me, i, env);
      StepThen(det, s, step, Drive(det, s, me, i, env));
    }
  }

  lemma {:induction false} SyncAllRuns(det: Det, s: State, me: int, contests: seq<ContestStore.Contest>,
                                       synced: set<string>, env: Env)
    requires AtRest(s, me)
    ensures Reaches(det, s, SyncAll(det, s, me, contests, synced, env))
  {
    if contests == [] {
      Stay(det, s);
    } else {
      var n := |contests| - 1;
      var s1 := SyncAll(det, s, me, contests[..n], synced, env);
      SyncAllRuns(det, s, me, contests[..n], synced, env);
      if !(s1.workers[me].phase.Halted? || contests[n].id in synced) {
        var step := Pick(me, contests[n].id);
        ThenStep(det, s, s1, step);
        var s2 := Apply(det, s1, step);
        DriveRuns(det, s2, me, n, env);
        Chain(det, s, s2, Drive(det, s2, me, n, env));
      }
    }
  }

  /** What a stage leaves: the invariant, and a world reached by steps of the Ledger system. */
  ghost predicate Follows(det: Det, e: Engine, e': Engine) {
    Inv(det, e') && Reaches(det, e.world, e'.world)
  }

  lemma FollowsChain(det: Det, e: Engine, e1: Engine, e2: Engine)
    requires Follows(det, e, e1) && Follows(det, e1, e2)
    ensures Follows(det, e, e2)
  {
    Chain(det, e.world, e1.world, e2.world);
  }

  /** A step that leaves users and contests alone. */
  lemma WorldFollows(det: Det, e: Engine, t: State)
    requires Inv(det, e) && Reaches(det, e.world, t) && t.users == e.world.users && t.contests == e.world.contests
    ensures Follows(det, e, e.(world := t))
  {
    ReachKeepsInv(det, e.world, t);
  }

  lemma LoadFollows(det: Det, e: Engine, user: int, env: Env)
    requires Inv(det, e)
    ensures Follows(det, e, Load(e, user, env).0) && Load(e, user, env).0.world == e.world
  {
    Stay(det, e.world);
    UserStore.FillKeepsInv(e.users, user, false, false, env.valkey && env.setUser);
  }

  /** The event ids the code computes from the loaded user are those of the step system. */
  lemma LoadedOwner(det: Det, e: Engine, user: int, env: Env)
    requires Inv(det, e) && Load(e, user, env).1.Some?
    ensures forall c :: det.event(Load(e, user, env).1.value.googleId, c) == det.Id(user, c)
  {
  }

  lemma RevokeFacts(users: UserStore.State, user: int, env: Env)
    requires UserStore.Inv(users)
    ensures
      var users' := UserStore.Revoke(users, user, env.forgetDb, env.forgetDel);
      UserStore.Inv(users') && users'.owners == users.owners
      && users'.rows.Keys == if env.forgetDb.Refused? then users.rows.Keys else users.rows.Keys - {user}
  {
    UserStore.RemoveKeepsInv(users, user, env.forgetDel);
    UserStore.InvalidateKeepsInv(users, user, env.forgetDel);
  }

  lemma ForgetFollows(det: Det, e: Engine, user: int, env: Env)
    requires Inv(det, e)
    ensures Follows(det, e, Forget(det, e, user, env))
  {
    RevokeFacts(e.users, user, env);
    Stay(det, e.world);
    OneStep(det, e.world, RemoveUser(user));
    StepKeepsInv(det, e.world, RemoveUser(user));
  }

  lemma ChooseFollows(det: Det, e: Engine, user: int, u: UserStore.CachedUser, env: Env)
    requires Inv(det, e)
    ensures Follows(det, e, ChooseCalendar(det, e, user, u, env).0)
    ensures ChooseCalendar(det, e, user, u, env).0.world.workers == e.world.workers
  {
    Stay(det, e.world);
    var s := Apply(det, e.world, CreateCalendar);
    OneStep(det, e.world, CreateCalendar);
    WorldFollows(det, e, s);
    if env.creation.Created? {
      SetCalendarFacts(e.users, user, env.creation.id, env.calendarDb, env.calendarDel);
    }
  }

  lemma SetCalendarFacts(users: UserStore.State, user: int, id: string, calendarDb: Db, del: bool)
    requires UserStore.Inv(users)
    ensures
      var users' := UserStore.SetCalendar(users, user, id, calendarDb, del);
      UserStore.Inv(users') && users'.owners == users.owners
      && users'.rows.Keys == users.rows.Keys
  {
    UserStore.SetCalendarKeepsInv(users, user, id, calendarDb, del);
  }

  lemma DeselectFollows(det: Det, db: Listings, e: Engine, user: int, platforms: seq<string>, me: int, env: Env)
    requires Inv(det, e) && me in e.world.workers
    ensures Follows(det, e, Deselect(det, db, e, user, platforms, me, env))
  {
    var list := Unselected(e, user, platforms, db.join(e.world, user));
    DeleteAllRuns(det, e.world, me, list, env);
    WorldFollows(det, e, DeleteAll(det, e.world, me, list, env));
    Stay(det, e.world);
  }

  lemma ContestsFollows(det: Det, db: Listings, e: Engine, platforms: seq<string>, env: Env)
    requires Inv(det, e) && Truthful(db)
    ensures Follows(det, e, Contests(db, e, platforms, env).0)
    ensures Contests(db, e, platforms, env).0.world == e.world
    ensures Contests(db, e, platforms, env).0.store.rows == e.store.rows
  {
    Stay(det, e.world);
    AssemblyFacts(db, e, platforms, env);
  }

  /** The assembly answers from a true listing, so it keeps the store's invariant and its rows. */
  lemma AssemblyFacts(db: Listings, e: Engine, platforms: seq<string>, env: Env)
    requires ContestStore.Inv(e.store) && Truthful(db)
    ensures ContestStore.Truthful(e.store, platforms, ReadsOf(db, e, platforms, env))
    ensures
      var store := ContestStore.Assemble(e.store, platforms, ReadsOf(db, e, platforms, env)).0;
      ContestStore.Inv(store) && store.rows == e.store.rows && store.now == e.store.now
  {
    var io := ReadsOf(db, e, platforms, env);
    var missed := ContestStore.Missed(e.store.cache, platforms, env.get, |platforms|);
    assert ContestStore.IsListing(e.store, missed, db.contests(e.store.rows, e.store.now, missed));
    ContestStore.AssembleKeepsInv(e.store, platforms, io);
    ContestStore.FillsKeepInv(e.store, db.contests(e.store.rows, e.store.now, missed), missed, missed, env.put);
  }

  lemma LeaveFollows(det: Det, e: Engine, me: int)
    requires Inv(det, e)
    ensures Follows(det, e, Leave(det, e, me))
  {
    OneStep(det, e.world, Stop(me));
    WorldFollows(det, e, Apply(det, e.world, Stop(me)));
  }

  lemma FinishFollows(det: Det, e: Engine, user: int, me: int, env: Env)
    requires Inv(det, e) && AtRest(e.world, me)
    ensures Follows(det, e, Finish(det, e, user, me, env))
  {
    if e.world.workers[me].phase.Halted? {
      var e1 := Forget(det, e, user, env);
      ForgetFollows(det, e, user, env);
      LeaveFollows(det, e1, me);
      FollowsChain(det, e, e1, Leave(det, e1, me));
    } else {
      LeaveFollows(det, e, me);
      LeaveFollows(det, e.(synced := e.synced - {user}), me);
    }
  }

  lemma InsertionsFollows(det: Det, db: Listings, e: Engine, user: int, platforms: seq<string>, synced: set<string>,
                          me: int, env: Env)
    requires Inv(det, e) && AtRest(e.world, me) && Truthful(db)
    ensures Follows(det, e, Insertions(det, db, e, user, platforms, synced, me, env).0)
  {
    var (e1, contests) := Contests(db, e, platforms, env);
    ContestsFollows(det, db, e, platforms, env);
    if contests.None? {
      LeaveFollows(det, e1, me);
    } else {
      var e2 := e1.(world := SyncAll(det, e1.world, me, contests.value, synced, env));
      SyncAllRuns(det, e1.world, me, contests.value, synced, env);
      WorldFollows(det, e1, e2.world);
      FinishFollows(det, e2, user, me, env);
      FollowsChain(det, e, e1, e2);
      FollowsChain(det, e, e2, Finish(det, e2, user, me, env));
    }
  }

  lemma ReconcileFollows(det: Det, db: Listings, e: Engine, user: int, platforms: seq<string>, calendar: string,
                         me: int, env: Env)
    requires Inv(det, e) && me !in e.world.workers && Truthful(db)
    ensures Follows(det, e, Reconcile(det, db, e, user, platforms, calendar, me, env).0)
  {
    var e1 := e.(world := Apply(det, e.world, Start(me, user, calendar)));
    OneStep(det, e.world, Start(me, user, calendar));
    WorldFollows(det, e, e1.world);
    var e2 := Deselect(det, db, e1, user, platforms, me, env);
    DeselectFollows(det, db, e1, user, platforms, me, env);
    FollowsChain(det, e, e1, e2);
    var (e3, synced) := ReadSynced(db, e2, user, env);
    assert Follows(det, e, e3);
    LeaveFollows(det, e3, me);
    InsertionsFollows(det, db, e3, user, platforms, synced, me, env);
    FollowsChain(det, e, e3, Reconcile(det, db, e, user, platforms, calendar, me, env).0);
  }

  lemma AuthorizedFollows(det: Det, db: Listings, e: Engine, user: int, u: UserStore.CachedUser, me: int, env: Env)
    requires Inv(det, e) && me !in e.world.workers && Truthful(db)
    ensures Follows(det, e, Authorized(det, db, e, user, u, me, env).0)
  {
    if !env.auth || env.primary.Bad? {
      Stay(det, e.world);
    } else if env.primary.GrantGone? {
      ForgetFollows(det, e, user, env);
    } else {
      var (e1, calendar) := ChooseCalendar(det, e, user, u, env);
      ChooseFollows(det, e, user, u, env);
      if calendar.None? {
        ForgetFollows(det, e1, user, env);
        FollowsChain(det, e, e1, Forget(det, e1, user, env));
      } else {
        ReconcileFollows(det, db, e1, user, u.platforms, calendar.value, me, env);
        FollowsChain(det, e, e1, Reconcile(det, db, e1, user, u.platforms, calendar.value, me, env).0);
      }
    }
  }

  /** Whatever fails, a run of SyncUser moves calendars and ledger by steps of the Ledger
      system, and keeps the users, the contests and the ledger in agreement. */
  lemma SyncIsALedgerRun(det: Det, db: Listings, e: Engine, user: int, me: int, env: Env)
    requires Inv(det, e) && me !in e.world.workers && Truthful(db)
    ensures Follows(det, e, Sync(det, db, e, user, me, env).0)
  {
    Stay(det, e.world);
    LoadFollows(det, e, user, env);
    var (e1, u) := Load(e, user, env);
    if u.Some? {
      AuthorizedFollows(det, db, e1, user, u.value, me, env);
      FollowsChain(det, e, e1, Authorized(det, db, e1, user, u.value, me, env).0);
    }
  }

  // ---------- Deselection ----------

  ghost predicate OnlySelected(e: Engine, user: int, platforms: seq<string>) {
    forall c :: (user, c) in e.world.ledger ==> c in e.store.rows && e.store.rows[c].platform in platforms
  }

  predicate Listed(list: seq<(string, string)>, c: string) {
    exists i :: 0 <= i < |list| && list[i].0 == c
  }

  lemma ListedSnoc(list: seq<(string, string)>, c: string)
    requires list != []
    ensures Listed(list, c) <==> Listed(list[..|list| - 1], c) || list[|list| - 1].0 == c
  {
    var init := list[..|list| - 1];
    if Listed(list, c) {
      var i :| 0 <= i < |list| && list[i].0 == c;
      assert i < |init| ==> init[i].0 == c;
    }
    if Listed(init, c) {
      var i :| 0 <= i < |init| && init[i].0 == c;
      assert list[i].0 == c;
    }
  }

  lemma {:induction false} UnselectedExact(e: Engine, user: int, platforms: seq<string>, ids: seq<string>, c: string)
    ensures Listed(Unselected(e, user, platforms, ids), c) <==>
              c in ids && c in e.store.rows && e.store.rows[c].platform !in platforms && (user, c) in e.world.ledger
  {
    if ids != [] {
      var init, last := ids[..|ids| - 1], ids[|ids| - 1];
      assert ids == init + [last];
      UnselectedExact(e, user, platforms, init, c);
      var all := Unselected(e, user, platforms, ids);
      if all != Unselected(e, user, platforms, init) {
        assert all[..|all| - 1] == Unselected(e, user, platforms, init);
        ListedSnoc(all, c);
      }
    }
  }

  /** The rows of the listed contests go, whatever Google answers to the deletes. */
  lemma {:induction false} DeleteAllRows(det: Det, s: State, me: int, list: seq<(string, string)>, env: Env,
                                         key: (int, string))
    requires me in s.workers && forall k :: !env.rowDeletes(k).Refused?
    ensures
      var t := DeleteAll(det, s, me, list, env);
      && (key in t.ledger <==> key in s.ledger && !(key.0 == s.workers[me].user && Listed(list, key.1)))
      && (key in t.ledger ==> t.ledger[key] == s.ledger[key])
  {
    if list != [] {
      DeleteAllRows(det, s, me, list[..|list| - 1], env, key);
      ListedSnoc(list, key.1);
    }
  }

  lemma DeselectExact(det: Det, db: Listings, e: Engine, user: int, platforms: seq<string>, me: int, env: Env,
                      key: (int, string))
    requires Inv(det, e) && me in e.world.workers && e.world.workers[me].user == user && Truthful(db)
    requires env.joinOk && forall k :: !env.rowDeletes(k).Refused?
    ensures
      var t := Deselect(det, db, e, user, platforms, me, env).world.ledger;
      && (key in t <==> key in e.world.ledger && (key.0 == user ==> e.store.rows[key.1].platform in platforms))
      && (key in t ==> t[key] == e.world.ledger[key])
  {
    var ids := db.join(e.world, user);
    assert key.1 in ids <==> (user, key.1) in e.world.ledger;
    UnselectedExact(e, user, platforms, ids, key.1);
    DeleteAllRows(det, e.world, me, Unselected(e, user, platforms, ids), env, key);
  }

  predicate Current(s: State, me: int, contest: string)
    requires me in s.workers
  {
    match s.workers[me].phase
    case Inserting(c, _) => c == contest
    case Updating(c, _) => c == contest
    case Writing(c) => c == contest
    case _ => true
  }

  /** Driving one contest adds at most its own row, and only for a stored contest. */
  lemma {:induction false} DriveRows(det: Det, s: State, me: int, i: nat, env: Env, contest: string, key: (int, string))
    requires me in s.workers && Current(s, me, contest)
    ensures
      var t := Drive(det, s, me, i, env);
      && (key in t.ledger ==> key in s.ledger || (key == (s.workers[me].user, contest) && contest in s.contests))
      && (key in s.ledger ==> key in t.ledger)
    decreases Rank(s.workers[me].phase)
  {
    if !AtRest(s, me) {
      DriveRows(det, Advance(det, s, me, i, env), me, i, env, contest, key);
    }
  }

  predicate HasContest(contests: seq<ContestStore.Contest>, id: string) {
    exists i :: 0 <= i < |contests| && contests[i].id == id
  }

  lemma HasContestSnoc(contests: seq<ContestStore.Contest>, id: string)
    requires contests != []
    ensures HasContest(contests, id) <==>
              HasContest(contests[..|contests| - 1], id) || contests[|contests| - 1].id == id
  {
    var init := contests[..|contests| - 1];
    if HasContest(contests, id) {
      var i :| 0 <= i < |contests| && contests[i].id == id;
      assert i < |init| ==> init[i].id == id;
    }
    if HasContest(init, id) {
      var i :| 0 <= i < |init| && init[i].id == id;
      assert contests[i].id == id;
    }
  }

  lemma {:induction false} SyncAllRows(det: Det, s: State, me: int, contests: seq<ContestStore.Contest>,
                                       synced: set<string>, env: Env, key: (int, string))
    requires AtRest(s, me)
    ensures
      var t := SyncAll(det, s, me, contests, synced, env);
      && (key in t.ledger ==>
            key in s.ledger || (key.0 == s.workers[me].user && HasContest(contests, key.1) && key.1 !in synced
              && key.1 in s.contests))
      && (key in s.ledger ==> key in t.ledger)
  {
    if contests != [] {
      var n := |contests| - 1;
      SyncAllRows(det, s, me, contests[..n], synced, env, key);
      HasContestSnoc(contests, key.1);
      var s1 := SyncAll(det, s, me, contests[..n], synced, env);
      if !(s1.workers[me].phase.Halted? || contests[n].id in synced) {
        DriveRows(det, Apply(det, s1, Pick(me, contests[n].id)), me, n, env, contests[n].id, key);
      }
    }
  }

  /** Every considered contest is of a selected platform under its own id. */
  lemma ContestsSelected(db: Listings, e: Engine, platforms: seq<string>, env: Env)
    requires ContestStore.Inv(e.store) && Truthful(db) && Contests(db, e, platforms, env).1.Some?
    ensures forall c :: c in Contests(db, e, platforms, env).1.value ==>
            c.platform in platforms && ContestStore.Encoded(c)
  {
    var contests := Contests(db, e, platforms, env).1.value;
    AssemblyFacts(db, e, platforms, env);
    assert ContestStore.IsListing(e.store, platforms, db.contests(e.store.rows, e.store.now, platforms));
    forall c | c in contests ensures c.platform in platforms && ContestStore.Encoded(c) {
      if env.valkey {
        ContestStore.AssemblyIsSelected(e.store, platforms, ReadsOf(db, e, platforms, env), c);
      } else {
        assert ContestStore.Direct(e.store, platforms, c);
      }
    }
  }

  lemma SyncAllStaysSelected(det: Det, e: Engine, user: int, platforms: seq<string>,
                             contests: seq<ContestStore.Contest>, synced: set<string>, me: int, env: Env)
    requires AtRest(e.world, me) && e.world.workers[me].user == user && OnlySelected(e, user, platforms)
    requires ContestStore.RowsEncoded(e.store.rows) && e.world.contests == e.store.rows.Keys
    requires forall c :: c in contests ==> c.platform in platforms && ContestStore.Encoded(c)
    ensures OnlySelected(e.(world := SyncAll(det, e.world, me, contests, synced, env)), user, platforms)
  {
    var s := SyncAll(det, e.world, me, contests, synced, env);
    forall c | (user, c) in s.ledger ensures c in e.store.rows && e.store.rows[c].platform in platforms {
      SyncAllRows(det, e.world, me, contests, synced, env, (user, c));
      if (user, c) !in e.world.ledger {
        var i :| 0 <= i < |contests| && contests[i].id == c;
        ContestStore.SameIdSameContest(contests[i], e.store.rows[c]);
      }
    }
  }

  lemma FinishStaysSelected(det: Det, e: Engine, user: int, platforms: seq<string>, me: int, env: Env)
    requires AtRest(e.world, me) && OnlySelected(e, user, platforms) && !env.forgetDb.Refused?
    ensures OnlySelected(Finish(det, e, user, me, env), user, platforms)
  {
  }

  lemma InsertionsStaySelected(det: Det, db: Listings, e: Engine, user: int, platforms: seq<string>,
                               synced: set<string>, me: int, env: Env)
    requires Inv(det, e) && AtRest(e.world, me) && e.world.workers[me].user == user && Truthful(db)
    requires OnlySelected(e, user, platforms) && !env.forgetDb.Refused?
    ensures
      var r := Insertions(det, db, e, user, platforms, synced, me, env);
      !r.1 ==> OnlySelected(r.0, user, platforms)
  {
    var (e1, contests) := Contests(db, e, platforms, env);
    ContestsFollows(det, db, e, platforms, env);
    if contests.Some? {
      ContestsSelected(db, e, platforms, env);
      SyncAllStaysSelected(det, e1, user, platforms, contests.value, synced, me, env);
      FinishStaysSelected(det, e1.(world := SyncAll(det, e1.world, me, contests.value, synced, env)), user, platforms,
                          me, env);
    }
  }

  lemma ReconcileDeselects(det: Det, db: Listings, e: Engine, user: int, platforms: seq<string>, calendar: string,
                           me: int, env: Env)
    requires Inv(det, e) && me !in e.world.workers && Truthful(db)
    requires env.joinOk && (forall k :: !env.rowDeletes(k).Refused?) && !env.forgetDb.Refused?
    ensures
      var r := Reconcile(det, db, e, user, platforms, calendar, me, env);
      !r.1 ==> OnlySelected(r.0, user, platforms)
  {
    var e1 := e.(world := Apply(det, e.world, Start(me, user, calendar)));
    StepKeepsInv(det, e.world, Start(me, user, calendar));
    var e2 := Deselect(det, db, e1, user, platforms, me, env);
    DeselectFollows(det, db, e1, user, platforms, me, env);
    forall c | (user, c) in e2.world.ledger ensures c in e.store.rows && e.store.rows[c].platform in platforms {
      DeselectExact(det, db, e1, user, platforms, me, env, (user, c));
    }
    var (e3, synced) := ReadSynced(db, e2, user, env);
    InsertionsStaySelected(det, db, e3, user, platforms, synced, me, env);
  }

  /** After a run that returns nil with its statements succeeding, every row of the user is
      of a platform selected in that run, even when every Google delete fails. */
  lemma DeselectionIsComplete(det: Det, db: Listings, e: Engine, user: int, me: int, env: Env)
    requires Inv(det, e) && me !in e.world.workers && Truthful(db)
    requires env.joinOk && (forall k :: !env.rowDeletes(k).Refused?) && !env.forgetDb.Refused?
    requires !Sync(det, db, e, user, me, env).1
    ensures Load(e, user, env).1.Some?
    ensures OnlySelected(Sync(det, db, e, user, me, env).0, user, Load(e, user, env).1.value.platforms)
  {
    LoadFollows(det, e, user, env);
    var (e1, u) := Load(e, user, env);
    AuthorizedDeselects(det, db, e1, user, u.value, me, env);
  }

  lemma AuthorizedDeselects(det: Det, db: Listings, e: Engine, user: int, u: UserStore.CachedUser, me: int, env: Env)
    requires Inv(det, e) && me !in e.world.workers && Truthful(db)
    requires env.joinOk && (forall k :: !env.rowDeletes(k).Refused?) && !env.forgetDb.Refused?
    ensures
      var r := Authorized(det, db, e, user, u, me, env);
      !r.1 ==> OnlySelected(r.0, user, u.platforms)
  {
    if env.auth && env.primary.GrantGone? {
      ForgottenHasNoRows(det, e, user, env);
    } else if env.auth && env.primary.Good? {
      ChooseFollows(det, e, user, u, env);
      var (e1, calendar) := ChooseCalendar(det, e, user, u, env);
      if calendar.None? {
        ForgottenHasNoRows(det, e1, user, env);
      } else {
        ReconcileDeselects(det, db, e1, user, u.platforms, calendar.value, me, env);
      }
    }
  }

  /** A forgotten user has no row, no ledger row and, when the DEL succeeds, no cached user. */
  lemma ForgottenHasNoRows(det: Det, e: Engine, user: int, env: Env)
    requires !env.forgetDb.Refused?
    ensures
      var r := Forget(det, e, user, env);
      && user !in r.users.rows && user !in r.world.users && (env.forgetDel ==> user !in r.users.cache)
      && forall c :: (user, c) !in r.world.ledger
  {
  }
}
