/**
  Failing runs in full, from the start of the system: a pruned contest that a cached list keeps
  is sent on every run, a contest that was deselected and selected again is skipped, and a
  new dedicated calendar stays empty.
 */
module SyncExamples {
  import opened Common
  import opened Ledger
  import opened SyncEngine
  import opened SyncIdempotence
  import ContestStore
  import EngineRuns
  import Ids
  import SyncEvents
  import SyncLive
  import SyncReselect
  import SyncRevocation
  import SyncedIds
  import UserStore

  // ---------- A world without faults exists ----------

  function Quiet(): Env {
    Env(true, true, true, true, true, true, Good, Created("calendar"), Done, true, Done, true,
        true, (_, _) => Answer(Served), _ => Done, true, true, true, _ => true, true, _ => true,
        (_, _) => Served, (_, _) => Served, _ => Done, true)
  }

  lemma QuietIsFaultFree()
    ensures FaultFree(Quiet())
  {
  }

  ghost function Listed<T(!new)>(s: set<T>): (r: seq<T>)
    ensures forall x :: x in r <==> x in s
  {
    if s == {} then [] else var x :| x in s; [x] + Listed(s - {x})
  }

  /** Some database answers every query truthfully. */
  ghost function Database(): Listings {
    var rowsOf := (s: State, user: int) => Listed(LedgerIds(s, user));
    Listings(rowsOf, rowsOf, (rows: map<string, ContestStore.Contest>, now: int, platforms: seq<string>) =>
               Listed(Upcoming(rows, now, platforms)))
  }

  function Upcoming(rows: map<string, ContestStore.Contest>, now: int,
                    platforms: seq<string>): set<ContestStore.Contest> {
    set id | id in rows && rows[id].platform in platforms && rows[id].start > now :: ContestStore.Selected(rows[id])
  }

  lemma DatabaseIsTruthful()
    ensures Truthful(Database())
  {
    forall s: State, user: int, c: string
      ensures c in Database().join(s, user) <==> (user, c) in s.ledger
      ensures c in Database().ids(s, user) <==> (user, c) in s.ledger {
      assert c in LedgerIds(s, user) <==> (user, c) in s.ledger;
    }
    forall s: ContestStore.State, platforms: seq<string>
      ensures ContestStore.IsListing(s, platforms, Database().contests(s.rows, s.now, platforms)) {
      UpcomingIsListing(s, platforms, Database().contests(s.rows, s.now, platforms));
    }
  }

  lemma UpcomingIsListing(s: ContestStore.State, platforms: seq<string>, listing: seq<ContestStore.Contest>)
    requires forall c :: c in listing <==> c in Upcoming(s.rows, s.now, platforms)
    ensures ContestStore.IsListing(s, platforms, listing)
  {
    forall c | c in listing ensures ContestStore.Direct(s, platforms, c) {
      assert c in Upcoming(s.rows, s.now, platforms);
    }
    forall id | id in s.rows && s.rows[id].platform in platforms && ContestStore.Upcoming(s, s.rows[id])
      ensures ContestStore.Selected(s.rows[id]) in listing {
      assert ContestStore.Selected(s.rows[id]) in Upcoming(s.rows, s.now, platforms);
    }
  }

  // ---------- A pruned contest that stays cached ----------

  /** Nothing synced yet: some users, some contests, an empty ledger and empty calendars. */
  function Fresh(users: UserStore.State, store: ContestStore.State): Engine {
    Engine(users, store, State(map[], {}, map[], users.rows.Keys, store.rows.Keys, map[], 0), map[])
  }

  const NEW_ROW := UserStore.Row("g", "e", "t", None, false, [], true)

  function UserWith(platforms: seq<string>): UserStore.State {
    UserStore.State(map[1 := NEW_ROW.(platforms := platforms)], map[], 2, {}, map[1 := "g"])
  }

  function Contests0(): ContestStore.State {
    ContestStore.State(map[], map[], 0, {})
  }

  function Stored(c: ContestStore.Contest): ContestStore.State {
    ContestStore.State(map[c.id := c], map[], 0, {})
  }

  function StoredAndCached(c: ContestStore.Contest): ContestStore.State {
    Stored(c).(cache := map["codeforces" := [ContestStore.Selected(c)]])
  }

  function OnlyCached(c: ContestStore.Contest): ContestStore.State {
    StoredAndCached(c).(rows := map[])
  }

  /** An upcoming contest as the fetcher returns it. */
  predicate Announced(c: ContestStore.Contest) {
    c.platform == "codeforces" && c.start > 0 && ContestStore.Encoded(c)
  }

  lemma FreshUsers(users: UserStore.State, store: ContestStore.State, users': UserStore.State)
    ensures EngineRuns.WithUsers(Fresh(users, store), users') == Fresh(users', store)
  {
  }

  lemma FreshStore(users: UserStore.State, store: ContestStore.State, store': ContestStore.State)
    ensures EngineRuns.WithStore(Fresh(users, store), store') == Fresh(users, store')
  {
  }

  function SignIn(): UserStore.Step {
    UserStore.DoLogin("g", "e", "t", true, Done, true)
  }

  function Choose(platforms: seq<string>): UserStore.Step {
    UserStore.DoSave(1, platforms, false, UserStore.QUIET)
  }

  lemma SignedIn()
    ensures UserStore.Apply(UserStore.START, SignIn()) == UserWith([])
  {
    assert forall id :: !UserStore.HasGoogleId(UserStore.START, "g", id);
  }

  lemma Chosen()
    ensures UserStore.Apply(UserWith([]), Choose(["codeforces"])) == UserWith(["codeforces"])
  {
    assert multiset(["codeforces"])["codeforces"] == 1;
    assert "codeforces" == Ids.PLATFORMS[1];
  }

  function Extracted(c: ContestStore.Contest): ContestStore.Step {
    ContestStore.DoSave("codeforces", [c], Done, true)
  }

  lemma SavedOne(c: ContestStore.Contest)
    ensures ContestStore.Apply(Contests0(), Extracted(c)) == Stored(c)
  {
    assert [c][..0] == [];
    assert ContestStore.UpsertAll(map[], [c]) == ContestStore.Upsert(ContestStore.UpsertAll(map[], [c][..0]), c);
  }

  function Assembled(c: ContestStore.Contest): ContestStore.Step {
    ContestStore.DoAssemble(["codeforces"], ContestStore.Reads(_ => true, Some([ContestStore.Selected(c)]), _ => true))
  }

  lemma OneMissed(get: nat -> bool)
    ensures ContestStore.Missed(map[], ["codeforces"], get, 1) == ["codeforces"]
  {
    assert ContestStore.Missed(map[], ["codeforces"], get, 0) == [];
  }

  lemma OneOfPlatform(d: ContestStore.Contest)
    requires d.platform == "codeforces"
    ensures ContestStore.OfPlatform([d], "codeforces") == [d]
  {
    assert [d][..0] == [];
    assert ContestStore.OfPlatform([d][..0], "codeforces") == [];
  }

  lemma OneFilled(s: ContestStore.State, d: ContestStore.Contest, put: nat -> bool)
    requires d.platform == "codeforces" && put(0)
    ensures ContestStore.Fills(s, [d], ["codeforces"], put) ==
              s.(cache := s.cache["codeforces" := [d]], stale := s.stale - {"codeforces"})
  {
    OneOfPlatform(d);
    var p := ["codeforces"];
    assert p[..0] == [];
    assert ContestStore.Fills(s, [d], p[..0], put) == s;
  }

  lemma OneListed(c: ContestStore.Contest)
    requires Announced(c)
    ensures ContestStore.IsListing(Stored(c), ["codeforces"], [ContestStore.Selected(c)])
  {
    assert Stored(c).rows[c.id] == c;
    assert ContestStore.Direct(Stored(c), ["codeforces"], ContestStore.Selected(c));
  }

  lemma CachedOne(c: ContestStore.Contest)
    requires Announced(c)
    ensures ContestStore.Enabled(Stored(c), Assembled(c))
    ensures ContestStore.Apply(Stored(c), Assembled(c)) == StoredAndCached(c)
  {
    var io := Assembled(c).io;
    OneMissed(io.get);
    OneListed(c);
    OneFilled(Stored(c), ContestStore.Selected(c), io.put);
  }

  function Pruned(ids: seq<string>): ContestStore.Step {
    ContestStore.DoPrune("codeforces", ids, Done)
  }

  lemma PrunedOne(c: ContestStore.Contest, ids: seq<string>)
    requires Announced(c) && c.id !in ids
    ensures ContestStore.Apply(StoredAndCached(c), Pruned(ids)) == OnlyCached(c)
  {
  }

  /** Sign in, choose the platform, extract a contest: a state of the system. */
  lemma StoredIsReached(det: Det, db: Listings, c: ContestStore.Contest)
    requires det.owner(1) == "g" && Announced(c)
    ensures EngineRuns.Reachable(det, db, Fresh(UserWith(["codeforces"]), Stored(c)))
  {
    var u0, u1, u2 := UserStore.START, UserWith([]), UserWith(["codeforces"]);
    SignedIn();
    Chosen();
    SavedOne(c);
    FreshUsers(u0, Contests0(), u1);
    FreshUsers(u1, Contests0(), u2);
    FreshStore(u2, Contests0(), Stored(c));
    EngineRuns.ReachStart(det, db);
    assert EngineRuns.START == Fresh(u0, Contests0());
    EngineRuns.ReachStep(det, db, Fresh(u0, Contests0()), EngineRuns.OnUsers(SignIn()));
    EngineRuns.ReachStep(det, db, Fresh(u1, Contests0()), EngineRuns.OnUsers(Choose(["codeforces"])));
    EngineRuns.ReachStep(det, db, Fresh(u2, Contests0()), EngineRuns.OnContests(Extracted(c)));
  }

  /** Then assemble it, and extract others with a batch that fails after its prune. */
  lemma OnlyCachedIsReached(det: Det, db: Listings, c: ContestStore.Contest, ids: seq<string>)
    requires det.owner(1) == "g" && Announced(c) && c.id !in ids
    ensures EngineRuns.Reachable(det, db, Fresh(UserWith(["codeforces"]), OnlyCached(c)))
  {
    var u := UserWith(["codeforces"]);
    StoredIsReached(det, db, c);
    CachedOne(c);
    PrunedOne(c, ids);
    FreshStore(u, Stored(c), StoredAndCached(c));
    FreshStore(u, StoredAndCached(c), OnlyCached(c));
    EngineRuns.ReachStep(det, db, Fresh(u, Stored(c)), EngineRuns.OnContests(Assembled(c)));
    EngineRuns.ReachStep(det, db, Fresh(u, StoredAndCached(c)), EngineRuns.OnContests(Pruned(ids)));
  }

  lemma CachedIsConsidered(db: Listings, e: Engine, env: Env, c: ContestStore.Contest)
    requires FaultFree(env) && env.valkey && e.store == OnlyCached(c)
    ensures Considered(db, e, ["codeforces"], env) == [ContestStore.Selected(c)]
  {
    var cache := e.store.cache;
    assert ContestStore.Missed(cache, ["codeforces"], env.get, 0) == [];
    assert ContestStore.Missed(cache, ["codeforces"], env.get, 1) == [];
    assert ContestStore.Hits(cache, ["codeforces"], env.get, 0) == [];
    assert ContestStore.Hits(cache, ["codeforces"], env.get, 1) == [] + [ContestStore.Selected(c)];
  }

  /** A reachable state of the system in which SyncUser, run twice with nothing changed and no fault, calls Google
      again the second time: the contest it sends has no row to record it for. */
  lemma PrunedContestIsSentAgain(det: Det, c: ContestStore.Contest, me: int)
    requires det.owner(1) == "g" && Announced(c)
    ensures exists e :: EngineRuns.Reachable(det, Database(), e) && SendsTwice(det, Database(), e, me)
  {
    var e := Fresh(UserWith(["codeforces"]), OnlyCached(c));
    DatabaseIsTruthful();
    QuietIsFaultFree();
    OnlyCachedIsReached(det, Database(), c, [c.id + "0"]);
    SentAgain(det, Database(), e, Quiet(), c, me);
    assert EngineRuns.Reachable(det, Database(), e) && SendsTwice(det, Database(), e, me);
  }

  ghost predicate SendsTwice(det: Det, db: Listings, e: Engine, me: int) {
    && me !in e.world.workers
    && var r := Sync(det, db, e, 1, me, Quiet()).0;
       me !in r.world.workers && Sync(det, db, r, 1, me, Quiet()).0.world.calls > r.world.calls
  }

  lemma FreshInv(det: Det, c: ContestStore.Contest, e: Engine)
    requires det.owner(1) == "g" && Announced(c) && e == Fresh(UserWith(["codeforces"]), OnlyCached(c))
    ensures SyncEngine.Inv(det, e)
  {
    assert UserStore.Inv(e.users);
    assert ContestStore.Inv(e.store);
  }

  lemma SentAgain(det: Det, db: Listings, e: Engine, env: Env, c: ContestStore.Contest, me: int)
    requires det.owner(1) == "g" && Announced(c) && Truthful(db) && FaultFree(env) && env.valkey
    requires e == Fresh(UserWith(["codeforces"]), OnlyCached(c))
    ensures
      var r := Sync(det, db, e, 1, me, env).0;
      me !in r.world.workers && Sync(det, db, r, 1, me, env).0.world.calls > r.world.calls
  {
    FreshInv(det, c, e);
    CachedIsConsidered(db, e, env, c);
    UnstoredIsSentAgain(det, db, e, 1, me, env, c.id);
  }

  /** Right after a fault-free run another one calls Google again when the only contest considered has no row. */
  lemma UnstoredIsSentAgain(det: Det, db: Listings, e: Engine, user: int, me: int, env: Env, id: string)
    requires Calm(det, db, e, user, me, env) && user !in e.synced && e.world.ledger == map[] && id !in e.store.rows
    requires
      var considered := Considered(db, e, Load(e, user, env).1.value.platforms, env);
      |considered| == 1 && considered[0].id == id
    ensures
      var r := Sync(det, db, e, user, me, env).0;
      me !in r.world.workers && Sync(det, db, r, user, me, env).0.world.calls > r.world.calls
  {
    SecondRunIsQuiet(det, db, e, user, me, env, env, {id});
    var r := Sync(det, db, e, user, me, env).0;
    SyncIsALedgerRun(det, db, e, user, me, env);
    SyncIsALedgerRun(det, db, r, user, me, env);
    ReachNeverShrinks(det, r.world, Sync(det, db, r, user, me, env).0.world);
  }

  lemma ReachNeverShrinks(det: Det, s: State, t: State)
    requires Reaches(det, s, t)
    ensures s.calls <= t.calls
  {
    var steps :| Valid(det, s, steps) && Final(det, s, steps) == t;
    CallsNeverShrink(det, s, steps);
  }

  // ---------- Runs of one user with one contest ----------

  /** Event ids without collisions, all of one account. */
  function PlainDet(): Det {
    Det(_ => "g", (_, contest) => contest)
  }

  lemma PlainIsInjective(ids: set<string>)
    ensures Injective(PlainDet(), 1, ids)
  {
  }

  function RowWith(platforms: seq<string>, dedicated: bool): UserStore.Row {
    NEW_ROW.(platforms := platforms, useDedicated := dedicated)
  }

  /** The user and the contest of the example, with nothing stale. */
  ghost predicate Scene(e: Engine, c: ContestStore.Contest, platforms: seq<string>, dedicated: bool, me: int) {
    && SyncEngine.Inv(PlainDet(), e) && me !in e.world.workers
    && e.users.rows == map[1 := RowWith(platforms, dedicated)] && 1 !in e.users.stale
    && e.store.rows == map[c.id := c] && e.store.now == 0 && e.store.stale == {}
  }

  /** Every id the user's rows or a run's contests can have. */
  function AllIds(db: Listings, e: Engine, platforms: seq<string>, env: Env): set<string> {
    var contests := Considered(db, e, platforms, env);
    LedgerIds(e.world, 1) + set i | 0 <= i < |contests| :: contests[i].id
  }

  lemma IdsCover(db: Listings, e: Engine, platforms: seq<string>, env: Env)
    ensures LedgerWithin(e.world, 1, AllIds(db, e, platforms, env))
    ensures AllIn(Considered(db, e, platforms, env), AllIds(db, e, platforms, env))
  {
    forall c | (1, c) in e.world.ledger ensures c in LedgerIds(e.world, 1) {
    }
  }

  lemma SceneLoads(e: Engine, c: ContestStore.Contest, platforms: seq<string>, dedicated: bool, me: int)
    requires Scene(e, c, platforms, dedicated, me)
    ensures
      var (e1, u) := Load(e, 1, Quiet());
      && u.Some? && u.value.platforms == platforms && u.value.useDedicated == dedicated && u.value.calendarId == ""
      && e1.users.rows == e.users.rows && 1 !in e1.users.stale
  {
    assert UserStore.Agreement(e.users);
  }

  lemma SceneIsCalm(db: Listings, e: Engine, c: ContestStore.Contest, platforms: seq<string>, dedicated: bool, me: int)
    requires Scene(e, c, platforms, dedicated, me) && Truthful(db)
    ensures Calm(PlainDet(), db, e, 1, me, Quiet())
  {
    QuietIsFaultFree();
  }

  lemma FillsKeepStaleEmpty(s: ContestStore.State, listing: seq<ContestStore.Contest>, missed: seq<string>,
                            put: nat -> bool)
    requires s.stale == {}
    ensures ContestStore.Fills(s, listing, missed, put).stale == {}
  {
    if missed != [] {
      FillsKeepStaleEmpty(s, listing, missed[..|missed| - 1], put);
    }
  }

  /** The caches a run may fill leave rows, time and staleness alone. */
  lemma ContestsKeepStore(db: Listings, e: Engine, platforms: seq<string>)
    requires ContestStore.Inv(e.store) && Truthful(db) && e.store.stale == {}
    ensures
      var store := Contests(db, e, platforms, Quiet()).0.store;
      store.rows == e.store.rows && store.now == e.store.now && store.stale == {}
  {
    AssemblyFacts(db, e, platforms, Quiet());
    var missed := ContestStore.Missed(e.store.cache, platforms, Quiet().get, |platforms|);
    FillsKeepStaleEmpty(e.store, db.contests(e.store.rows, e.store.now, missed), missed, Quiet().put);
  }

  lemma ReconcileKeepsStore(db: Listings, e: Engine, platforms: seq<string>, calendar: string, me: int)
    requires SyncEngine.Inv(PlainDet(), e) && me !in e.world.workers && Truthful(db) && e.store.stale == {}
    ensures
      var store := Reconcile(PlainDet(), db, e, 1, platforms, calendar, me, Quiet()).0.store;
      store.rows == e.store.rows && store.now == e.store.now && store.stale == {}
  {
    QuietIsFaultFree();
    PreparedFacts(PlainDet(), db, e, 1, platforms, calendar, me, Quiet());
    if platforms == [] {
      NothingSelected(PlainDet(), db, e, 1, calendar, me, Quiet());
    } else {
      ReconcileServed(PlainDet(), db, e, 1, platforms, calendar, me, Quiet());
      var p := Prepared(PlainDet(), db, e, 1, platforms, calendar, me, Quiet());
      ContestsKeepStore(db, ReadSynced(db, p, 1, Quiet()).0, platforms);
    }
  }

  /** A run in the primary calendar leaves the scene as it is. */
  lemma SceneAfterRun(db: Listings, e: Engine, c: ContestStore.Contest, platforms: seq<string>, me: int)
    requires Scene(e, c, platforms, false, me) && Truthful(db)
    ensures Scene(Sync(PlainDet(), db, e, 1, me, Quiet()).0, c, platforms, false, me)
  {
    QuietIsFaultFree();
    SceneLoads(e, c, platforms, false, me);
    SyncIsALedgerRun(PlainDet(), db, e, 1, me, Quiet());
    var e2, u, calendar := SyncIsReconcile(PlainDet(), db, e, 1, me, Quiet());
    ReconcileLeaves(PlainDet(), db, e2, 1, platforms, calendar, me, Quiet());
    ReconcileKeepsStore(db, e2, platforms, calendar, me);
  }

  // ---------- Choosing other preferences ----------

  function Prefer(platforms: seq<string>, dedicated: bool): UserStore.Step {
    UserStore.DoSave(1, platforms, dedicated, UserStore.QUIET)
  }

  ghost function Preferred(e: Engine, platforms: seq<string>, dedicated: bool): Engine {
    EngineRuns.WithUsers(e, UserStore.Apply(e.users, Prefer(platforms, dedicated)))
  }

  ghost predicate OneUser(users: UserStore.State, platforms: seq<string>, dedicated: bool) {
    UserStore.Inv(users) && users.rows == map[1 := RowWith(platforms, dedicated)] && 1 !in users.stale
  }

  lemma PreferenceAnswer(users: UserStore.State, platforms: seq<string>, dedicated: bool, platforms': seq<string>,
                         dedicated': bool)
    requires OneUser(users, platforms, dedicated)
    requires UserStore.Differs(platforms', dedicated', platforms, dedicated) && UserStore.AllAllowed(platforms')
    ensures UserStore.Current(users, 1, UserStore.QUIET) == Some((platforms, dedicated))
    ensures
      var (users', response) := UserStore.Save(users, 1, platforms', dedicated', UserStore.QUIET);
      response.Saved? && 1 !in users'.stale
  {
    assert UserStore.Agreement(users);
  }

  lemma SavedPreference(users: UserStore.State, platforms: seq<string>, dedicated: bool, platforms': seq<string>,
                        dedicated': bool)
    requires OneUser(users, platforms, dedicated)
    requires UserStore.Differs(platforms', dedicated', platforms, dedicated) && UserStore.AllAllowed(platforms')
    ensures
      var users' := UserStore.Apply(users, Prefer(platforms', dedicated'));
      OneUser(users', platforms', dedicated') && users'.owners == users.owners
  {
    UserStore.SaveKeepsInv(users, 1, platforms', dedicated', UserStore.QUIET);
    PreferenceAnswer(users, platforms, dedicated, platforms', dedicated');
    UserStore.SaveKeepsIds(users, 1, platforms', dedicated', UserStore.QUIET);
    UserStore.SavedRows(users, 1, platforms', dedicated', UserStore.QUIET);
  }

  /** Preferences change the row and nothing else. */
  lemma SceneAfterChoice(db: Listings, e: Engine, c: ContestStore.Contest, platforms: seq<string>, dedicated: bool,
                         platforms': seq<string>, dedicated': bool, me: int)
    requires Scene(e, c, platforms, dedicated, me) && Truthful(db)
    requires UserStore.Differs(platforms', dedicated', platforms, dedicated) && UserStore.AllAllowed(platforms')
    ensures EngineRuns.Enabled(PlainDet(), e, EngineRuns.OnUsers(Prefer(platforms', dedicated')))
    ensures
      var r := Preferred(e, platforms', dedicated');
      Scene(r, c, platforms', dedicated', me) && r.world == e.world && r.store == e.store && r.synced == e.synced
  {
    SavedPreference(e.users, platforms, dedicated, platforms', dedicated');
    SceneSwap(e, c, platforms, dedicated, platforms', dedicated', me,
              UserStore.Apply(e.users, Prefer(platforms', dedicated')));
  }

  lemma SceneSwap(e: Engine, c: ContestStore.Contest, platforms: seq<string>, dedicated: bool, platforms': seq<string>,
                  dedicated': bool, me: int, users: UserStore.State)
    requires Scene(e, c, platforms, dedicated, me) && UserStore.Inv(users) && users.owners == e.users.owners
    requires users.rows == map[1 := RowWith(platforms', dedicated')] && 1 !in users.stale
    ensures EngineRuns.WithUsers(e, users) == e.(users := users)
    ensures Scene(e.(users := users), c, platforms', dedicated', me)
  {
    assert users.rows.Keys == {1} == e.users.rows.Keys;
    SwapUsers(PlainDet(), e, users);
  }

  /** Users in place of others with the same ids leave the rest as it is. */
  lemma SwapUsers(det: Det, e: Engine, users: UserStore.State)
    requires SyncEngine.Inv(det, e) && UserStore.Inv(users) && users.rows.Keys == e.users.rows.Keys
    requires users.owners == e.users.owners
    ensures EngineRuns.WithUsers(e, users) == e.(users := users) && SyncEngine.Inv(det, e.(users := users))
  {
    assert RowsOk(det, e.world);
    assert EngineRuns.Cascade(e.world, users.rows.Keys, e.world.contests).ledger == e.world.ledger;
  }

  lemma Chooses(platforms: seq<string>, dedicated: bool)
    requires platforms == [] || platforms == ["codeforces"]
    ensures UserStore.AllAllowed(platforms)
    ensures UserStore.Differs([], false, ["codeforces"], false) && UserStore.Differs(["codeforces"], false, [], false)
    ensures UserStore.Differs(["codeforces"], true, ["codeforces"], false)
  {
    assert multiset(["codeforces"])["codeforces"] == 1;
    assert "codeforces" == Ids.PLATFORMS[1];
  }

  // ---------- After the first run ----------

  lemma SceneWants(e: Engine, c: ContestStore.Contest, dedicated: bool, me: int)
    requires Scene(e, c, ["codeforces"], dedicated, me) && Announced(c)
    ensures Load(e, 1, Quiet()).1.Some? && SyncReselect.Wanted(e, 1, Quiet(), c.id)
  {
    SceneLoads(e, c, ["codeforces"], dedicated, me);
  }

  /** The first run records the contest and leaves no cached ids. */
  lemma FirstSync(db: Listings, e: Engine, c: ContestStore.Contest, me: int)
    requires Scene(e, c, ["codeforces"], false, me) && Announced(c) && Truthful(db)
    requires 1 !in e.synced && e.world.ledger == map[]
    ensures
      var r := Sync(PlainDet(), db, e, 1, me, Quiet()).0;
      (1, c.id) in r.world.ledger && 1 !in r.synced
  {
    var platforms, env := ["codeforces"], Quiet();
    var ids := AllIds(db, e, platforms, env);
    SceneIsCalm(db, e, c, platforms, false, me);
    SceneLoads(e, c, platforms, false, me);
    SceneWants(e, c, false, me);
    PlainIsInjective(ids);
    IdsCover(db, e, platforms, env);
    FaultFreeRunSyncsEverything(PlainDet(), db, e, 1, me, env, ids, c.id);
    UpcomingIsConsidered(db, e, platforms, env, c.id);
    ConsideredIsNew(Considered(db, e, platforms, env), SyncReselect.SelectedIds(e, 1, platforms), e.store.rows.Keys,
                    c.id);
    SyncReselect.RunFillsCache(PlainDet(), db, e, 1, me, env, ids);
  }

  lemma ConsideredIsNew(contests: seq<ContestStore.Contest>, synced: set<string>, stored: set<string>, id: string)
    requires HasContest(contests, id) && id !in synced && id in stored
    ensures SyncReselect.SomeNew(contests, synced, stored)
  {
    var i :| 0 <= i < |contests| && contests[i].id == id;
  }

  /** The second run caches the id. */
  lemma SecondSync(db: Listings, e: Engine, c: ContestStore.Contest, me: int)
    requires Scene(e, c, ["codeforces"], false, me) && Announced(c) && Truthful(db)
    requires 1 !in e.synced && (1, c.id) in e.world.ledger
    ensures
      var r := Sync(PlainDet(), db, e, 1, me, Quiet()).0;
      (1, c.id) in r.world.ledger && 1 in r.synced && c.id in r.synced[1]
  {
    var platforms, env := ["codeforces"], Quiet();
    var ids := AllIds(db, e, platforms, env);
    var r := Sync(PlainDet(), db, e, 1, me, env).0;
    SceneIsCalm(db, e, c, platforms, false, me);
    SceneLoads(e, c, platforms, false, me);
    SceneWants(e, c, false, me);
    PlainIsInjective(ids);
    IdsCover(db, e, platforms, env);
    SyncReselect.RunFillsCache(PlainDet(), db, e, 1, me, env, ids);
    assert c.id in SyncReselect.SelectedIds(e, 1, platforms);
    assert !SyncReselect.SomeNew(Considered(db, e, platforms, env), SyncReselect.SelectedIds(e, 1, platforms), {c.id});
    KeptRow(db, e, c, me);
    assert c.id in LedgerIds(r.world, 1);
    assert c.id in SyncReselect.CachedIds(r, 1);
  }

  /** A run keeps the row of the contest while its platform is selected. */
  lemma KeptRow(db: Listings, e: Engine, c: ContestStore.Contest, me: int)
    requires Scene(e, c, ["codeforces"], false, me) && Announced(c) && Truthful(db) && (1, c.id) in e.world.ledger
    ensures (1, c.id) in Sync(PlainDet(), db, e, 1, me, Quiet()).0.world.ledger
  {
    SceneLoads(e, c, ["codeforces"], false, me);
    SceneAfterRun(db, e, c, ["codeforces"], me);
    SyncedIds.SyncRemoves(PlainDet(), db, e, 1, me, Quiet(), (1, c.id));
  }

  // ---------- A contest deselected and selected again ----------

  /** A wanted contest that a fault-free run does not record. */
  ghost predicate Skips(db: Listings, e: Engine, c: ContestStore.Contest, me: int) {
    && Calm(PlainDet(), db, e, 1, me, Quiet()) && Load(e, 1, Quiet()).1.Some?
    && SyncReselect.Wanted(e, 1, Quiet(), c.id)
    && (1, c.id) !in Sync(PlainDet(), db, e, 1, me, Quiet()).0.world.ledger
  }

  /** The run that deselects everything removes the row and keeps the id cached. */
  lemma DeselectingSync(db: Listings, e: Engine, c: ContestStore.Contest, me: int)
    requires Scene(e, c, [], false, me) && Announced(c) && Truthful(db)
    requires (1, c.id) in e.world.ledger && 1 in e.synced && c.id in e.synced[1]
    ensures
      var r := Sync(PlainDet(), db, e, 1, me, Quiet()).0;
      (1, c.id) !in r.world.ledger && 1 in r.synced && c.id in r.synced[1]
  {
    var env := Quiet();
    var ids := AllIds(db, e, [], env);
    SceneIsCalm(db, e, c, [], false, me);
    SceneLoads(e, c, [], false, me);
    PlainIsInjective(ids);
    IdsCover(db, e, [], env);
    SyncReselect.NothingNew(db, e, env, SyncReselect.CachedIds(e, 1), e.store.rows.Keys);
    SyncReselect.DeselectedIdStaysIff(PlainDet(), db, e, 1, me, env, ids, c.id);
  }

  lemma SkippedAtLast(db: Listings, e: Engine, c: ContestStore.Contest, me: int)
    requires Scene(e, c, ["codeforces"], false, me) && Announced(c) && Truthful(db)
    requires (1, c.id) !in e.world.ledger && 1 in e.synced && c.id in e.synced[1]
    ensures Skips(db, e, c, me)
  {
    SceneIsCalm(db, e, c, ["codeforces"], false, me);
    SceneWants(e, c, false, me);
    CachedIsNeverRecorded(PlainDet(), db, e, 1, me, Quiet(), c.id);
  }

  lemma FreshScene(c: ContestStore.Contest, me: int)
    requires Announced(c)
    ensures Scene(Fresh(UserWith(["codeforces"]), Stored(c)), c, ["codeforces"], false, me)
  {
    UserInv(["codeforces"]);
    StoredInv(c);
  }

  lemma UserInv(platforms: seq<string>)
    ensures UserStore.Inv(UserWith(platforms))
  {
  }

  lemma StoredInv(c: ContestStore.Contest)
    requires Announced(c)
    ensures ContestStore.Inv(Stored(c))
  {
    assert forall p :: ContestStore.Covers(Stored(c), p);
  }

  /** From the start: sign in, choose the platform, extract the contest, sync twice. */
  lemma CachedScene(db: Listings, c: ContestStore.Contest, me: int) returns (e: Engine)
    requires Announced(c) && Truthful(db)
    ensures EngineRuns.Reachable(PlainDet(), db, e) && Scene(e, c, ["codeforces"], false, me)
    ensures (1, c.id) in e.world.ledger && 1 in e.synced && c.id in e.synced[1]
  {
    var step := EngineRuns.SyncRun(1, me, Quiet());
    e := Fresh(UserWith(["codeforces"]), Stored(c));
    StoredIsReached(PlainDet(), db, c);
    FreshScene(c, me);
    FirstSync(db, e, c, me);
    SceneAfterRun(db, e, c, ["codeforces"], me);
    EngineRuns.ReachStep(PlainDet(), db, e, step);
    e := Sync(PlainDet(), db, e, 1, me, Quiet()).0;
    SecondSync(db, e, c, me);
    SceneAfterRun(db, e, c, ["codeforces"], me);
    EngineRuns.ReachStep(PlainDet(), db, e, step);
    e := Sync(PlainDet(), db, e, 1, me, Quiet()).0;
  }

  /** Then deselect everything, sync, and select the platform again: a reachable state in which a stored, upcoming
      contest of a selected platform is skipped by a fault-free run. */
  lemma ReselectedExample(c: ContestStore.Contest, me: int)
    requires Announced(c)
    ensures exists e :: EngineRuns.Reachable(PlainDet(), Database(), e) && Skips(Database(), e, c, me)
  {
    var db := Database();
    DatabaseIsTruthful();
    var e0 := CachedScene(db, c, me);
    Chooses([], false);
    Chooses(["codeforces"], false);
    SceneAfterChoice(db, e0, c, ["codeforces"], false, [], false, me);
    var e1 := Preferred(e0, [], false);
    EngineRuns.ReachStep(PlainDet(), db, e0, EngineRuns.OnUsers(Prefer([], false)));
    DeselectingSync(db, e1, c, me);
    SceneAfterRun(db, e1, c, [], me);
    var e2 := Sync(PlainDet(), db, e1, 1, me, Quiet()).0;
    EngineRuns.ReachStep(PlainDet(), db, e1, EngineRuns.SyncRun(1, me, Quiet()));
    SceneAfterChoice(db, e2, c, [], false, ["codeforces"], false, me);
    var e3 := Preferred(e2, ["codeforces"], false);
    EngineRuns.ReachStep(PlainDet(), db, e2, EngineRuns.OnUsers(Prefer(["codeforces"], false)));
    SkippedAtLast(db, e3, c, me);
    assert EngineRuns.Reachable(PlainDet(), db, e3) && Skips(db, e3, c, me);
  }

  // ---------- A switch to a dedicated calendar ----------

  /** The contest is wanted and recorded, and the calendar of the fault-free run has no live event for it. */
  ghost predicate LeavesEmpty(db: Listings, e: Engine, c: ContestStore.Contest, me: int) {
    && Calm(PlainDet(), db, e, 1, me, Quiet()) && Load(e, 1, Quiet()).1.Some?
    && SyncReselect.Wanted(e, 1, Quiet(), c.id)
    && SyncEvents.RunCalendar(PlainDet(), e, 1, Quiet()) == Some("calendar")
    && var t := Sync(PlainDet(), db, e, 1, me, Quiet()).0.world;
       (1, c.id) in t.ledger && !SyncEvents.Live(t, CalendarKey("g", "calendar"), c.id, c.id)
  }

  /** From the start: sign in, choose, extract, sync in the primary calendar, switch to a dedicated one, sync: the
      row counts as synced and the new calendar stays empty. */
  lemma SwitchedCalendarExample(c: ContestStore.Contest, me: int)
    requires Announced(c)
    ensures exists e :: EngineRuns.Reachable(PlainDet(), Database(), e) && LeavesEmpty(Database(), e, c, me)
  {
    var db, step := Database(), EngineRuns.SyncRun(1, me, Quiet());
    DatabaseIsTruthful();
    var e0 := Fresh(UserWith(["codeforces"]), Stored(c));
    StoredIsReached(PlainDet(), db, c);
    FreshScene(c, me);
    FirstSync(db, e0, c, me);
    SceneAfterRun(db, e0, c, ["codeforces"], me);
    EngineRuns.ReachStep(PlainDet(), db, e0, step);
    var e1 := Sync(PlainDet(), db, e0, 1, me, Quiet()).0;
    PrimaryOnly(db, e0, c, me);
    Chooses(["codeforces"], true);
    SceneAfterChoice(db, e1, c, ["codeforces"], false, ["codeforces"], true, me);
    var e2 := Preferred(e1, ["codeforces"], true);
    EngineRuns.ReachStep(PlainDet(), db, e1, EngineRuns.OnUsers(Prefer(["codeforces"], true)));
    StaysEmpty(db, e2, c, me);
    assert EngineRuns.Reachable(PlainDet(), db, e2) && LeavesEmpty(db, e2, c, me);
  }

  /** A run in the primary calendar leaves the one to come empty. */
  lemma PrimaryOnly(db: Listings, e: Engine, c: ContestStore.Contest, me: int)
    requires Scene(e, c, ["codeforces"], false, me) && c.id !in Calendar(e.world, CalendarKey("g", "calendar"))
    ensures c.id !in Calendar(Sync(PlainDet(), db, e, 1, me, Quiet()).0.world, CalendarKey("g", "calendar"))
  {
    SceneLoads(e, c, ["codeforces"], false, me);
    SyncLive.OtherCalendarsUntouched(PlainDet(), db, e, 1, me, Quiet(), CalendarKey("g", "calendar"), c.id);
  }

  lemma StaysEmpty(db: Listings, e: Engine, c: ContestStore.Contest, me: int)
    requires Scene(e, c, ["codeforces"], true, me) && Announced(c) && Truthful(db)
    requires 1 !in e.synced && (1, c.id) in e.world.ledger && c.id !in Calendar(e.world, CalendarKey("g", "calendar"))
    ensures LeavesEmpty(db, e, c, me)
  {
    var platforms, env := ["codeforces"], Quiet();
    var ids := AllIds(db, e, platforms, env);
    SceneIsCalm(db, e, c, platforms, true, me);
    SceneLoads(e, c, platforms, true, me);
    SceneWants(e, c, true, me);
    PlainIsInjective(ids);
    IdsCover(db, e, platforms, env);
    SwitchedKeepsRow(db, e, c, me);
    assert c.id in LedgerIds(e.world, 1);
    SyncLive.RowIsLiveIff(PlainDet(), db, e, 1, me, env, ids, c.id);
    ReadsTheRow(db, e, c, me);
  }

  lemma SwitchedKeepsRow(db: Listings, e: Engine, c: ContestStore.Contest, me: int)
    requires Scene(e, c, ["codeforces"], true, me) && Announced(c) && Truthful(db) && (1, c.id) in e.world.ledger
    ensures (1, c.id) in Sync(PlainDet(), db, e, 1, me, Quiet()).0.world.ledger
  {
    SceneLoads(e, c, ["codeforces"], true, me);
    SyncRevocation.OnlyRevocationForgets(PlainDet(), db, e, 1, me, Quiet());
    SyncedIds.SyncRemoves(PlainDet(), db, e, 1, me, Quiet(), (1, c.id));
  }

  /** Without cached ids the run reads the row as synced. */
  lemma ReadsTheRow(db: Listings, e: Engine, c: ContestStore.Contest, me: int)
    requires Scene(e, c, ["codeforces"], true, me) && Announced(c) && Truthful(db)
    requires 1 !in e.synced && (1, c.id) in e.world.ledger
    ensures c.id in SyncLive.RunReads(PlainDet(), db, e, 1, me, Quiet())
  {
    QuietIsFaultFree();
    SceneIsCalm(db, e, c, ["codeforces"], true, me);
    SceneLoads(e, c, ["codeforces"], true, me);
    SyncLive.SameRunCalendar(PlainDet(), db, e, 1, me, Quiet());
    var e2, u, calendar := SyncIsReconcile(PlainDet(), db, e, 1, me, Quiet());
    SyncReselect.MissReads(PlainDet(), db, e2, 1, ["codeforces"], SyncEvents.RunCalendar(PlainDet(), e, 1,
                           Quiet()).value,
                           me, Quiet());
    assert c.id in SyncReselect.SelectedIds(e2, 1, ["codeforces"]);
  }
}
