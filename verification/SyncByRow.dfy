/**
  What a run of SyncUser does, said from the user's row alone: which calendar it writes to,
  which rows it leaves, when it reports an error. The user may be read from the cache; the
  entry is not stale.
 */
module SyncByRow {
  import opened Common
  import opened Ledger
  import opened SyncEngine
  import opened SyncIdempotence
  import opened SyncEvents
  import opened SyncLive
  import ContestStore
  import UserStore

  /** The calendar the row asks for; none when the grant is gone before a dedicated one could be created. */
  function CalendarOf(r: UserStore.Row, creation: Creation): Option<string> {
    if !r.useDedicated then Some("primary")
    else if r.calendarId.Some? && r.calendarId.value != "" && r.calendarId.value != "primary" then r.calendarId
    else
      match creation
      case Created(id) => Some(id)
      case CreationFailed => Some("primary")
      case CreationRevoked => None
  }

  ghost predicate Known(e: Engine, user: int) {
    user in e.users.rows && user !in e.users.stale
  }

  /** Cached or not, the loaded user is the row's. */
  lemma LoadedAgrees(det: Det, e: Engine, user: int, env: Env)
    requires SyncEngine.Inv(det, e) && Known(e, user) && Load(e, user, env).1.Some?
    ensures UserStore.Agrees(user, Load(e, user, env).1.value, e.users.rows[user])
  {
    assert UserStore.Agreement(e.users);
  }

  lemma RunCalendarIsTheRows(det: Det, e: Engine, user: int, env: Env)
    requires SyncEngine.Inv(det, e) && Known(e, user) && Load(e, user, env).1.Some?
    ensures RunCalendar(det, e, user, env) == CalendarOf(e.users.rows[user], env.creation)
    ensures det.owner(user) == e.users.rows[user].googleId
  {
    LoadedAgrees(det, e, user, env);
  }

  /** The row wants a dedicated calendar and remembers none. */
  predicate WantsCalendar(r: UserStore.Row) {
    r.useDedicated && (r.calendarId.None? || r.calendarId.value == "" || r.calendarId.value == "primary")
  }

  lemma ChoosesByRow(det: Det, e: Engine, user: int, u: UserStore.CachedUser, env: Env)
    requires user in e.users.rows && UserStore.Agrees(user, u, e.users.rows[user])
    ensures
      var r, t := e.users.rows[user], ChooseCalendar(det, e, user, u, env).0;
      && t.world == e.world.(calls := e.world.calls + if WantsCalendar(r) then 1 else 0)
      && user in t.users.rows
      && t.users.rows[user].calendarId ==
           (if WantsCalendar(r) && env.creation.Created? && !env.calendarDb.Refused? then Some(env.creation.id)
            else r.calendarId)
  {
  }

  /** The run asks Google for a new calendar, with one call, exactly when the row wants a dedicated one and remembers
      none; one that is created is then remembered, unless the statement is refused. */
  lemma CreatesIff(det: Det, e: Engine, user: int, env: Env)
    requires SyncEngine.Inv(det, e) && Known(e, user) && Load(e, user, env).1.Some?
    ensures
      var r, loaded := e.users.rows[user], Load(e, user, env);
      var t := ChooseCalendar(det, loaded.0, user, loaded.1.value, env).0;
      && t.world == e.world.(calls := e.world.calls + if WantsCalendar(r) then 1 else 0)
      && user in t.users.rows
      && t.users.rows[user].calendarId ==
           (if WantsCalendar(r) && env.creation.Created? && !env.calendarDb.Refused? then Some(env.creation.id)
            else r.calendarId)
  {
    var loaded := Load(e, user, env);
    LoadedAgrees(det, e, user, env);
    LoadTouchesOnlyUsers(e, user, env);
    ChoosesByRow(det, loaded.0, user, loaded.1.value, env);
  }

  /** A user that is not in the cache and is read gets an entry that agrees with the row, exactly with Valkey and a
      write that succeeds; else the caches stay as they are. */
  lemma LoadCachesIff(e: Engine, user: int, env: Env)
    requires user in e.users.rows
    ensures
      var t := Load(e, user, env).0;
      var missed := !(env.valkey && env.getUser && user in e.users.cache);
      if missed && env.readUser && env.valkey && env.setUser then
        && t == e.(users := t.users) && t.users == e.users.(cache := t.users.cache, stale := e.users.stale - {user})
        && t.users.cache.Keys == e.users.cache.Keys + {user}
        && UserStore.Agrees(user, t.users.cache[user], e.users.rows[user])
        && forall id :: id in e.users.cache && id != user ==> t.users.cache[id] == e.users.cache[id]
      else t == e
  {
  }

  lemma NotLoadedNothingDone(det: Det, db: Listings, e: Engine, user: int, me: int, env: Env)
    requires me !in e.world.workers && Load(e, user, env).1.None?
    ensures Sync(det, db, e, user, me, env).0.world == e.world
  {
    LoadTouchesOnlyUsers(e, user, env);
  }

  /** Whatever fails, a ledger row that the run adds has its event live, when the run ends, in the calendar the
      user's row asks for, in the account of the row. */
  lemma NewRowIsInTheRowsCalendar(det: Det, db: Listings, e: Engine, user: int, me: int, env: Env, ids: set<string>,
                                  c: string)
    requires SyncEngine.Inv(det, e) && me !in e.world.workers && Known(e, user)
    requires Injective(det, user, ids) && c in ids && AllIn(Considered(db, e, e.users.rows[user].platforms, env), ids)
    ensures
      var r, t := e.users.rows[user], Sync(det, db, e, user, me, env).0.world;
      var calendar := CalendarOf(r, env.creation);
      (user, c) in t.ledger && (user, c) !in e.world.ledger ==>
        calendar.Some? && Live(t, CalendarKey(r.googleId, calendar.value), det.Id(user, c), c)
  {
    if Load(e, user, env).1.Some? {
      LoadedAgrees(det, e, user, env);
      RunCalendarIsTheRows(det, e, user, env);
      NewRowHasLiveEvent(det, db, e, user, me, env, ids, c);
    } else {
      NotLoadedNothingDone(det, db, e, user, me, env);
    }
  }

  /** Whatever fails, the run changes nothing in any other calendar. */
  lemma OnlyTheRowsCalendarChanges(det: Det, db: Listings, e: Engine, user: int, me: int, env: Env, key: CalendarKey,
                                   event: string)
    requires SyncEngine.Inv(det, e) && me !in e.world.workers && Known(e, user)
    requires
      var r := e.users.rows[user];
      CalendarOf(r, env.creation).Some? ==> key != CalendarKey(r.googleId, CalendarOf(r, env.creation).value)
    ensures SameEntry(e.world, Sync(det, db, e, user, me, env).0.world, key, event)
  {
    if Load(e, user, env).1.Some? {
      RunCalendarIsTheRows(det, e, user, env);
      OtherCalendarsUntouched(det, db, e, user, me, env, key, event);
    } else {
      NotLoadedNothingDone(det, db, e, user, me, env);
      SameCalendarsSameEntry(e.world, Sync(det, db, e, user, me, env).0.world, key, event);
    }
  }

  /** After a run that returns nil with its statements succeeding, every ledger row of the user is of a platform in
      the user's row, even when every Google delete fails. */
  lemma OnlyTheRowsPlatformsRemain(det: Det, db: Listings, e: Engine, user: int, me: int, env: Env)
    requires SyncEngine.Inv(det, e) && me !in e.world.workers && Truthful(db) && Known(e, user)
    requires env.joinOk && (forall k :: !env.rowDeletes(k).Refused?) && !env.forgetDb.Refused?
    requires !Sync(det, db, e, user, me, env).1
    ensures OnlySelected(Sync(det, db, e, user, me, env).0, user, e.users.rows[user].platforms)
  {
    DeselectionIsComplete(det, db, e, user, me, env);
    LoadedAgrees(det, e, user, env);
  }

  // ---------- Errors ----------

  /** The user can be had from the cache or from the table. */
  predicate Readable(e: Engine, user: int, env: Env) {
    (env.valkey && env.getUser && user in e.users.cache) || (env.readUser && user in e.users.rows)
  }

  /** The contests query is needed and fails. */
  predicate QueryFails(e: Engine, platforms: seq<string>, env: Env) {
    !env.queryOk && (env.valkey ==> exists i :: 0 <= i < |platforms| && !(env.get(i) && platforms[i] in e.store.cache))
  }

  lemma {:induction false} MissedIff(cache: map<string, seq<ContestStore.Contest>>, platforms: seq<string>,
                                     get: nat -> bool, n: nat)
    requires n <= |platforms|
    ensures ContestStore.Missed(cache, platforms, get, n) != [] <==>
              exists i :: 0 <= i < n && !(get(i) && platforms[i] in cache)
  {
    if n > 0 {
      MissedIff(cache, platforms, get, n - 1);
    }
  }

  lemma ContestsFailIff(db: Listings, e: Engine, platforms: seq<string>, env: Env)
    ensures Contests(db, e, platforms, env).1.None? <==> QueryFails(e, platforms, env)
  {
    MissedIff(e.store.cache, platforms, env.get, |platforms|);
  }

  lemma ReconcileErrsIff(det: Det, db: Listings, e: Engine, user: int, platforms: seq<string>, calendar: string,
                         me: int,
                         env: Env)
    requires me !in e.world.workers
    ensures Reconcile(det, db, e, user, platforms, calendar, me, env).1 <==>
              platforms != [] && QueryFails(e, platforms, env)
  {
    var p := Prepared(det, db, e, user, platforms, calendar, me, env);
    var (p', synced) := ReadSynced(db, p, user, env);
    ContestsFailIff(db, p', platforms, env);
  }

  lemma AuthorizedErrsIff(det: Det, db: Listings, e: Engine, user: int, u: UserStore.CachedUser, me: int, env: Env)
    requires me !in e.world.workers
    ensures
      var calendar := ChooseCalendar(det, e, user, u, env).1;
      Authorized(det, db, e, user, u, me, env).1 <==>
        !env.auth || env.primary.Bad?
        || (env.primary.Good? && calendar.Some? && u.platforms != [] && QueryFails(e, u.platforms, env))
  {
    var (e1, calendar) := ChooseCalendar(det, e, user, u, env);
    ChooseKeepsTables(det, e, user, u, env);
    if env.auth && env.primary.Good? && calendar.Some? {
      ReconcileErrsIff(det, db, e1, user, u.platforms, calendar.value, me, env);
    }
  }

  /** A run reports an error exactly when the lock is taken, the user cannot be read, the grant cannot be used, the
      primary calendar cannot be fetched, or the contests are needed and cannot be read. */
  lemma RunErrsIff(det: Det, db: Listings, e: Engine, user: int, me: int, env: Env)
    requires SyncEngine.Inv(det, e) && me !in e.world.workers && Known(e, user)
    ensures
      var r := e.users.rows[user];
      Sync(det, db, e, user, me, env).1 <==>
        || !env.lock || !Readable(e, user, env) || !env.auth || env.primary.Bad?
        || (env.primary.Good? && CalendarOf(r, env.creation).Some? && r.platforms != []
            && QueryFails(e, r.platforms, env))
  {
    var (e1, u) := Load(e, user, env);
    LoadTouchesOnlyUsers(e, user, env);
    assert u.Some? <==> Readable(e, user, env);
    if u.Some? {
      LoadedAgrees(det, e, user, env);
      RunCalendarIsTheRows(det, e, user, env);
      AuthorizedErrsIff(det, db, e1, user, u.value, me, env);
    }
  }
}
