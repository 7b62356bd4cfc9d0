/**
  SyncUser as it is written, loop by loop, over the tables and caches it updates in place,
  proved equal to SyncEngine.Sync.
 */
module Syncer {
  import opened Common
  import opened Ledger
  import opened SyncEngine
  import ContestStore
  import UserStore

  lemma {:induction false} HaltedStays(det: Det, s: State, me: int, contests: seq<ContestStore.Contest>,
                                       synced: set<string>, env: Env, n: nat)
    requires AtRest(s, me) && n <= |contests|
    requires SyncAll(det, s, me, contests[..n], synced, env).workers[me].phase.Halted?
    ensures SyncAll(det, s, me, contests, synced, env) == SyncAll(det, s, me, contests[..n], synced, env)
    decreases |contests|
  {
    if n < |contests| {
      var init := contests[..|contests| - 1];
      assert init[..n] == contests[..n];
      HaltedStays(det, s, me, init, synced, env, n);
    } else {
      assert contests[..n] == contests;
    }
  }

  lemma NextContest(det: Det, s: State, me: int, contests: seq<ContestStore.Contest>, synced: set<string>, env: Env,
                    i: nat)
    requires AtRest(s, me) && i < |contests|
    requires SyncAll(det, s, me, contests[..i], synced, env).workers[me].phase.Idle?
    ensures
      var s1 := SyncAll(det, s, me, contests[..i], synced, env);
      SyncAll(det, s, me, contests[..i + 1], synced, env) ==
        if contests[i].id in synced then s1 else Drive(det, Apply(det, s1, Pick(me, contests[i].id)), me, i, env)
  {
    assert contests[..i + 1][..i] == contests[..i];
  }

  class Syncer {
    const det: Det
    const db: Listings
    const stores: ContestStore.Stores
    var users: UserStore.State
    var world: State
    var synced: map<int, seq<string>>

    constructor (det: Det, db: Listings, stores: ContestStore.Stores, users: UserStore.State, world: State,
                 synced: map<int, seq<string>>)
      ensures this.det == det && this.db == db && this.stores == stores
      ensures Value() == Engine(users, stores.Value(), world, synced)
    {
      this.det, this.db, this.stores := det, db, stores;
      this.users, this.world, this.synced := users, world, synced;
    }

    ghost function Value(): Engine
      reads this, stores
    {
      Engine(users, stores.Value(), world, synced)
    }

    method Do(step: Step)
      requires Enabled(world, step)
      modifies this`world
      ensures world == Apply(det, old(world), step)
    {
      world := Apply(det, world, step);
    }

    method LoadUser(user: int, env: Env) returns (u: Option<UserStore.CachedUser>)
      modifies this`users
      ensures (Value(), u) == Load(old(Value()), user, env)
    {
      if env.valkey && env.getUser && user in users.cache {
        return Some(users.cache[user]);
      }
      if !env.readUser || user !in users.rows {
        return None;
      }
      var loaded := UserStore.Cached(user, users.rows[user], false);
      if env.valkey && env.setUser {
        users := users.(cache := users.cache[user := loaded], stale := users.stale - {user});
      }
      return Some(loaded);
    }

    method HandleRevoked(user: int, env: Env)
      modifies this`users, this`world
      ensures Value() == Forget(det, old(Value()), user, env)
      ensures !env.forgetDb.Refused? ==> user !in users.rows && forall c :: (user, c) !in world.ledger
      ensures env.forgetDel ==> user !in users.cache
      ensures users.rows.Keys - {user} == old(users.rows.Keys) - {user} && world.calendars == old(world.calendars)
      ensures forall other :: other in old(users.rows) && other != user ==> users.rows[other] == old(users.rows[other])
    {
      users := UserStore.Revoke(users, user, env.forgetDb, env.forgetDel);
      if !env.forgetDb.Refused? {
        Do(RemoveUser(user));
      }
    }

    method PickCalendar(user: int, u: UserStore.CachedUser, env: Env) returns (calendar: Option<string>)
      modifies this`users, this`world
      ensures (Value(), calendar) == ChooseCalendar(det, old(Value()), user, u, env)
    {
      if !u.useDedicated {
        return Some("primary");
      }
      if HasCalendar(u) {
        return Some(u.calendarId);
      }
      Do(CreateCalendar);
      match env.creation
      case Created(id) =>
        users := UserStore.SetCalendar(users, user, id, env.calendarDb, env.calendarDel);
        return Some(id);
      case CreationRevoked =>
        return None;
      case CreationFailed =>
        return Some("primary");
    }

    method CollectUnselected(user: int, platforms: seq<string>) returns (list: seq<(string, string)>)
      ensures list == Unselected(Value(), user, platforms, db.join(world, user))
    {
      var selected := set p | p in platforms;
      var ids := db.join(world, user);
      list := [];
      for i := 0 to |ids|
        invariant list == Unselected(Value(), user, platforms, ids[..i])
      {
        assert ids[..i + 1][..i] == ids[..i];
        var c := ids[i];
        if c in stores.rows && stores.rows[c].platform !in selected && (user, c) in world.ledger {
          list := list + [(c, world.ledger[(user, c)])];
        }
      }
      assert ids[..|ids|] == ids;
    }

    method DeleteEventRetrying(me: int, event: string, k: nat, env: Env)
      requires me in world.workers
      modifies this`world
      ensures world == TryDelete(det, old(world), me, event, k, 1, env)
    {
      var attempt := 1;
      while attempt <= TRIES
        invariant 1 <= attempt && me in world.workers
        invariant TryDelete(det, world, me, event, k, attempt, env) == TryDelete(det, old(world), me, event, k, 1, env)
      {
        var answer := env.deletes(k, attempt);
        Do(DeleteEvent(me, event, if answer.NotFound? then Failed else answer.reply));
        if answer.NotFound? || answer.reply.Served? {
          return;
        }
        attempt := attempt + 1;
      }
    }

    method DeleteListed(me: int, list: seq<(string, string)>, env: Env)
      requires me in world.workers
      modifies this`world
      ensures world == DeleteAll(det, old(world), me, list, env)
    {
      for k := 0 to |list|
        invariant world == DeleteAll(det, old(world), me, list[..k], env)
      {
        assert list[..k + 1][..k] == list[..k];
        DeleteEventRetrying(me, list[k].1, k, env);
        Do(DeleteRow(me, list[k].0, env.rowDeletes(k)));
      }
      assert list[..|list|] == list;
    }

    method RemoveDeselected(user: int, platforms: seq<string>, me: int, env: Env)
      requires me in world.workers
      modifies this`world
      ensures Value() == Deselect(det, db, old(Value()), user, platforms, me, env)
    {
      if env.joinOk {
        var list := CollectUnselected(user, platforms);
        DeleteListed(me, list, env);
      }
    }

    method LoadSynced(user: int, env: Env) returns (found: set<string>)
      modifies this`synced
      ensures (Value(), found) == ReadSynced(db, old(Value()), user, env)
    {
      if env.valkey && env.getSynced && user in synced {
        found := ToSet(synced[user]);
      } else if !env.idsOk {
        found := {};
      } else {
        var ids := db.ids(world, user);
        found := ToSet(ids);
        if env.valkey && env.setSynced {
          synced := synced[user := ids];
        }
      }
    }

    method ToSet(ids: seq<string>) returns (found: set<string>)
      ensures found == set c | c in ids
    {
      found := {};
      for i := 0 to |ids|
        invariant found == set c | c in ids[..i]
      {
        assert ids[..i + 1] == ids[..i] + [ids[i]];
        found := found + {ids[i]};
      }
      assert ids[..|ids|] == ids;
    }

    /** Up to three inserts; afterwards the event is in, in conflict, given up or refused. */
    method InsertRetrying(me: int, i: nat, env: Env)
      requires me in world.workers && world.workers[me].phase.Inserting? && world.workers[me].phase.attempt == 1
      modifies this`world
      ensures me in world.workers && !world.workers[me].phase.Inserting?
      ensures world.workers[me].phase.Updating? ==> world.workers[me].phase.attempt == 1
      ensures Drive(det, world, me, i, env) == Drive(det, old(world), me, i, env)
    {
      var attempt, trying := 1, true;
      while attempt <= TRIES && trying
        invariant me in world.workers && (trying <==> world.workers[me].phase.Inserting?)
        invariant 1 <= attempt <= TRIES + 1 && (attempt > TRIES ==> !trying)
        invariant trying ==> world.workers[me].phase.attempt == attempt
        invariant world.workers[me].phase.Updating? ==> world.workers[me].phase.attempt == 1
        invariant Drive(det, world, me, i, env) == Drive(det, old(world), me, i, env)
      {
        Do(Insert(me, env.inserts(i, attempt)));
        trying := world.workers[me].phase.Inserting?;
        attempt := attempt + 1;
      }
    }

    /** Up to three updates of an event in conflict. */
    method UpdateRetrying(me: int, i: nat, env: Env)
      requires me in world.workers && world.workers[me].phase.Updating? && world.workers[me].phase.attempt == 1
      modifies this`world
      ensures me in world.workers && (world.workers[me].phase.Writing? || world.workers[me].phase.Idle?)
      ensures Drive(det, world, me, i, env) == Drive(det, old(world), me, i, env)
    {
      var attempt, trying := 1, true;
      while attempt <= TRIES && trying
        invariant me in world.workers && (trying <==> world.workers[me].phase.Updating?)
        invariant 1 <= attempt <= TRIES + 1 && (attempt > TRIES ==> !trying)
        invariant if trying then world.workers[me].phase.attempt == attempt
                  else world.workers[me].phase.Writing? || world.workers[me].phase.Idle?
        invariant Drive(det, world, me, i, env) == Drive(det, old(world), me, i, env)
      {
        Do(Update(me, env.updates(i, attempt)));
        trying := world.workers[me].phase.Updating?;
        attempt := attempt + 1;
      }
    }

    /** One contest: insert, on a conflict update, then the row. */
    method SyncContest(me: int, i: nat, contest: string, env: Env)
      requires me in world.workers && world.workers[me].phase.Idle?
      modifies this`world
      ensures world == Drive(det, Apply(det, old(world), Pick(me, contest)), me, i, env)
    {
      Do(Pick(me, contest));
      InsertRetrying(me, i, env);
      if world.workers[me].phase.Updating? {
        UpdateRetrying(me, i, env);
      }
      if world.workers[me].phase.Writing? {
        Do(Write(me, env.writes(i)));
      }
    }

    method SyncContests(me: int, contests: seq<ContestStore.Contest>, found: set<string>, env: Env)
      requires AtRest(world, me) && world.workers[me].phase.Idle?
      modifies this`world
      ensures world == SyncAll(det, old(world), me, contests, found, env)
    {
      for i := 0 to |contests|
        invariant AtRest(world, me) && world.workers[me].phase.Idle?
        invariant world == SyncAll(det, old(world), me, contests[..i], found, env)
      {
        NextContest(det, old(world), me, contests, found, env, i);
        if contests[i].id !in found {
          SyncContest(me, i, contests[i].id, env);
          if world.workers[me].phase.Halted? {
            HaltedStays(det, old(world), me, contests, found, env, i + 1);
            return;
          }
        }
      }
      assert contests[..|contests|] == contests;
    }

    /** The contests to consider: through the caches, or by one query when there is no cache. */
    method GatherContests(platforms: seq<string>, env: Env) returns (contests: Option<seq<ContestStore.Contest>>)
      modifies stores
      ensures (Value(), contests) == Contests(db, old(Value()), platforms, env)
    {
      if !env.valkey {
        return if env.queryOk then Some(db.contests(stores.rows, stores.now, platforms)) else None;
      }
      var found, missed := stores.ReadCaches(platforms, env.get);
      if missed == [] {
        return Some(found);
      }
      if !env.queryOk {
        return None;
      }
      var rest := stores.FillCaches(missed, db.contests(stores.rows, stores.now, missed), env.put);
      return Some(found + rest);
    }

    /** After the loop: forget a user whose grant is gone, drop the synced ids when rows were added. */
    method Conclude(user: int, me: int, env: Env)
      requires AtRest(world, me)
      modifies this
      ensures Value() == Finish(det, old(Value()), user, me, env)
    {
      if world.workers[me].phase.Halted? {
        HandleRevoked(user, env);
      } else if world.workers[me].anySynced && env.valkey && env.delSynced {
        synced := synced - {user};
      }
      Do(Stop(me));
    }

    method InsertMissing(user: int, platforms: seq<string>, found: set<string>, me: int, env: Env) returns (err: bool)
      requires me in world.workers && world.workers[me].phase.Idle?
      modifies this, stores
      ensures (Value(), err) == Insertions(det, db, old(Value()), user, platforms, found, me, env)
    {
      var contests := GatherContests(platforms, env);
      if contests.None? {
        Do(Stop(me));
        return true;
      }
      SyncContests(me, contests.value, found, env);
      Conclude(user, me, env);
      return false;
    }

    /** From the start of the deselection to the end of the run. */
    method ReconcileUser(user: int, platforms: seq<string>, calendar: string, me: int, env: Env) returns (err: bool)
      requires me !in world.workers
      modifies this, stores
      ensures (Value(), err) == Reconcile(det, db, old(Value()), user, platforms, calendar, me, env)
    {
      Do(Start(me, user, calendar));
      RemoveDeselected(user, platforms, me, env);
      var found := LoadSynced(user, env);
      if platforms == [] {
        Do(Stop(me));
        return false;
      }
      err := InsertMissing(user, platforms, found, me, env);
    }

    method SyncLoaded(user: int, u: UserStore.CachedUser, me: int, env: Env) returns (err: bool)
      requires me !in world.workers
      modifies this, stores
      ensures (Value(), err) == Authorized(det, db, old(Value()), user, u, me, env)
    {
      if !env.auth || env.primary.Bad? {
        return true;
      }
      if env.primary.GrantGone? {
        HandleRevoked(user, env);
        return false;
      }
      var calendar := PickCalendar(user, u, env);
      if calendar.None? {
        HandleRevoked(user, env);
        return false;
      }
      err := ReconcileUser(user, u.platforms, calendar.value, me, env);
    }

    method SyncUser(user: int, me: int, env: Env) returns (err: bool)
      requires me !in world.workers && SyncEngine.Inv(det, Value()) && Truthful(db)
      modifies this, stores
      ensures (Value(), err) == Sync(det, db, old(Value()), user, me, env)
      ensures SyncEngine.Inv(det, Value()) && Reaches(det, old(world), world)
    {
      ghost var e := Value();
      if !env.lock {
        Stay(det, world);
        return true;
      }
      var u := LoadUser(user, env);
      if u.None? {
        err := true;
      } else {
        err := SyncLoaded(user, u.value, me, env);
      }
      SyncIsALedgerRun(det, db, e, user, me, env);
    }
  }
}
