/**
  Which of a user's rows have a live event in the calendar of a run: a run touches no other
  calendar, restores or creates the event of every contest it has to insert, and leaves
  the others as they are.
 */
module SyncLive {
  import opened Common
  import opened Ledger
  import opened SyncEngine
  import opened SyncIdempotence
  import opened SyncEvents
  import ContestStore
  import UserStore

  /** Nothing changed under this id. */
  predicate SameEntry(s: State, t: State, key: CalendarKey, event: string) {
    && (event in Calendar(t, key) <==> event in Calendar(s, key))
    && (event in Calendar(s, key) ==> Calendar(t, key)[event] == Calendar(s, key)[event])
  }

  lemma SameCalendarsSameEntry(s: State, t: State, key: CalendarKey, event: string)
    requires s.calendars == t.calendars
    ensures SameEntry(s, t, key, event)
  {
  }

  // ---------- Deletes touch the listed events of the run's calendar only ----------

  lemma OneDeleteEntry(det: Det, s: State, me: int, event: string, reply: Reply, key: CalendarKey, other: string)
    requires me in s.workers && (key != KeyOf(det, s.workers[me]) || other != event)
    ensures SameEntry(s, Apply(det, s, DeleteEvent(me, event, reply)), key, other)
  {
  }

  lemma SameEntryChain(s: State, t: State, u: State, key: CalendarKey, event: string)
    requires SameEntry(s, t, key, event) && SameEntry(t, u, key, event)
    ensures SameEntry(s, u, key, event)
  {
  }

  /** Unfolds one attempt. */
  lemma TryDeleteStep(det: Det, s: State, me: int, event: string, k: nat, a: nat, env: Env)
    returns (reply: Reply, more: bool)
    requires me in s.workers && 1 <= a <= TRIES
    ensures
      var s1 := Apply(det, s, DeleteEvent(me, event, reply));
      && s1.workers == s.workers
      && TryDelete(det, s, me, event, k, a, env) == if more then TryDelete(det, s1, me, event, k, a + 1, env) else s1
  {
    var answer := env.deletes(k, a);
    reply := if answer.NotFound? then Failed else answer.reply;
    more := !(answer.NotFound? || answer.reply.Served?);
  }

  lemma {:induction false} TryDeleteEntry(det: Det, s: State, me: int, event: string, k: nat, a: nat, env: Env,
                                          key: CalendarKey, other: string)
    requires me in s.workers && 1 <= a && (key != KeyOf(det, s.workers[me]) || other != event)
    ensures SameEntry(s, TryDelete(det, s, me, event, k, a, env), key, other)
    decreases 4 - a
  {
    if a <= TRIES {
      var reply, more := TryDeleteStep(det, s, me, event, k, a, env);
      var s1 := Apply(det, s, DeleteEvent(me, event, reply));
      OneDeleteEntry(det, s, me, event, reply, key, other);
      if more {
        TryDeleteEntry(det, s1, me, event, k, a + 1, env, key, other);
        SameEntryChain(s, s1, TryDelete(det, s, me, event, k, a, env), key, other);
      }
    }
  }

  predicate ListsEvent(list: seq<(string, string)>, event: string) {
    exists i :: 0 <= i < |list| && list[i].1 == event
  }

  lemma ListsEventSnoc(list: seq<(string, string)>, event: string)
    requires list != []
    ensures ListsEvent(list[..|list| - 1], event) || list[|list| - 1].1 == event ==> ListsEvent(list, event)
  {
    var n := |list| - 1;
    if ListsEvent(list[..n], event) {
      var i :| 0 <= i < n && list[..n][i].1 == event;
      assert list[i].1 == event;
    }
  }

  lemma {:induction false} DeleteAllEntry(det: Det, s: State, me: int, list: seq<(string, string)>, env: Env,
                                          key: CalendarKey, event: string)
    requires me in s.workers && (key != KeyOf(det, s.workers[me]) || !ListsEvent(list, event))
    ensures SameEntry(s, DeleteAll(det, s, me, list, env), key, event)
  {
    if list != [] {
      var n := |list| - 1;
      var s1 := DeleteAll(det, s, me, list[..n], env);
      var s2 := TryDelete(det, s1, me, list[n].1, n, 1, env);
      ListsEventSnoc(list, event);
      DeleteAllEntry(det, s, me, list[..n], env, key, event);
      TryDeleteEntry(det, s1, me, list[n].1, n, 1, env, key, event);
      RowDeleteKeepsCalendars(det, s2, me, list[n].0, env.rowDeletes(n));
      SameCalendarsSameEntry(s2, DeleteAll(det, s, me, list, env), key, event);
    }
  }

  /** The event of a contest whose row is not deselected is not listed. */
  lemma {:induction false} NotListed(det: Det, e: Engine, user: int, platforms: seq<string>, list: seq<string>,
                                     ids: set<string>, c: string)
    requires UserRowsOk(det, e.world, user) && Injective(det, user, ids) && LedgerWithin(e.world, user, ids) && c in ids
    requires c in e.store.rows ==> e.store.rows[c].platform in platforms
    ensures !ListsEvent(Unselected(e, user, platforms, list), det.Id(user, c))
  {
    if list != [] {
      var n := |list| - 1;
      NotListed(det, e, user, platforms, list[..n], ids, c);
      var all, init := Unselected(e, user, platforms, list), Unselected(e, user, platforms, list[..n]);
      forall i | 0 <= i < |all| ensures all[i].1 != det.Id(user, c) {
        if i < |init| {
          assert all[i] == init[i];
        } else {
          assert all[i].0 == list[n] != c;
        }
      }
    }
  }

  // ---------- The loop ----------

  lemma DriveEntry(det: Det, s: State, me: int, i: nat, env: Env, contest: string, key: CalendarKey, event: string)
    requires me in s.workers && s.workers[me].phase.Idle?
    requires key != KeyOf(det, s.workers[me]) || event != det.Id(s.workers[me].user, contest)
    ensures SameEntry(s, Drive(det, Apply(det, s, Pick(me, contest)), me, i, env), key, event)
  {
    DrivePlaces(det, Apply(det, s, Pick(me, contest)), me, i, env, contest);
  }

  /** Served, a contest's event ends up live: created, or restored where it was cancelled. */
  lemma DriveRestores(det: Det, s: State, me: int, i: nat, env: Env, contest: string)
    requires me in s.workers && s.workers[me].phase.Idle? && GoogleServes(env)
    ensures
      var t := Drive(det, Apply(det, s, Pick(me, contest)), me, i, env);
      KeyOf(det, t.workers[me]) == KeyOf(det, s.workers[me]) && Placed(det, t, me, contest)
  {
    var s1 := Apply(det, s, Pick(me, contest));
    var s2 := Advance(det, s1, me, i, env);
    AdvancePlaces(det, s1, me, i, env, contest);
    var s3 := if s2.workers[me].phase.Updating? then Advance(det, s2, me, i, env) else s2;
    if s2.workers[me].phase.Updating? {
      AdvancePlaces(det, s2, me, i, env, contest);
      assert Drive(det, s2, me, i, env) == Drive(det, s3, me, i, env);
    }
    assert s3.workers[me].phase.Writing?;
    DrivePlaces(det, s3, me, i, env, contest);
  }

  /** Served throughout, the loop leaves the event of a contest live if it was, or if the contest had to be inserted. */
  lemma {:induction false} SyncAllLiveIff(det: Det, s: State, me: int, contests: seq<ContestStore.Contest>,
                                          synced: set<string>, env: Env, ids: set<string>, c: string)
    requires me in s.workers && s.workers[me].phase.Idle? && GoogleServes(env)
    requires Injective(det, s.workers[me].user, ids) && AllIn(contests, ids) && c in ids
    ensures
      var t := SyncAll(det, s, me, contests, synced, env);
      && t.workers[me].phase.Idle? && KeyOf(det, t.workers[me]) == KeyOf(det, s.workers[me])
      && (Placed(det, t, me, c) <==> Placed(det, s, me, c) || (HasContest(contests, c) && c !in synced))
  {
    if contests != [] {
      var n := |contests| - 1;
      SyncAllLiveIff(det, s, me, contests[..n], synced, env, ids, c);
      HasContestSnoc(contests, c);
      var s1 := SyncAll(det, s, me, contests[..n], synced, env);
      if contests[n].id !in synced {
        SyncAllServed(det, s, me, contests, synced, env);
        if contests[n].id == c {
          DriveRestores(det, s1, me, n, env, c);
        } else {
          DriveOther(det, s1, me, n, env, contests[n].id, ids, c);
        }
      }
    }
  }

  lemma {:induction false} SyncAllOtherCalendars(det: Det, s: State, me: int, contests: seq<ContestStore.Contest>,
                                                 synced: set<string>, env: Env, key: CalendarKey, event: string)
    requires AtRest(s, me) && key != KeyOf(det, s.workers[me])
    ensures
      var t := SyncAll(det, s, me, contests, synced, env);
      KeyOf(det, t.workers[me]) == KeyOf(det, s.workers[me]) && SameEntry(s, t, key, event)
  {
    if contests != [] {
      var n := |contests| - 1;
      SyncAllOtherCalendars(det, s, me, contests[..n], synced, env, key, event);
      var s1 := SyncAll(det, s, me, contests[..n], synced, env);
      if s1.workers[me].phase.Idle? && contests[n].id !in synced {
        DriveEntry(det, s1, me, n, env, contests[n].id, key, event);
        DriveSame(det, s1, me, n, env, contests[n].id);
      }
    }
  }

  // ---------- Whole runs ----------

  /** The deselection leaves the events of selected rows alone. */
  lemma PreparedEntry(det: Det, db: Listings, e: Engine, user: int, platforms: seq<string>, calendar: string, me: int,
                      env: Env, ids: set<string>, c: string)
    requires SyncEngine.Inv(det, e) && me !in e.world.workers
    requires Injective(det, user, ids) && LedgerWithin(e.world, user, ids) && c in ids
    requires c in e.store.rows ==> e.store.rows[c].platform in platforms
    ensures SameEntry(e.world, Prepared(det, db, e, user, platforms, calendar, me, env).world,
                      CalendarKey(det.owner(user), calendar), det.Id(user, c))
  {
    var key, event := CalendarKey(det.owner(user), calendar), det.Id(user, c);
    var e1 := Started(det, e, user, calendar, me);
    var list := db.join(e1.world, user);
    SameCalendarsSameEntry(e.world, e1.world, key, event);
    NotListed(det, e1, user, platforms, list, ids, c);
    DeleteAllEntry(det, e1.world, me, Unselected(e1, user, platforms, list), env, key, event);
  }

  lemma ReconcileLiveIff(det: Det, db: Listings, e: Engine, user: int, platforms: seq<string>, calendar: string,
                         me: int, env: Env, ids: set<string>, c: string)
    requires SyncEngine.Inv(det, e) && me !in e.world.workers && Truthful(db) && FaultFree(env) && platforms != []
    requires Injective(det, user, ids) && LedgerWithin(e.world, user, ids) && c in ids
    requires AllIn(Considered(db, e, platforms, env), ids)
    requires c in e.store.rows ==> e.store.rows[c].platform in platforms
    ensures
      var key, event := CalendarKey(det.owner(user), calendar), det.Id(user, c);
      Live(Reconcile(det, db, e, user, platforms, calendar, me, env).0.world, key, event, c) <==>
        Live(e.world, key, event, c)
        || (HasContest(Considered(db, e, platforms, env), c)
            && c !in ReadSynced(db, Prepared(det, db, e, user, platforms, calendar, me, env), user, env).1)
  {
    var p := Prepared(det, db, e, user, platforms, calendar, me, env);
    var (p', synced) := ReadSynced(db, p, user, env);
    var r := Reconcile(det, db, e, user, platforms, calendar, me, env).0;
    PreparedEntry(det, db, e, user, platforms, calendar, me, env, ids, c);
    PreparedFacts(det, db, e, user, platforms, calendar, me, env);
    ReconcileServed(det, db, e, user, platforms, calendar, me, env);
    SameConsidered(db, e, p', platforms, env);
    SettledLiveIff(det, db, p', user, platforms, synced, me, env, r, ids, c);
  }

  lemma SettledLiveIff(det: Det, db: Listings, p: Engine, user: int, platforms: seq<string>, synced: set<string>,
                       me: int, env: Env, r: Engine, ids: set<string>, c: string)
    requires me in p.world.workers && p.world.workers[me].phase.Idle? && p.world.workers[me].user == user
    requires GoogleServes(env) && Settled(det, db, p, user, platforms, synced, me, env, r)
    requires Injective(det, user, ids) && AllIn(Considered(db, p, platforms, env), ids) && c in ids
    ensures
      var key, event := KeyOf(det, p.world.workers[me]), det.Id(user, c);
      Live(r.world, key, event, c) <==>
        Live(p.world, key, event, c) || (HasContest(Considered(db, p, platforms, env), c) && c !in synced)
  {
    SyncAllLiveIff(det, p.world, me, Considered(db, p, platforms, env), synced, env, ids, c);
  }

  /** The ids a whole run takes as synced; none when it does not get that far. */
  function RunReads(det: Det, db: Listings, e: Engine, user: int, me: int, env: Env): set<string> {
    var (e1, u) := Load(e, user, env);
    if u.None? then {}
    else
      var (e2, calendar) := ChooseCalendar(det, e1, user, u.value, env);
      if calendar.None? || me in e2.world.workers then {}
      else ReadSynced(db, Prepared(det, db, e2, user, u.value.platforms, calendar.value, me, env), user, env).1
  }

  /** After a fault-free run a row of the user has its event live in the run's calendar if and only if it was
      live there before or the contest was considered and its id was not read as synced. */
  lemma RowIsLiveIff(det: Det, db: Listings, e: Engine, user: int, me: int, env: Env, ids: set<string>, c: string)
    requires Calm(det, db, e, user, me, env)
    requires Injective(det, user, ids) && LedgerWithin(e.world, user, ids) && c in ids
    requires AllIn(Considered(db, e, Load(e, user, env).1.value.platforms, env), ids)
    requires (user, c) in Sync(det, db, e, user, me, env).0.world.ledger
    ensures RunCalendar(det, e, user, env).Some?
    ensures
      var key, event := CalendarKey(det.owner(user), RunCalendar(det, e, user, env).value), det.Id(user, c);
      Live(Sync(det, db, e, user, me, env).0.world, key, event, c) <==>
        Live(e.world, key, event, c)
        || (HasContest(Considered(db, e, Load(e, user, env).1.value.platforms, env), c)
            && c !in RunReads(det, db, e, user, me, env))
  {
    var (e1, u) := Load(e, user, env);
    KeptRowIsSelected(det, db, e, user, me, env, c);
    SameRunCalendar(det, db, e, user, me, env);
    LoadFollows(det, e, user, env);
    ChooseFollows(det, e1, user, u.value, env);
    ChooseKeepsTables(det, e1, user, u.value, env);
    LoadTouchesOnlyUsers(e, user, env);
    var e2 := ChooseCalendar(det, e1, user, u.value, env).0;
    SameConsidered(db, e, e2, u.value.platforms, env);
    ReconcileLiveIff(det, db, e2, user, u.value.platforms, RunCalendar(det, e, user, env).value, me, env, ids, c);
  }

  /** The calendar of the run, and the run as a reconciliation in it. */
  lemma SameRunCalendar(det: Det, db: Listings, e: Engine, user: int, me: int, env: Env)
    requires Calm(det, db, e, user, me, env)
    ensures RunCalendar(det, e, user, env).Some?
    ensures
      var u := Load(e, user, env).1.value;
      var e2 := ChooseCalendar(det, Load(e, user, env).0, user, u, env).0;
      && me !in e2.world.workers
      && Sync(det, db, e, user, me, env) ==
           Reconcile(det, db, e2, user, u.platforms, RunCalendar(det, e, user, env).value, me, env)
      && RunReads(det, db, e, user, me, env) ==
           ReadSynced(db, Prepared(det, db, e2, user, u.platforms, RunCalendar(det, e, user, env).value, me, env),
                      user, env).1
  {
    SyncUnfolds(det, db, e, user, me, env);
  }

  lemma KeptRowIsSelected(det: Det, db: Listings, e: Engine, user: int, me: int, env: Env, c: string)
    requires Calm(det, db, e, user, me, env) && (user, c) in Sync(det, db, e, user, me, env).0.world.ledger
    ensures
      var platforms := Load(e, user, env).1.value.platforms;
      platforms != [] && c in e.store.rows && e.store.rows[c].platform in platforms
  {
    var e2, u, calendar := SyncIsReconcile(det, db, e, user, me, env);
    ReconcileLeaves(det, db, e2, user, u.platforms, calendar, me, env);
    DeselectionIsComplete(det, db, e, user, me, env);
    ReconcileKeepsRows(det, db, e2, user, u.platforms, calendar, me, env);
  }

  lemma ReconcileKeepsRows(det: Det, db: Listings, e: Engine, user: int, platforms: seq<string>, calendar: string,
                           me: int, env: Env)
    requires SyncEngine.Inv(det, e) && me !in e.world.workers && Truthful(db) && FaultFree(env)
    ensures Reconcile(det, db, e, user, platforms, calendar, me, env).0.store.rows == e.store.rows
  {
    PreparedFacts(det, db, e, user, platforms, calendar, me, env);
    if platforms == [] {
      NothingSelected(det, db, e, user, calendar, me, env);
    } else {
      var p := Prepared(det, db, e, user, platforms, calendar, me, env);
      ReconcileServed(det, db, e, user, platforms, calendar, me, env);
      ContestsFollows(det, db, ReadSynced(db, p, user, env).0, platforms, env);
    }
  }

  // ---------- Other calendars ----------

  lemma ReconcileOtherCalendars(det: Det, db: Listings, e: Engine, user: int, platforms: seq<string>, calendar: string,
                                me: int, env: Env, key: CalendarKey, event: string)
    requires me !in e.world.workers && key != CalendarKey(det.owner(user), calendar)
    ensures SameEntry(e.world, Reconcile(det, db, e, user, platforms, calendar, me, env).0.world, key, event)
  {
    var e1 := Started(det, e, user, calendar, me);
    var p := Deselect(det, db, e1, user, platforms, me, env);
    DeleteAllEntry(det, e1.world, me, Doomed(db, e1, user, platforms), env, key, event);
    assert SameEntry(e.world, p.world, key, event);
    var (p', synced) := ReadSynced(db, p, user, env);
    if platforms == [] {
      SameCalendarsSameEntry(p'.world, Leave(det, p', me).world, key, event);
    } else {
      InsertionsOtherCalendars(det, db, p', user, platforms, synced, me, env, key, event);
    }
  }

  lemma InsertionsOtherCalendars(det: Det, db: Listings, p: Engine, user: int, platforms: seq<string>,
                                 synced: set<string>, me: int, env: Env, key: CalendarKey, event: string)
    requires AtRest(p.world, me) && key != KeyOf(det, p.world.workers[me])
    ensures SameEntry(p.world, Insertions(det, db, p, user, platforms, synced, me, env).0.world, key, event)
  {
    var (e1, contests) := Contests(db, p, platforms, env);
    if contests.Some? {
      var e2 := e1.(world := SyncAll(det, p.world, me, contests.value, synced, env));
      SyncAllOtherCalendars(det, p.world, me, contests.value, synced, env, key, event);
      FinishKeepsCalendars(det, e2, user, me, env);
      SameCalendarsSameEntry(e2.world, Finish(det, e2, user, me, env).world, key, event);
    }
  }

  /** Whatever fails, a run touches no calendar but its own. */
  lemma OtherCalendarsUntouched(det: Det, db: Listings, e: Engine, user: int, me: int, env: Env, key: CalendarKey,
                                event: string)
    requires me !in e.world.workers
    requires RunCalendar(det, e, user, env).Some? ==>
               key != CalendarKey(det.owner(user), RunCalendar(det, e, user, env).value)
    ensures SameEntry(e.world, Sync(det, db, e, user, me, env).0.world, key, event)
  {
    var (e1, u) := Load(e, user, env);
    LoadTouchesOnlyUsers(e, user, env);
    if u.Some? {
      AuthorizedOtherCalendars(det, db, e1, user, u.value, me, env, key, event);
    }
  }

  lemma AuthorizedOtherCalendars(det: Det, db: Listings, e: Engine, user: int, u: UserStore.CachedUser, me: int,
                                 env: Env, key: CalendarKey, event: string)
    requires me !in e.world.workers
    requires
      var calendar := ChooseCalendar(det, e, user, u, env).1;
      calendar.Some? ==> key != CalendarKey(det.owner(user), calendar.value)
    ensures SameEntry(e.world, Authorized(det, db, e, user, u, me, env).0.world, key, event)
  {
    if env.auth && env.primary.GrantGone? {
      SameCalendarsSameEntry(e.world, Forget(det, e, user, env).world, key, event);
    } else if env.auth && env.primary.Good? {
      var (e1, calendar) := ChooseCalendar(det, e, user, u, env);
      ChooseKeepsTables(det, e, user, u, env);
      if calendar.None? {
        SameCalendarsSameEntry(e.world, Forget(det, e1, user, env).world, key, event);
      } else {
        ReconcileOtherCalendars(det, db, e1, user, u.platforms, calendar.value, me, env, key, event);
      }
    }
  }
}
