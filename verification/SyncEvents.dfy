/**
  What a run of SyncUser leaves in the calendar: a row that a run adds has its event live
  in the calendar of that run, and served deletes cancel the events of deselected rows.
 */
module SyncEvents {
  import opened Common
  import opened Ledger
  import opened SyncEngine
  import opened SyncIdempotence
  import ContestStore
  import UserStore

  predicate Live(s: State, key: CalendarKey, event: string, contest: string) {
    event in Calendar(s, key) && Calendar(s, key)[event] == Ours(contest, true)
  }

  /** The worker's event of a contest. */
  predicate Placed(det: Det, s: State, me: int, contest: string)
    requires me in s.workers
  {
    Live(s, KeyOf(det, s.workers[me]), det.Id(s.workers[me].user, contest), contest)
  }

  /** What one step of a worker on a contest does to calendars and ledger. */
  ghost predicate StepPlaces(det: Det, s: State, me: int, contest: string, t: State)
    requires me in s.workers && me in t.workers
  {
    && KeyOf(det, t.workers[me]) == KeyOf(det, s.workers[me])
    && (t.workers[me].phase.Writing? ==> Placed(det, t, me, contest))
    && (Placed(det, s, me, contest) ==> Placed(det, t, me, contest))
    && ((s.workers[me].user, contest) in t.ledger && (s.workers[me].user, contest) !in s.ledger ==>
      Placed(det, t, me, contest))
  }

  ghost predicate OthersKept(det: Det, s: State, me: int, contest: string, t: State)
    requires me in s.workers
  {
    forall key, event :: key != KeyOf(det, s.workers[me]) || event != det.Id(s.workers[me].user, contest) ==>
      (event in Calendar(t, key) <==> event in Calendar(s, key))
      && (event in Calendar(s, key) ==> Calendar(t, key)[event] == Calendar(s, key)[event])
  }

  lemma AdvancePlaces(det: Det, s: State, me: int, i: nat, env: Env, contest: string)
    requires me in s.workers && !AtRest(s, me) && Current(s, me, contest)
    requires s.workers[me].phase.Writing? ==> Placed(det, s, me, contest)
    ensures StepPlaces(det, s, me, contest, Advance(det, s, me, i, env))
    ensures Current(Advance(det, s, me, i, env), me, contest)
  {
  }

  lemma TakeKeepsOthers(det: Det, s: State, me: int, contest: string)
    requires me in s.workers
    ensures OthersKept(det, s, me, contest, Take(det, s, me, contest))
  {
  }

  /** A step on a contest leaves the calendars alone or takes that contest's event. */
  lemma AdvanceKeepsOthers(det: Det, s: State, me: int, i: nat, env: Env, contest: string)
    requires me in s.workers && !AtRest(s, me) && Current(s, me, contest)
    ensures OthersKept(det, s, me, contest, Advance(det, s, me, i, env))
  {
    var t := Advance(det, s, me, i, env);
    TakeKeepsOthers(det, s, me, contest);
    assert t.calendars == s.calendars || t.calendars == Take(det, s, me, contest).calendars;
    var t' := if t.calendars == s.calendars then s else Take(det, s, me, contest);
    SameCalendarsKeepOthers(det, s, me, contest, t', t);
  }

  lemma SameCalendarsKeepOthers(det: Det, s: State, me: int, contest: string, t: State, t': State)
    requires me in s.workers && t.calendars == t'.calendars && OthersKept(det, s, me, contest, t)
    ensures OthersKept(det, s, me, contest, t')
  {
  }

  /** Driving a contest leaves its event live when it adds the row, never takes a live event
      away, and touches no other event. */
  lemma {:induction false} DrivePlaces(det: Det, s: State, me: int, i: nat, env: Env, contest: string)
    requires me in s.workers && Current(s, me, contest)
    requires s.workers[me].phase.Writing? ==> Placed(det, s, me, contest)
    ensures StepPlaces(det, s, me, contest, Drive(det, s, me, i, env))
    ensures OthersKept(det, s, me, contest, Drive(det, s, me, i, env))
    decreases Rank(s.workers[me].phase)
  {
    if !AtRest(s, me) {
      AdvancePlaces(det, s, me, i, env, contest);
      AdvanceKeepsOthers(det, s, me, i, env, contest);
      DrivePlaces(det, Advance(det, s, me, i, env), me, i, env, contest);
    }
  }

  lemma DriveOther(det: Det, s: State, me: int, i: nat, env: Env, contest: string, ids: set<string>, c: string)
    requires me in s.workers && s.workers[me].phase.Idle? && contest != c
    requires Injective(det, s.workers[me].user, ids) && contest in ids && c in ids
    ensures
      var t := Drive(det, Apply(det, s, Pick(me, contest)), me, i, env);
      && KeyOf(det, t.workers[me]) == KeyOf(det, s.workers[me])
      && ((s.workers[me].user, c) in t.ledger <==> (s.workers[me].user, c) in s.ledger)
      && (Placed(det, t, me, c) <==> Placed(det, s, me, c))
      && (Cancelled(t, KeyOf(det, s.workers[me]), det.Id(s.workers[me].user, c)) <==>
            Cancelled(s, KeyOf(det, s.workers[me]), det.Id(s.workers[me].user, c)))
  {
    var s1 := Apply(det, s, Pick(me, contest));
    DrivePlaces(det, s1, me, i, env, contest);
    DriveRows(det, s1, me, i, env, contest, (s.workers[me].user, c));
    assert det.Id(s.workers[me].user, contest) != det.Id(s.workers[me].user, c);
  }

  lemma DriveSame(det: Det, s: State, me: int, i: nat, env: Env, contest: string)
    requires me in s.workers && s.workers[me].phase.Idle?
    ensures StepPlaces(det, s, me, contest, Drive(det, Apply(det, s, Pick(me, contest)), me, i, env))
  {
    DrivePlaces(det, Apply(det, s, Pick(me, contest)), me, i, env, contest);
  }

  /** A row the loop adds has its event live at the end of the loop. */
  lemma {:induction false} SyncAllPlaces(det: Det, s: State, me: int, contests: seq<ContestStore.Contest>,
                                         synced: set<string>, env: Env, ids: set<string>, c: string)
    requires AtRest(s, me) && Injective(det, s.workers[me].user, ids) && AllIn(contests, ids) && c in ids
    ensures
      var t := SyncAll(det, s, me, contests, synced, env);
      var k := (s.workers[me].user, c);
      && KeyOf(det, t.workers[me]) == KeyOf(det, s.workers[me])
      && (Placed(det, s, me, c) || (k in t.ledger && k !in s.ledger) ==> Placed(det, t, me, c))
  {
    if contests != [] {
      var n := |contests| - 1;
      SyncAllPlaces(det, s, me, contests[..n], synced, env, ids, c);
      var s1 := SyncAll(det, s, me, contests[..n], synced, env);
      if s1.workers[me].phase.Idle? && contests[n].id !in synced {
        if contests[n].id == c {
          DriveSame(det, s1, me, n, env, c);
        } else {
          DriveOther(det, s1, me, n, env, contests[n].id, ids, c);
        }
      }
    }
  }

  // ---------- Deletes ----------

  /** No live event of ours under this id. */
  predicate Cancelled(s: State, key: CalendarKey, event: string) {
    event in Calendar(s, key) && Calendar(s, key)[event].Ours? ==> !Calendar(s, key)[event].live
  }

  /** From this attempt on, one of the deletes of item `k` takes effect at Google: served, or with its answer lost. */
  predicate Reached(env: Env, k: nat, attempt: nat)
    decreases 4 - attempt
  {
    && attempt <= 3 && env.deletes(k, attempt).Answer?
    && (env.deletes(k, attempt).reply.Served? || env.deletes(k, attempt).reply.LostReply?
      || Reached(env, k, attempt + 1))
  }

  lemma OneDeleteCancels(det: Det, s: State, me: int, event: string, reply: Reply, other: string)
    requires me in s.workers
    ensures
      var t := Apply(det, s, DeleteEvent(me, event, reply));
      var key := KeyOf(det, s.workers[me]);
      && (Cancelled(t, key, event) <==> Cancelled(s, key, event) || reply.Served? || reply.LostReply?)
      && (other != event ==> (Cancelled(t, key, other) <==> Cancelled(s, key, other)))
  {
  }

  /** The three attempts cancel the event exactly when one of them takes effect, and touch no other event. */
  lemma {:induction false} DeletesCancelIff(det: Det, s: State, me: int, event: string, k: nat, a: nat, env: Env,
                                            other: string)
    requires me in s.workers && 1 <= a
    ensures
      var t := TryDelete(det, s, me, event, k, a, env);
      var key := KeyOf(det, s.workers[me]);
      && (Cancelled(t, key, event) <==> Cancelled(s, key, event) || Reached(env, k, a))
      && (other != event ==> (Cancelled(t, key, other) <==> Cancelled(s, key, other)))
    decreases 4 - a
  {
    if a <= TRIES {
      var answer := env.deletes(k, a);
      var reply := if answer.NotFound? then Failed else answer.reply;
      OneDeleteCancels(det, s, me, event, reply, other);
      if !(answer.NotFound? || answer.reply.Served?) {
        DeletesCancelIff(det, Apply(det, s, DeleteEvent(me, event, reply)), me, event, k, a + 1, env, other);
      }
    }
  }

  /** Some listed item has this event and one of its deletes takes effect. */
  predicate SomeReached(env: Env, list: seq<(string, string)>, event: string) {
    exists k :: 0 <= k < |list| && list[k].1 == event && Reached(env, k, 1)
  }

  lemma SomeReachedSnoc(env: Env, list: seq<(string, string)>, event: string)
    requires list != []
    ensures
      var n := |list| - 1;
      SomeReached(env, list, event) <==>
        SomeReached(env, list[..n], event) || (list[n].1 == event && Reached(env, n, 1))
  {
    var n := |list| - 1;
    if SomeReached(env, list, event) {
      var k :| 0 <= k < |list| && list[k].1 == event && Reached(env, k, 1);
      assert k < n ==> list[..n][k].1 == event;
    }
    if SomeReached(env, list[..n], event) {
      var k :| 0 <= k < n && list[..n][k].1 == event && Reached(env, k, 1);
      assert list[k].1 == event;
    }
  }

  lemma RowDeleteKeepsCalendars(det: Det, s: State, me: int, contest: string, db: Db)
    requires me in s.workers
    ensures Apply(det, s, DeleteRow(me, contest, db)).calendars == s.calendars
  {
  }

  lemma SameCalendarsSameCancelled(s: State, t: State, key: CalendarKey, event: string)
    requires s.calendars == t.calendars
    ensures Cancelled(s, key, event) <==> Cancelled(t, key, event)
  {
  }

  /** The deletion loop cancels an event exactly when it was cancelled or a delete of a listed item reaches it. */
  lemma {:induction false} DeleteAllCancelsIff(det: Det, s: State, me: int, list: seq<(string, string)>, env: Env,
                                               event: string)
    requires me in s.workers
    ensures
      var key := KeyOf(det, s.workers[me]);
      Cancelled(DeleteAll(det, s, me, list, env), key, event) <==>
        Cancelled(s, key, event) || SomeReached(env, list, event)
  {
    if list != [] {
      var n, key := |list| - 1, KeyOf(det, s.workers[me]);
      var s1 := DeleteAll(det, s, me, list[..n], env);
      var s2 := TryDelete(det, s1, me, list[n].1, n, 1, env);
      DeleteAllCancelsIff(det, s, me, list[..n], env, event);
      SomeReachedSnoc(env, list, event);
      DeletesCancelIff(det, s1, me, list[n].1, n, 1, env, event);
      RowDeleteKeepsCalendars(det, s2, me, list[n].0, env.rowDeletes(n));
      SameCalendarsSameCancelled(s2, DeleteAll(det, s, me, list, env), key, event);
    }
  }

  /** What a run lists for deletion, in order. */
  function Doomed(db: Listings, e: Engine, user: int, platforms: seq<string>): seq<(string, string)> {
    Unselected(e, user, platforms, db.join(e.world, user))
  }

  /** The deselection leaves no live event under an id if and only if there was none or one of its deletes of
      a listed row with that event takes effect; the row goes either way. */
  lemma DeselectCancelsIff(det: Det, db: Listings, e: Engine, user: int, platforms: seq<string>, me: int, env: Env,
                           event: string)
    requires me in e.world.workers && env.joinOk
    ensures
      var key := KeyOf(det, e.world.workers[me]);
      Cancelled(Deselect(det, db, e, user, platforms, me, env).world, key, event) <==>
        Cancelled(e.world, key, event) || SomeReached(env, Doomed(db, e, user, platforms), event)
  {
    DeleteAllCancelsIff(det, e.world, me, Doomed(db, e, user, platforms), env, event);
  }

  /** Some statement that deletes the row of this contest takes effect. */
  predicate SomeDropped(env: Env, list: seq<(string, string)>, c: string) {
    exists k :: 0 <= k < |list| && list[k].0 == c && !env.rowDeletes(k).Refused?
  }

  lemma SomeDroppedSnoc(env: Env, list: seq<(string, string)>, c: string)
    requires list != []
    ensures
      var n := |list| - 1;
      SomeDropped(env, list, c) <==>
        SomeDropped(env, list[..n], c) || (list[n].0 == c && !env.rowDeletes(n).Refused?)
  {
    var n := |list| - 1;
    if SomeDropped(env, list, c) {
      var k :| 0 <= k < |list| && list[k].0 == c && !env.rowDeletes(k).Refused?;
      assert k < n ==> list[..n][k].0 == c;
    }
    if SomeDropped(env, list[..n], c) {
      var k :| 0 <= k < n && list[..n][k].0 == c && !env.rowDeletes(k).Refused?;
      assert list[k].0 == c;
    }
  }

  lemma {:induction false} DeleteAllDropsIff(det: Det, s: State, me: int, list: seq<(string, string)>, env: Env,
                                             key: (int, string))
    requires me in s.workers && key in s.ledger
    ensures
      var t := DeleteAll(det, s, me, list, env).ledger;
      && (key !in t <==> key.0 == s.workers[me].user && SomeDropped(env, list, key.1))
      && (key in t ==> t[key] == s.ledger[key])
  {
    if list != [] {
      DeleteAllDropsIff(det, s, me, list[..|list| - 1], env, key);
      SomeDroppedSnoc(env, list, key.1);
    }
  }

  /** Whatever Google answers, the deselection drops a row if and only if it is the user's, is listed, and a statement
      that deletes it takes effect. */
  lemma DeselectDropsIff(det: Det, db: Listings, e: Engine, user: int, platforms: seq<string>, me: int, env: Env,
                         key: (int, string))
    requires me in e.world.workers && e.world.workers[me].user == user && key in e.world.ledger
    ensures
      var t := Deselect(det, db, e, user, platforms, me, env).world.ledger;
      && (key !in t <==> env.joinOk && key.0 == user && SomeDropped(env, Doomed(db, e, user, platforms), key.1))
      && (key in t ==> t[key] == e.world.ledger[key])
  {
    DeleteAllDropsIff(det, e.world, me, Doomed(db, e, user, platforms), env, key);
  }

  /** The loop leaves the events of contests it does not consider as they are. */
  lemma {:induction false} SyncAllLeavesOthers(det: Det, s: State, me: int, contests: seq<ContestStore.Contest>,
                                                  synced: set<string>, env: Env, ids: set<string>, c: string)
    requires AtRest(s, me) && Injective(det, s.workers[me].user, ids) && AllIn(contests, ids) && c in ids
             && !HasContest(contests, c)
    ensures
      var t := SyncAll(det, s, me, contests, synced, env);
      var key, event := KeyOf(det, s.workers[me]), det.Id(s.workers[me].user, c);
      && KeyOf(det, t.workers[me]) == key
      && (Cancelled(t, key, event) <==> Cancelled(s, key, event))
  {
    if contests != [] {
      var n := |contests| - 1;
      HasContestSnoc(contests, c);
      SyncAllLeavesOthers(det, s, me, contests[..n], synced, env, ids, c);
      var s1 := SyncAll(det, s, me, contests[..n], synced, env);
      if s1.workers[me].phase.Idle? && contests[n].id !in synced {
        DriveOther(det, s1, me, n, env, contests[n].id, ids, c);
      }
    }
  }

  // ---------- Whole runs ----------

  lemma FinishKeepsCalendars(det: Det, e: Engine, user: int, me: int, env: Env)
    requires AtRest(e.world, me)
    ensures
      var t := Finish(det, e, user, me, env).world;
      t.calendars == e.world.calendars && forall k :: k in t.ledger ==> k in e.world.ledger
  {
  }

  lemma InsertionsPlace(det: Det, db: Listings, p: Engine, user: int, platforms: seq<string>, synced: set<string>,
                        me: int, env: Env, ids: set<string>, c: string)
    requires AtRest(p.world, me) && p.world.workers[me].user == user
    requires Injective(det, user, ids) && AllIn(Considered(db, p, platforms, env), ids) && c in ids
    ensures
      var t := Insertions(det, db, p, user, platforms, synced, me, env).0.world;
      (user, c) in t.ledger && (user, c) !in p.world.ledger ==>
        Live(t, KeyOf(det, p.world.workers[me]), det.Id(user, c), c)
  {
    var (e1, contests) := Contests(db, p, platforms, env);
    if contests.Some? {
      SyncAllPlaces(det, p.world, me, contests.value, synced, env, ids, c);
      FinishKeepsCalendars(det, e1.(world := SyncAll(det, p.world, me, contests.value, synced, env)), user, me, env);
    }
  }

  lemma ReconcilePlaces(det: Det, db: Listings, e: Engine, user: int, platforms: seq<string>, calendar: string,
                        me: int, env: Env, ids: set<string>, c: string)
    requires me !in e.world.workers
    requires Injective(det, user, ids) && AllIn(Considered(db, e, platforms, env), ids) && c in ids
    ensures
      var t := Reconcile(det, db, e, user, platforms, calendar, me, env).0.world;
      (user, c) in t.ledger && (user, c) !in e.world.ledger ==>
        Live(t, CalendarKey(det.owner(user), calendar), det.Id(user, c), c)
  {
    var e1 := e.(world := Apply(det, e.world, Start(me, user, calendar)));
    var p := Deselect(det, db, e1, user, platforms, me, env);
    DeleteAllOnlyDeletes(det, e1.world, me, Unselected(e1, user, platforms, db.join(e1.world, user)), env, (user, c));
    var (p', synced) := ReadSynced(db, p, user, env);
    InsertionsPlace(det, db, p', user, platforms, synced, me, env, ids, c);
  }

  /** The calendar a run writes to; none when the grant is gone. */
  function RunCalendar(det: Det, e: Engine, user: int, env: Env): Option<string> {
    var (e1, u) := Load(e, user, env);
    if u.None? then None else ChooseCalendar(det, e1, user, u.value, env).1
  }

  lemma CreatedIsReadBack(det: Det, e: Engine, user: int, env: Env, env2: Env, r: Engine)
    requires UserStore.Inv(e.users) && FaultFree(env) && FaultFree(env2)
    requires user in e.users.rows && user !in e.users.stale
    requires Load(e, user, env).1.value.useDedicated && !HasCalendar(Load(e, user, env).1.value)
    requires r.users == ChooseCalendar(det, Load(e, user, env).0, user, Load(e, user, env).1.value, env).0.users
    ensures RunCalendar(det, r, user, env2) == RunCalendar(det, e, user, env)
  {
    assert UserStore.Agreement(e.users);
  }

  /** Two fault-free runs in a row write to the same calendar, also when the first one had to create it. */
  lemma NextRunSameCalendar(det: Det, db: Listings, e: Engine, user: int, me: int, env: Env, env2: Env)
    requires Calm(det, db, e, user, me, env) && FaultFree(env2) && env.valkey == env2.valkey
    ensures RunCalendar(det, e, user, env).Some?
    ensures RunCalendar(det, Sync(det, db, e, user, me, env).0, user, env2) == RunCalendar(det, e, user, env)
  {
    var e2, u, calendar := SyncIsReconcile(det, db, e, user, me, env);
    var r := Sync(det, db, e, user, me, env).0;
    ReconcileLeaves(det, db, e2, user, u.platforms, calendar, me, env);
    if u.useDedicated && !HasCalendar(u) {
      CreatedIsReadBack(det, e, user, env, env2, r);
    } else {
      LoadUnchanged(e, user, env, env2, r);
    }
  }

  /** Whatever fails during the run, a row it adds has its event live in the run's calendar when the run ends. */
  lemma NewRowHasLiveEvent(det: Det, db: Listings, e: Engine, user: int, me: int, env: Env, ids: set<string>, c: string)
    requires me !in e.world.workers && Load(e, user, env).1.Some?
    requires Injective(det, user, ids) && c in ids
    requires AllIn(Considered(db, e, Load(e, user, env).1.value.platforms, env), ids)
    ensures
      var t := Sync(det, db, e, user, me, env).0.world;
      (user, c) in t.ledger && (user, c) !in e.world.ledger ==>
        var calendar := RunCalendar(det, e, user, env);
        calendar.Some? && Live(t, CalendarKey(det.owner(user), calendar.value), det.Id(user, c), c)
  {
    var (e1, u) := Load(e, user, env);
    LoadTouchesOnlyUsers(e, user, env);
    AuthorizedPlaces(det, db, e1, user, u.value, me, env, ids, c);
  }

  lemma AuthorizedPlaces(det: Det, db: Listings, e: Engine, user: int, u: UserStore.CachedUser, me: int, env: Env,
                         ids: set<string>, c: string)
    requires me !in e.world.workers
    requires Injective(det, user, ids) && c in ids && AllIn(Considered(db, e, u.platforms, env), ids)
    ensures
      var t := Authorized(det, db, e, user, u, me, env).0.world;
      var calendar := ChooseCalendar(det, e, user, u, env).1;
      (user, c) in t.ledger && (user, c) !in e.world.ledger ==>
        calendar.Some? && Live(t, CalendarKey(det.owner(user), calendar.value), det.Id(user, c), c)
  {
    if env.auth && env.primary.GrantGone? {
      ForgetAddsNothing(det, e, user, env);
    } else if env.auth && env.primary.Good? {
      var (e1, calendar) := ChooseCalendar(det, e, user, u, env);
      ChooseKeepsTables(det, e, user, u, env);
      if calendar.None? {
        ForgetAddsNothing(det, e1, user, env);
      } else {
        SameConsidered(db, e, e1, u.platforms, env);
        ReconcilePlaces(det, db, e1, user, u.platforms, calendar.value, me, env, ids, c);
      }
    }
  }

  lemma ForgetAddsNothing(det: Det, e: Engine, user: int, env: Env)
    ensures forall k :: k in Forget(det, e, user, env).world.ledger ==> k in e.world.ledger
  {
  }

  lemma NotConsidered(db: Listings, e: Engine, platforms: seq<string>, env: Env, c: string)
    requires ContestStore.Inv(e.store) && Truthful(db) && c in e.store.rows && e.store.rows[c].platform !in platforms
    ensures !HasContest(Considered(db, e, platforms, env), c)
  {
    var contests := Considered(db, e, platforms, env);
    if contests != [] {
      ContestsSelected(db, e, platforms, env);
    }
    forall i | 0 <= i < |contests| ensures contests[i].id != c {
      if contests[i].id == c {
        ContestStore.SameIdSameContest(contests[i], e.store.rows[c]);
        assert false;
      }
    }
  }

  lemma InsertionsLeaveOthers(det: Det, db: Listings, p: Engine, user: int, platforms: seq<string>, synced: set<string>,
                              me: int, env: Env, ids: set<string>, c: string)
    requires AtRest(p.world, me) && p.world.workers[me].user == user
    requires Injective(det, user, ids) && AllIn(Considered(db, p, platforms, env), ids) && c in ids
    requires !HasContest(Considered(db, p, platforms, env), c)
    ensures
      var key, event := KeyOf(det, p.world.workers[me]), det.Id(user, c);
      Cancelled(Insertions(det, db, p, user, platforms, synced, me, env).0.world, key, event) <==>
        Cancelled(p.world, key, event)
  {
    var key, event := KeyOf(det, p.world.workers[me]), det.Id(user, c);
    var (e1, contests) := Contests(db, p, platforms, env);
    if contests.Some? {
      var e2 := e1.(world := SyncAll(det, p.world, me, contests.value, synced, env));
      SyncAllLeavesOthers(det, p.world, me, contests.value, synced, env, ids, c);
      FinishKeepsCalendars(det, e2, user, me, env);
      SameCalendarsSameCancelled(e2.world, Finish(det, e2, user, me, env).world, key, event);
    } else {
      SameCalendarsSameCancelled(e1.world, Leave(det, e1, me).world, key, event);
    }
  }

  /** The state of the run when it lists what to delete. */
  function Started(det: Det, e: Engine, user: int, calendar: string, me: int): Engine
    requires me !in e.world.workers
  {
    e.(world := Apply(det, e.world, Start(me, user, calendar)))
  }

  lemma ReconcileCancelsIff(det: Det, db: Listings, e: Engine, user: int, platforms: seq<string>, calendar: string,
                            me: int, env: Env, ids: set<string>, c: string)
    requires SyncEngine.Inv(det, e) && me !in e.world.workers && Truthful(db) && env.joinOk
    requires c in e.store.rows && e.store.rows[c].platform !in platforms
    requires Injective(det, user, ids) && AllIn(Considered(db, e, platforms, env), ids) && c in ids
    ensures
      var key, event := CalendarKey(det.owner(user), calendar), det.Id(user, c);
      Cancelled(Reconcile(det, db, e, user, platforms, calendar, me, env).0.world, key, event) <==>
        Cancelled(e.world, key, event)
        || SomeReached(env, Doomed(db, Started(det, e, user, calendar, me), user, platforms), event)
  {
    var key, event := CalendarKey(det.owner(user), calendar), det.Id(user, c);
    var e1 := Started(det, e, user, calendar, me);
    var p := Deselect(det, db, e1, user, platforms, me, env);
    SameCalendarsSameCancelled(e.world, e1.world, key, event);
    DeselectCancelsIff(det, db, e1, user, platforms, me, env, event);
    var (p', synced) := ReadSynced(db, p, user, env);
    if platforms == [] {
      SameCalendarsSameCancelled(p.world, Leave(det, p', me).world, key, event);
    } else {
      NotConsidered(db, e, platforms, env, c);
      SameConsidered(db, e, p', platforms, env);
      InsertionsLeaveOthers(det, db, p', user, platforms, synced, me, env, ids, c);
    }
  }

  /** What a whole run lists for deletion; nothing when it does not get that far. */
  function RunList(det: Det, db: Listings, e: Engine, user: int, me: int, env: Env): seq<(string, string)> {
    var (e1, u) := Load(e, user, env);
    if u.None? then []
    else
      var (e2, calendar) := ChooseCalendar(det, e1, user, u.value, env);
      if calendar.None? || me in e2.world.workers then []
      else Doomed(db, Started(det, e2, user, calendar.value, me), user, u.value.platforms)
  }

  /** The run gets to its reconciliation, and its listing succeeds. */
  ghost predicate Lists(det: Det, e: Engine, user: int, me: int, env: Env) {
    && me !in e.world.workers && env.lock && env.auth && env.primary.Good? && env.joinOk
    && Load(e, user, env).1.Some? && RunCalendar(det, e, user, env).Some?
  }

  /** A stored contest of a platform the run does not select. */
  ghost predicate DeselectedIn(e: Engine, user: int, env: Env, c: string)
    requires Load(e, user, env).1.Some?
  {
    c in e.store.rows && e.store.rows[c].platform !in Load(e, user, env).1.value.platforms
  }

  /** Whatever else fails, at the end of a run that lists its rows the run's calendar has no live event for a
      contest of a deselected platform if and only if it had none or one of the run's deletes of it takes effect. */
  lemma DeselectedEventIsCancelledIff(det: Det, db: Listings, e: Engine, user: int, me: int, env: Env,
                                      ids: set<string>, c: string)
    requires SyncEngine.Inv(det, e) && Truthful(db) && Lists(det, e, user, me, env) && DeselectedIn(e, user, env, c)
    requires Injective(det, user, ids) && c in ids
    requires AllIn(Considered(db, e, Load(e, user, env).1.value.platforms, env), ids)
    ensures
      var key, event := CalendarKey(det.owner(user), RunCalendar(det, e, user, env).value), det.Id(user, c);
      Cancelled(Sync(det, db, e, user, me, env).0.world, key, event) <==>
        Cancelled(e.world, key, event) || SomeReached(env, RunList(det, db, e, user, me, env), event)
  {
    var (e1, u) := Load(e, user, env);
    LoadFollows(det, e, user, env);
    ChooseFollows(det, e1, user, u.value, env);
    ChooseKeepsTables(det, e1, user, u.value, env);
    LoadTouchesOnlyUsers(e, user, env);
    var (e2, calendar) := ChooseCalendar(det, e1, user, u.value, env);
    SameConsidered(db, e, e2, u.value.platforms, env);
    SameCalendarsSameCancelled(e.world, e2.world, CalendarKey(det.owner(user), calendar.value), det.Id(user, c));
    ReconcileCancelsIff(det, db, e2, user, u.value.platforms, calendar.value, me, env, ids, c);
  }

  lemma InsertionsAddOnlyConsidered(det: Det, db: Listings, p: Engine, user: int, platforms: seq<string>,
                                    synced: set<string>, me: int, env: Env, c: string)
    requires AtRest(p.world, me) && p.world.workers[me].user == user
    requires (user, c) !in p.world.ledger && !HasContest(Considered(db, p, platforms, env), c)
    ensures (user, c) !in Insertions(det, db, p, user, platforms, synced, me, env).0.world.ledger
  {
    var (e1, contests) := Contests(db, p, platforms, env);
    if contests.Some? {
      SyncAllRows(det, p.world, me, contests.value, synced, env, (user, c));
      FinishKeepsCalendars(det, e1.(world := SyncAll(det, p.world, me, contests.value, synced, env)), user, me, env);
    }
  }

  lemma ReconcileDropsRow(det: Det, db: Listings, e: Engine, user: int, platforms: seq<string>, calendar: string,
                          me: int, env: Env, c: string)
    requires SyncEngine.Inv(det, e) && me !in e.world.workers && Truthful(db)
    requires env.joinOk && forall k :: !env.rowDeletes(k).Refused?
    requires c in e.store.rows && e.store.rows[c].platform !in platforms
    ensures (user, c) !in Reconcile(det, db, e, user, platforms, calendar, me, env).0.world.ledger
  {
    var e1 := Started(det, e, user, calendar, me);
    StepKeepsInv(det, e.world, Start(me, user, calendar));
    DeselectExact(det, db, e1, user, platforms, me, env, (user, c));
    var p := Deselect(det, db, e1, user, platforms, me, env);
    var (p', synced) := ReadSynced(db, p, user, env);
    NotConsidered(db, e, platforms, env, c);
    SameConsidered(db, e, p', platforms, env);
    if platforms != [] {
      InsertionsAddOnlyConsidered(det, db, p', user, platforms, synced, me, env, c);
    }
  }

  /** A live event whose deletes never reach Google stays live in the calendar, while its row is gone: no later
      run lists it. */
  lemma UnreachedEventIsOrphaned(det: Det, db: Listings, e: Engine, user: int, me: int, env: Env,
                                 ids: set<string>, c: string)
    requires SyncEngine.Inv(det, e) && Truthful(db) && Lists(det, e, user, me, env) && DeselectedIn(e, user, env, c)
    requires Injective(det, user, ids) && c in ids
    requires AllIn(Considered(db, e, Load(e, user, env).1.value.platforms, env), ids)
    requires forall k :: !env.rowDeletes(k).Refused?
    requires !SomeReached(env, RunList(det, db, e, user, me, env), det.Id(user, c))
    requires !Cancelled(e.world, CalendarKey(det.owner(user), RunCalendar(det, e, user, env).value), det.Id(user, c))
    ensures
      var t := Sync(det, db, e, user, me, env).0.world;
      && (user, c) !in t.ledger
      && !Cancelled(t, CalendarKey(det.owner(user), RunCalendar(det, e, user, env).value), det.Id(user, c))
  {
    DeselectedEventIsCancelledIff(det, db, e, user, me, env, ids, c);
    RunDropsRow(det, db, e, user, me, env, c);
  }

  lemma RunDropsRow(det: Det, db: Listings, e: Engine, user: int, me: int, env: Env, c: string)
    requires SyncEngine.Inv(det, e) && Truthful(db) && Lists(det, e, user, me, env) && DeselectedIn(e, user, env, c)
    requires forall k :: !env.rowDeletes(k).Refused?
    ensures (user, c) !in Sync(det, db, e, user, me, env).0.world.ledger
  {
    var (e1, u) := Load(e, user, env);
    LoadFollows(det, e, user, env);
    ChooseFollows(det, e1, user, u.value, env);
    ChooseKeepsTables(det, e1, user, u.value, env);
    var (e2, calendar) := ChooseCalendar(det, e1, user, u.value, env);
    ReconcileDropsRow(det, db, e2, user, u.value.platforms, calendar.value, me, env, c);
  }
}
