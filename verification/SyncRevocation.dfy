/**
  A revoked grant (handleSyncError in internal/sync/sync.go): a run that meets one forgets
  the user, and only such a run does.
 */
module SyncRevocation {
  import opened Common
  import opened Ledger
  import opened SyncEngine
  import opened SyncIdempotence
  import ContestStore
  import UserStore

  /** Nothing of the user is left in the tables; nor in the user cache, if the DEL succeeds. */
  ghost predicate Forgotten(e: Engine, user: int, env: Env) {
    && user !in e.users.rows && user !in e.world.users && (env.forgetDel ==> user !in e.users.cache)
    && forall c :: (user, c) !in e.world.ledger
  }

  // ---------- Only a revoked grant ----------

  /** No call the code checks for it is answered with a revoked grant. */
  ghost predicate NoRevocation(env: Env) {
    && !env.primary.GrantGone? && !env.creation.CreationRevoked?
    && forall i, a :: !env.inserts(i, a).Revoked?
  }

  lemma {:induction false} DriveNotHalted(det: Det, s: State, me: int, i: nat, env: Env)
    requires me in s.workers && !s.workers[me].phase.Halted? && forall a :: !env.inserts(i, a).Revoked?
    ensures Drive(det, s, me, i, env).workers[me].phase.Idle?
    decreases Rank(s.workers[me].phase)
  {
    if !AtRest(s, me) {
      DriveNotHalted(det, Advance(det, s, me, i, env), me, i, env);
    }
  }

  lemma {:induction false} SyncAllNotHalted(det: Det, s: State, me: int, contests: seq<ContestStore.Contest>,
                                            synced: set<string>, env: Env)
    requires AtRest(s, me) && s.workers[me].phase.Idle? && forall i, a :: !env.inserts(i, a).Revoked?
    ensures SyncAll(det, s, me, contests, synced, env).workers[me].phase.Idle?
  {
    if contests != [] {
      var n := |contests| - 1;
      SyncAllNotHalted(det, s, me, contests[..n], synced, env);
      if contests[n].id !in synced {
        var s1 := SyncAll(det, s, me, contests[..n], synced, env);
        DriveNotHalted(det, Apply(det, s1, Pick(me, contests[n].id)), me, n, env);
      }
    }
  }

  /** The users a stage leaves: all of them, or all but this one when the statement took effect. */
  ghost predicate KeepsUsers(e: Engine, e': Engine) {
    e'.users.rows.Keys == e.users.rows.Keys && e'.world.users == e.world.users
  }

  lemma ForgetKeepsOthers(det: Det, e: Engine, user: int, env: Env)
    ensures env.forgetDb.Refused? ==> KeepsUsers(e, Forget(det, e, user, env))
  {
  }

  lemma FinishKeepsUsers(det: Det, e: Engine, user: int, me: int, env: Env)
    requires AtRest(e.world, me) && (e.world.workers[me].phase.Idle? || env.forgetDb.Refused?)
    ensures KeepsUsers(e, Finish(det, e, user, me, env))
  {
    ForgetKeepsOthers(det, e, user, env);
  }

  lemma InsertionsKeepUsers(det: Det, db: Listings, e: Engine, user: int, platforms: seq<string>, synced: set<string>,
                            me: int, env: Env)
    requires AtRest(e.world, me) && e.world.workers[me].phase.Idle? && (NoRevocation(env) || env.forgetDb.Refused?)
    ensures KeepsUsers(e, Insertions(det, db, e, user, platforms, synced, me, env).0)
  {
    var (e1, contests) := Contests(db, e, platforms, env);
    if contests.Some? {
      if NoRevocation(env) {
        SyncAllNotHalted(det, e1.world, me, contests.value, synced, env);
      }
      FinishKeepsUsers(det, e1.(world := SyncAll(det, e1.world, me, contests.value, synced, env)), user, me, env);
    }
  }

  lemma ReconcileKeepsUsers(det: Det, db: Listings, e: Engine, user: int, platforms: seq<string>, calendar: string,
                            me: int, env: Env)
    requires me !in e.world.workers && (NoRevocation(env) || env.forgetDb.Refused?)
    ensures KeepsUsers(e, Reconcile(det, db, e, user, platforms, calendar, me, env).0)
  {
    var p := Prepared(det, db, e, user, platforms, calendar, me, env);
    var (p', synced) := ReadSynced(db, p, user, env);
    InsertionsKeepUsers(det, db, p', user, platforms, synced, me, env);
  }

  lemma AuthorizedKeepsUsers(det: Det, db: Listings, e: Engine, user: int, u: UserStore.CachedUser, me: int, env: Env)
    requires me !in e.world.workers && (NoRevocation(env) || env.forgetDb.Refused?)
    ensures KeepsUsers(e, Authorized(det, db, e, user, u, me, env).0)
  {
    if env.auth && env.primary.GrantGone? {
      ForgetKeepsOthers(det, e, user, env);
    } else if env.auth && env.primary.Good? {
      var (e1, calendar) := ChooseCalendar(det, e, user, u, env);
      assert KeepsUsers(e, e1);
      if calendar.None? {
        ForgetKeepsOthers(det, e1, user, env);
      } else {
        ReconcileKeepsUsers(det, db, e1, user, u.platforms, calendar.value, me, env);
      }
    }
  }

  /** A run in which no checked call is answered with a revoked grant, or whose DELETE is
      refused, leaves every user in place. */
  lemma OnlyRevocationForgets(det: Det, db: Listings, e: Engine, user: int, me: int, env: Env)
    requires me !in e.world.workers && (NoRevocation(env) || env.forgetDb.Refused?)
    ensures KeepsUsers(e, Sync(det, db, e, user, me, env).0)
  {
    var (e1, u) := Load(e, user, env);
    LoadTouchesOnlyUsers(e, user, env);
    if u.Some? {
      AuthorizedKeepsUsers(det, db, e1, user, u.value, me, env);
    }
  }

  // ---------- Every revoked grant ----------

  /** The grant is gone before the first request, or when the calendar is to be created. */
  predicate RevokedEarly(u: UserStore.CachedUser, env: Env) {
    env.primary.GrantGone? || (env.primary.Good? && u.useDedicated && !HasCalendar(u) && env.creation.CreationRevoked?)
  }

  /** A run that learns early that the grant is gone returns nil and forgets the user. */
  lemma RevokedEarlyForgets(det: Det, db: Listings, e: Engine, user: int, me: int, env: Env)
    requires me !in e.world.workers && env.lock && env.auth && !env.forgetDb.Refused?
    requires Load(e, user, env).1.Some? && RevokedEarly(Load(e, user, env).1.value, env)
    ensures
      var (r, err) := Sync(det, db, e, user, me, env);
      !err && Forgotten(r, user, env)
  {
    var (e1, u) := Load(e, user, env);
    ForgottenHasNoRows(det, e1, user, env);
    ForgottenHasNoRows(det, ChooseCalendar(det, e1, user, u.value, env).0, user, env);
  }

  /** From this attempt on, the inserts of a contest end in a revoked grant: the failed ones before it are retried. */
  predicate Refuses(env: Env, i: nat, attempt: nat)
    decreases 4 - attempt
  {
    attempt <= 3
    && (env.inserts(i, attempt).Revoked? || (!env.inserts(i, attempt).Served? && Refuses(env, i, attempt + 1)))
  }

  /** Some contest that is not taken as synced meets a revoked grant. */
  predicate SomeRefused(env: Env, contests: seq<ContestStore.Contest>, synced: set<string>) {
    exists i :: 0 <= i < |contests| && contests[i].id !in synced && Refuses(env, i, 1)
  }

  lemma SomeRefusedSnoc(env: Env, contests: seq<ContestStore.Contest>, synced: set<string>)
    requires contests != []
    ensures
      var n := |contests| - 1;
      SomeRefused(env, contests, synced) <==>
        SomeRefused(env, contests[..n], synced) || (contests[n].id !in synced && Refuses(env, n, 1))
  {
    var n := |contests| - 1;
    if SomeRefused(env, contests, synced) {
      var i :| 0 <= i < |contests| && contests[i].id !in synced && Refuses(env, i, 1);
      assert i < n ==> contests[..n][i].id !in synced;
    }
    if SomeRefused(env, contests[..n], synced) {
      var i :| 0 <= i < n && contests[..n][i].id !in synced && Refuses(env, i, 1);
      assert contests[i].id !in synced;
    }
  }

  /** An event that is in or in conflict never ends the run. */
  lemma {:induction false} NeverHaltsLater(det: Det, s: State, me: int, i: nat, env: Env)
    requires me in s.workers && (s.workers[me].phase.Updating? || s.workers[me].phase.Writing?
             || s.workers[me].phase.Idle?)
    ensures Drive(det, s, me, i, env).workers[me].phase.Idle?
    decreases Rank(s.workers[me].phase)
  {
    if !AtRest(s, me) {
      NeverHaltsLater(det, Advance(det, s, me, i, env), me, i, env);
    }
  }

  lemma {:induction false} InsertsHaltIff(det: Det, s: State, me: int, i: nat, env: Env, a: nat)
    requires me in s.workers && s.workers[me].phase.Inserting? && s.workers[me].phase.attempt == a <= 3
    ensures Drive(det, s, me, i, env).workers[me].phase.Halted? <==> Refuses(env, i, a)
    decreases 4 - a
  {
    var t := Advance(det, s, me, i, env);
    assert Drive(det, s, me, i, env) == Drive(det, t, me, i, env);
    if t.workers[me].phase.Inserting? {
      InsertsHaltIff(det, t, me, i, env, a + 1);
    } else if !t.workers[me].phase.Halted? {
      NeverHaltsLater(det, t, me, i, env);
    }
  }

  /** The insert loop ends the run if and only if some contest that is not taken as synced meets a
      revoked grant, at whichever attempt. */
  lemma {:induction false} LoopHaltsIff(det: Det, s: State, me: int, contests: seq<ContestStore.Contest>,
                                        synced: set<string>, env: Env)
    requires AtRest(s, me) && s.workers[me].phase.Idle?
    ensures SyncAll(det, s, me, contests, synced, env).workers[me].phase.Halted? <==> SomeRefused(env, contests, synced)
  {
    if contests != [] {
      var n := |contests| - 1;
      LoopHaltsIff(det, s, me, contests[..n], synced, env);
      SomeRefusedSnoc(env, contests, synced);
      var s1 := SyncAll(det, s, me, contests[..n], synced, env);
      if s1.workers[me].phase.Idle? && contests[n].id !in synced {
        InsertsHaltIff(det, Apply(det, s1, Pick(me, contests[n].id)), me, n, env, 1);
      }
    }
  }

  /** The user is gone after a stage if and only if `cause`; and then nothing of the user is left. */
  ghost predicate ForgetsIff(r: (Engine, bool), user: int, env: Env, cause: bool) {
    && (user !in r.0.users.rows <==> cause)
    && (cause ==> !r.1 && Forgotten(r.0, user, env))
  }

  lemma FinishForgetsIff(det: Det, e: Engine, user: int, me: int, env: Env)
    requires AtRest(e.world, me) && user in e.users.rows && !env.forgetDb.Refused?
    ensures ForgetsIff((Finish(det, e, user, me, env), false), user, env, e.world.workers[me].phase.Halted?)
  {
    ForgottenHasNoRows(det, e, user, env);
  }

  lemma InsertionsForgetIff(det: Det, db: Listings, p: Engine, user: int, platforms: seq<string>, synced: set<string>,
                            me: int, env: Env)
    requires AtRest(p.world, me) && p.world.workers[me].phase.Idle? && user in p.users.rows && !env.forgetDb.Refused?
    ensures ForgetsIff(Insertions(det, db, p, user, platforms, synced, me, env), user, env,
                       SomeRefused(env, Considered(db, p, platforms, env), synced))
  {
    var (e1, contests) := Contests(db, p, platforms, env);
    if contests.Some? {
      LoopHaltsIff(det, p.world, me, contests.value, synced, env);
      FinishForgetsIff(det, e1.(world := SyncAll(det, p.world, me, contests.value, synced, env)), user, me, env);
    }
  }

  /** What a reconciliation meets: a contest it has to insert and a revoked grant. */
  ghost predicate RevokedLate(det: Det, db: Listings, e: Engine, user: int, platforms: seq<string>, calendar: string,
                              me: int, env: Env)
    requires me !in e.world.workers
  {
    && platforms != []
    && SomeRefused(env, Considered(db, e, platforms, env),
                   ReadSynced(db, Prepared(det, db, e, user, platforms, calendar, me, env), user, env).1)
  }

  lemma ReconcileForgetsIff(det: Det, db: Listings, e: Engine, user: int, platforms: seq<string>, calendar: string,
                            me: int, env: Env)
    requires me !in e.world.workers && user in e.users.rows && !env.forgetDb.Refused?
    ensures ForgetsIff(Reconcile(det, db, e, user, platforms, calendar, me, env), user, env,
                       RevokedLate(det, db, e, user, platforms, calendar, me, env))
  {
    var p := Prepared(det, db, e, user, platforms, calendar, me, env);
    var (p', synced) := ReadSynced(db, p, user, env);
    if platforms != [] {
      SameConsidered(db, e, p', platforms, env);
      InsertionsForgetIff(det, db, p', user, platforms, synced, me, env);
    }
  }

  /** What a run with the loaded user meets. */
  ghost predicate MeetsRevocation(det: Det, db: Listings, e: Engine, user: int, u: UserStore.CachedUser, me: int,
                                  env: Env)
    requires me !in e.world.workers
  {
    var (e1, calendar) := ChooseCalendar(det, e, user, u, env);
    env.auth && (RevokedEarly(u, env)
                 || (env.primary.Good? && calendar.Some?
                     && RevokedLate(det, db, e1, user, u.platforms, calendar.value, me, env)))
  }

  lemma AuthorizedForgetsIff(det: Det, db: Listings, e: Engine, user: int, u: UserStore.CachedUser, me: int, env: Env)
    requires me !in e.world.workers && user in e.users.rows && !env.forgetDb.Refused?
    ensures ForgetsIff(Authorized(det, db, e, user, u, me, env), user, env,
                       MeetsRevocation(det, db, e, user, u, me, env))
  {
    var (e1, calendar) := ChooseCalendar(det, e, user, u, env);
    if env.auth && env.primary.GrantGone? {
      ForgottenHasNoRows(det, e, user, env);
    } else if env.auth && env.primary.Good? {
      if calendar.None? {
        ForgottenHasNoRows(det, e1, user, env);
      } else {
        ReconcileForgetsIff(det, db, e1, user, u.platforms, calendar.value, me, env);
      }
    }
  }

  /** A run, its DELETE taking effect, forgets a user who has a row if and only if it gets to a call that is
      answered with a revoked grant: the first request, the creation of the calendar, or an insert at any
      contest it has to insert and at any attempt. It then returns nil and nothing of the user is left. */
  lemma RunForgetsIff(det: Det, db: Listings, e: Engine, user: int, me: int, env: Env)
    requires me !in e.world.workers && user in e.users.rows && !env.forgetDb.Refused?
    requires Load(e, user, env).1.Some?
    ensures
      var (e1, u) := Load(e, user, env);
      ForgetsIff(Sync(det, db, e, user, me, env), user, env,
                 env.lock && MeetsRevocation(det, db, e1, user, u.value, me, env))
  {
    var (e1, u) := Load(e, user, env);
    LoadTouchesOnlyUsers(e, user, env);
    AuthorizedForgetsIff(det, db, e1, user, u.value, me, env);
  }
}
