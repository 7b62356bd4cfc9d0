/**
  What becomes of one contest in the insert loop of SyncUser under any answers: exactly when
  its row is added, when its event is live afterwards, when it counts as synced in this run,
  and how many calls that takes.
 */
module SyncOutcome {
  import opened Common
  import opened Ledger
  import opened SyncEngine
  import opened SyncIdempotence
  import opened SyncEvents

  /** Of the up to three inserts from this one on, one is answered before the grant is refused. */
  predicate Answered(env: Env, i: nat, a: nat)
    decreases 4 - a
  {
    a <= 3 && (env.inserts(i, a).Served? || (!env.inserts(i, a).Revoked? && Answered(env, i, a + 1)))
  }

  /** One of them takes effect at Google, if the id is not taken. */
  predicate Lands(env: Env, i: nat, a: nat)
    decreases 4 - a
  {
    a <= 3 && (env.inserts(i, a).Served? || env.inserts(i, a).LostReply?
               || (env.inserts(i, a).Failed? && Lands(env, i, a + 1)))
  }

  /** One takes effect with its answer lost before one is answered. */
  predicate LandsUnseen(env: Env, i: nat, a: nat)
    decreases 4 - a
  {
    a <= 3 && (env.inserts(i, a).LostReply? || (env.inserts(i, a).Failed? && LandsUnseen(env, i, a + 1)))
  }

  /** Of the up to three updates from this one on, one is answered. */
  predicate Restored(env: Env, i: nat, a: nat)
    decreases 4 - a
  {
    a <= 3 && (env.updates(i, a).Served? || Restored(env, i, a + 1))
  }

  /** One of them takes effect. */
  predicate RestoredUnseen(env: Env, i: nat, a: nat)
    decreases 4 - a
  {
    a <= 3 && (env.updates(i, a).Served? || env.updates(i, a).LostReply? || RestoredUnseen(env, i, a + 1))
  }

  predicate Taken(det: Det, s: State, me: int, contest: string)
    requires me in s.workers
  {
    det.Id(s.workers[me].user, contest) in Calendar(s, KeyOf(det, s.workers[me]))
  }

  /** The statement that would add the row takes effect and adds it. */
  predicate RowFits(det: Det, s: State, me: int, contest: string, db: Db)
    requires me in s.workers
  {
    var user := s.workers[me].user;
    && !db.Refused? && user in s.users && contest in s.contests
    && !RowConflict(s, user, contest, det.Id(user, contest))
  }

  /** What does not change before the write. */
  ghost predicate SameBefore(det: Det, s: State, t: State, me: int) {
    && me in s.workers && me in t.workers && t.workers[me].user == s.workers[me].user
    && KeyOf(det, t.workers[me]) == KeyOf(det, s.workers[me])
    && t.ledger == s.ledger && t.users == s.users && t.contests == s.contests
  }

  lemma WriteOutcome(det: Det, s: State, me: int, i: nat, env: Env, contest: string)
    requires me in s.workers && s.workers[me].phase == Writing(contest)
    ensures
      var t, k := Drive(det, s, me, i, env), (s.workers[me].user, contest);
      && (k in t.ledger <==> k in s.ledger || RowFits(det, s, me, contest, env.writes(i)))
      && t.calendars == s.calendars && KeyOf(det, t.workers[me]) == KeyOf(det, s.workers[me])
  {
    var t := Advance(det, s, me, i, env);
    assert Drive(det, t, me, i, env) == t;
  }

  /** An id that is gone is an error like any other: the update is tried again. */
  lemma UpdateStep(det: Det, s: State, me: int, i: nat, env: Env, contest: string, a: nat)
    requires me in s.workers && s.workers[me].phase == Updating(contest, a) && 1 <= a <= 3
    ensures
      var t, reply, taken := Advance(det, s, me, i, env), env.updates(i, a), Taken(det, s, me, contest);
      && SameBefore(det, s, t, me) && (Taken(det, t, me, contest) <==> taken)
      && t.workers[me].phase == (if reply.Served? && taken then Writing(contest)
                                 else if a < 3 then Updating(contest, a + 1) else Idle)
      && (Placed(det, t, me, contest) <==>
            Placed(det, s, me, contest) || (taken && (reply.Served? || reply.LostReply?)))
  {
  }

  lemma {:induction false} UpdateOutcome(det: Det, s: State, me: int, i: nat, env: Env, contest: string, a: nat)
    requires me in s.workers && s.workers[me].phase == Updating(contest, a) && 1 <= a <= 3 && Taken(det, s, me, contest)
    ensures
      var t, k := Drive(det, s, me, i, env), (s.workers[me].user, contest);
      && KeyOf(det, t.workers[me]) == KeyOf(det, s.workers[me])
      && (k in t.ledger <==> k in s.ledger || (Restored(env, i, a) && RowFits(det, s, me, contest, env.writes(i))))
      && (Placed(det, t, me, contest) <==> Placed(det, s, me, contest) || RestoredUnseen(env, i, a))
    decreases 4 - a
  {
    var s1 := Advance(det, s, me, i, env);
    UpdateStep(det, s, me, i, env, contest, a);
    assert Drive(det, s, me, i, env) == Drive(det, s1, me, i, env);
    if s1.workers[me].phase.Writing? {
      WriteOutcome(det, s1, me, i, env, contest);
    } else if s1.workers[me].phase.Updating? {
      UpdateOutcome(det, s1, me, i, env, contest, a + 1);
    }
  }

  lemma InsertStep(det: Det, s: State, me: int, i: nat, env: Env, contest: string, a: nat)
    requires me in s.workers && s.workers[me].phase == Inserting(contest, a) && 1 <= a <= 3
    ensures
      var t, reply, taken := Advance(det, s, me, i, env), env.inserts(i, a), Taken(det, s, me, contest);
      && SameBefore(det, s, t, me)
      && t.workers[me].phase ==
           (if reply.Served? then (if taken then Updating(contest, 1) else Writing(contest))
            else if reply.Revoked? then Halted else if a < 3 then Inserting(contest, a + 1) else Idle)
      && (Taken(det, t, me, contest) <==> taken || reply.Served? || reply.LostReply?)
      && (Placed(det, t, me, contest) <==>
            Placed(det, s, me, contest) || (!taken && (reply.Served? || reply.LostReply?)))
  {
  }

  /** The row: an answered insert, for an id that is taken an answered update too, and a statement that adds it. */
  ghost predicate RowAdded(det: Det, s: State, me: int, i: nat, env: Env, contest: string, a: nat)
    requires me in s.workers
  {
    && Answered(env, i, a) && (Taken(det, s, me, contest) || LandsUnseen(env, i, a) ==> Restored(env, i, 1))
    && RowFits(det, s, me, contest, env.writes(i))
  }

  /** The event: an insert that takes effect, or for an id that is taken an answered insert and an update that does. */
  ghost predicate MadeLive(det: Det, s: State, me: int, i: nat, env: Env, contest: string, a: nat)
    requires me in s.workers
  {
    if Taken(det, s, me, contest) then Answered(env, i, a) && RestoredUnseen(env, i, 1) else Lands(env, i, a)
  }

  lemma {:induction false} InsertOutcome(det: Det, s: State, me: int, i: nat, env: Env, contest: string, a: nat)
    requires me in s.workers && s.workers[me].phase == Inserting(contest, a) && 1 <= a <= 3
    ensures
      var t, k := Drive(det, s, me, i, env), (s.workers[me].user, contest);
      && KeyOf(det, t.workers[me]) == KeyOf(det, s.workers[me])
      && (k in t.ledger <==> k in s.ledger || RowAdded(det, s, me, i, env, contest, a))
      && (Placed(det, t, me, contest) <==> Placed(det, s, me, contest) || MadeLive(det, s, me, i, env, contest, a))
    decreases 4 - a
  {
    var s1 := Advance(det, s, me, i, env);
    InsertStep(det, s, me, i, env, contest, a);
    assert Drive(det, s, me, i, env) == Drive(det, s1, me, i, env);
    match s1.workers[me].phase
    case Writing(_) => WriteOutcome(det, s1, me, i, env, contest);
    case Updating(_, _) => UpdateOutcome(det, s1, me, i, env, contest, 1);
    case Inserting(_, _) => InsertOutcome(det, s1, me, i, env, contest, a + 1);
    case _ =>
  }

  /** One contest under any answers: when its row is there afterwards, and when its event is live. */
  lemma ContestOutcome(det: Det, s: State, me: int, i: nat, env: Env, contest: string)
    requires me in s.workers && s.workers[me].phase.Idle?
    ensures
      var t, k := Drive(det, Apply(det, s, Pick(me, contest)), me, i, env), (s.workers[me].user, contest);
      && KeyOf(det, t.workers[me]) == KeyOf(det, s.workers[me])
      && (k in t.ledger <==> k in s.ledger || RowAdded(det, s, me, i, env, contest, 1))
      && (Placed(det, t, me, contest) <==> Placed(det, s, me, contest) || MadeLive(det, s, me, i, env, contest, 1))
  {
    InsertOutcome(det, Apply(det, s, Pick(me, contest)), me, i, env, contest, 1);
  }

  // ---------- Calls, and what counts as synced ----------

  /** The inserts from this attempt on: up to the third, the first that is answered or the first that is refused. */
  function Inserts(env: Env, i: nat, a: nat): nat
    decreases 4 - a
  {
    if a > 3 then 0
    else if env.inserts(i, a).Served? || env.inserts(i, a).Revoked? then 1
    else 1 + Inserts(env, i, a + 1)
  }

  /** The updates from this attempt on: up to the third or the first that is answered. */
  function Updates(env: Env, i: nat, a: nat): nat
    decreases 4 - a
  {
    if a > 3 then 0 else if env.updates(i, a).Served? then 1 else 1 + Updates(env, i, a + 1)
  }

  /** The statement for the row is confirmed: it added the row, or found one in its place. */
  predicate Confirmed(det: Det, s: State, me: int, contest: string, db: Db)
    requires me in s.workers
  {
    var user := s.workers[me].user;
    db.Done? && (RowConflict(s, user, contest, det.Id(user, contest)) || (user in s.users && contest in s.contests))
  }

  /** `t` follows `s` with `calls` more calls, and has something synced if `s` had or `now`. */
  predicate Tallied(s: State, t: State, me: int, calls: nat, now: bool)
    requires me in s.workers && me in t.workers
  {
    t.calls == s.calls + calls && (t.workers[me].anySynced <==> s.workers[me].anySynced || now)
  }

  lemma WriteTally(det: Det, s: State, me: int, i: nat, env: Env, contest: string)
    requires me in s.workers && s.workers[me].phase == Writing(contest)
    ensures Tallied(s, Drive(det, s, me, i, env), me, 0, Confirmed(det, s, me, contest, env.writes(i)))
  {
    var t := Advance(det, s, me, i, env);
    assert Drive(det, t, me, i, env) == t;
  }

  lemma UpdateStepTally(det: Det, s: State, me: int, i: nat, env: Env, contest: string, a: nat)
    requires me in s.workers && s.workers[me].phase == Updating(contest, a)
    ensures Tallied(s, Advance(det, s, me, i, env), me, 1, false)
  {
  }

  lemma InsertStepTally(det: Det, s: State, me: int, i: nat, env: Env, contest: string, a: nat)
    requires me in s.workers && s.workers[me].phase == Inserting(contest, a)
    ensures Tallied(s, Advance(det, s, me, i, env), me, 1, false)
  {
  }

  lemma {:induction false} UpdateTally(det: Det, s: State, me: int, i: nat, env: Env, contest: string, a: nat)
    requires me in s.workers && s.workers[me].phase == Updating(contest, a) && 1 <= a <= 3 && Taken(det, s, me, contest)
    ensures Tallied(s, Drive(det, s, me, i, env), me, Updates(env, i, a),
                    Restored(env, i, a) && Confirmed(det, s, me, contest, env.writes(i)))
    decreases 4 - a
  {
    var s1 := Advance(det, s, me, i, env);
    UpdateStep(det, s, me, i, env, contest, a);
    UpdateStepTally(det, s, me, i, env, contest, a);
    assert Drive(det, s, me, i, env) == Drive(det, s1, me, i, env);
    if s1.workers[me].phase.Writing? {
      WriteTally(det, s1, me, i, env, contest);
    } else if s1.workers[me].phase.Updating? {
      UpdateTally(det, s1, me, i, env, contest, a + 1);
    }
  }

  /** Google tells that the id is taken, so that updates follow. */
  predicate MeetsConflict(det: Det, s: State, me: int, i: nat, env: Env, contest: string, a: nat)
    requires me in s.workers
  {
    Answered(env, i, a) && (Taken(det, s, me, contest) || LandsUnseen(env, i, a))
  }

  function Calls(det: Det, s: State, me: int, i: nat, env: Env, contest: string, a: nat): nat
    requires me in s.workers
  {
    Inserts(env, i, a) + if MeetsConflict(det, s, me, i, env, contest, a) then Updates(env, i, 1) else 0
  }

  predicate Synced(det: Det, s: State, me: int, i: nat, env: Env, contest: string, a: nat)
    requires me in s.workers
  {
    && Answered(env, i, a) && (MeetsConflict(det, s, me, i, env, contest, a) ==> Restored(env, i, 1))
    && Confirmed(det, s, me, contest, env.writes(i))
  }

  lemma {:induction false} InsertTally(det: Det, s: State, me: int, i: nat, env: Env, contest: string, a: nat)
    requires me in s.workers && s.workers[me].phase == Inserting(contest, a) && 1 <= a <= 3
    ensures Tallied(s, Drive(det, s, me, i, env), me, Calls(det, s, me, i, env, contest, a),
                    Synced(det, s, me, i, env, contest, a))
    decreases 4 - a
  {
    var s1 := Advance(det, s, me, i, env);
    InsertStep(det, s, me, i, env, contest, a);
    InsertStepTally(det, s, me, i, env, contest, a);
    assert Drive(det, s, me, i, env) == Drive(det, s1, me, i, env);
    match s1.workers[me].phase
    case Writing(_) => WriteTally(det, s1, me, i, env, contest);
    case Updating(_, _) => UpdateTally(det, s1, me, i, env, contest, 1);
    case Inserting(_, _) => InsertTally(det, s1, me, i, env, contest, a + 1);
    case _ =>
  }

  lemma {:induction false} AtMostThree(env: Env, i: nat, a: nat)
    requires 1 <= a <= 4
    ensures Inserts(env, i, a) <= 4 - a && Updates(env, i, a) <= 4 - a
    decreases 4 - a
  {
    if a < 4 {
      AtMostThree(env, i, a + 1);
    }
  }

  /** One contest under any answers: the exact number of its calls to Google, never more than six, and exactly when
      it makes the run drop the synced-ids cache. */
  lemma ContestTally(det: Det, s: State, me: int, i: nat, env: Env, contest: string)
    requires me in s.workers && s.workers[me].phase.Idle?
    ensures Tallied(s, Drive(det, Apply(det, s, Pick(me, contest)), me, i, env), me,
                    Calls(det, s, me, i, env, contest, 1), Synced(det, s, me, i, env, contest, 1))
    ensures 1 <= Calls(det, s, me, i, env, contest, 1) <= 6
  {
    InsertTally(det, Apply(det, s, Pick(me, contest)), me, i, env, contest, 1);
    AtMostThree(env, i, 1);
  }
}
