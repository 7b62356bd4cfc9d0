/**
  The insert-or-restore loop of SyncUser and its ledger, the synced_events table
  (internal/sync/sync.go), as a step system: any number of workers for any users, with
  every Google call and every statement able to fail before or after it took effect,
  crashes at any point, deletions that cascade, and changes the user makes in the
  calendar. A calendar is that of a Google account. Google
  answers an insert with the id it was given.
 */
module Ledger {
  import opened Common

  /** Whose Google account a user id stands for, and the event id of an account and a contest. */
  datatype Det = Det(owner: int -> string, event: (string, string) -> string) {
    function Id(user: int, contest: string): string {
      event(owner(user), contest)
    }
  }

  datatype Event = Ours(contest: string, live: bool) | Foreign

  /** A calendar belongs to a Google account, whichever user ids that account had. */
  datatype CalendarKey = CalendarKey(google: string, name: string)

  /** Where a worker stands with its contest; the number is the attempt under way. */
  datatype Phase =
    | Idle
    | Inserting(contest: string, attempt: nat)
    | Updating(contest: string, attempt: nat)
    | Writing(contest: string)
    | Halted

  datatype Worker = Worker(user: int, calendar: string, phase: Phase, anySynced: bool)

  /** A Google call: served, applied with its answer lost, failed, or refused because the grant is gone. */
  datatype Reply = Served | LostReply | Failed | Revoked

  datatype Accept = Accept(google: string, contest: string, event: string)

  /** `accepted` is every event Google ever took, `calls` the number of changing calls made to it. */
  datatype State = State(calendars: map<CalendarKey, map<string, Event>>, accepted: set<Accept>,
                         ledger: map<(int, string), string>, users: set<int>, contests: set<string>,
                         workers: map<int, Worker>, calls: nat)

  const TRIES := 3

  datatype Step =
    | Start(w: int, user: int, calendar: string)
    | Pick(w: int, contest: string)
    | Insert(w: int, reply: Reply)
    | Update(w: int, reply: Reply)
    | Write(w: int, db: Db)
    | CreateCalendar
    | DeleteEvent(w: int, event: string, reply: Reply)
    | DeleteRow(w: int, contest: string, db: Db)
    | Stop(w: int)
    | AddUser(user: int)
    | RemoveUser(user: int)
    | AddContest(contest: string)
    | RemoveContest(contest: string)
    | Outside(key: CalendarKey, event: string, change: Change)

  /** What a user may do to an event in the calendar. */
  datatype Change = Cancel | Erase | Replace

  function Calendar(s: State, key: CalendarKey): map<string, Event> {
    if key in s.calendars then s.calendars[key] else map[]
  }

  function KeyOf(det: Det, worker: Worker): CalendarKey {
    CalendarKey(det.owner(worker.user), worker.calendar)
  }

  predicate Enabled(s: State, step: Step) {
    match step
    case Start(w, _, _) => w !in s.workers
    case Pick(w, _) => w in s.workers && s.workers[w].phase.Idle?
    case Insert(w, _) => w in s.workers && s.workers[w].phase.Inserting?
    case Update(w, _) => w in s.workers && s.workers[w].phase.Updating?
    case Write(w, _) => w in s.workers && s.workers[w].phase.Writing?
    case DeleteEvent(w, _, _) => w in s.workers
    case DeleteRow(w, _, _) => w in s.workers
    case Outside(key, event, _) => event in Calendar(s, key)
    case _ => true
  }

  function SetPhase(s: State, w: int, phase: Phase): State
    requires w in s.workers
  {
    s.(workers := s.workers[w := s.workers[w].(phase := phase)])
  }

  /** Google takes the event of a contest into the worker's calendar. */
  function Take(det: Det, s: State, w: int, contest: string): State
    requires w in s.workers
  {
    var worker := s.workers[w];
    var event := det.Id(worker.user, contest);
    s.(calendars := s.calendars[KeyOf(det, worker) := Calendar(s, KeyOf(det, worker))[event := Ours(contest, true)]],
       accepted := s.accepted + {Accept(det.owner(worker.user), contest, event)})
  }

  function AfterFailedInsert(contest: string, attempt: nat, reply: Reply): Phase {
    if reply.Revoked? then Halted
    else if attempt < TRIES then Inserting(contest, attempt + 1)
    else Idle
  }

  /** An id that is taken, by a live or by a cancelled event, is a conflict. */
  function DoInsert(det: Det, s: State, w: int, reply: Reply): State
    requires Enabled(s, Insert(w, reply))
  {
    var worker := s.workers[w];
    var contest, attempt := worker.phase.contest, worker.phase.attempt;
    var taken := det.Id(worker.user, contest) in Calendar(s, KeyOf(det, worker));
    var t := s.(calls := s.calls + 1);
    if reply.Served? && taken then SetPhase(t, w, Updating(contest, 1))
    else if reply.Served? then SetPhase(Take(det, t, w, contest), w, Writing(contest))
    else
      SetPhase(if reply.LostReply? && !taken then Take(det, t, w, contest)
               else t, w, AfterFailedInsert(contest, attempt, reply))
  }

  /** An update restores a cancelled event; an id that is gone is an error. */
  function DoUpdate(det: Det, s: State, w: int, reply: Reply): State
    requires Enabled(s, Update(w, reply))
  {
    var worker := s.workers[w];
    var contest, attempt := worker.phase.contest, worker.phase.attempt;
    var there := det.Id(worker.user, contest) in Calendar(s, KeyOf(det, worker));
    var t := s.(calls := s.calls + 1);
    var t' := if there && (reply.Served? || reply.LostReply?) then Take(det, t, w, contest) else t;
    SetPhase(t', w, if reply.Served? && there then Writing(contest)
                    else if attempt < TRIES then Updating(contest, attempt + 1)
                    else Idle)
  }

  /** Either unique key of the table is taken. */
  predicate RowConflict(s: State, user: int, contest: string, event: string) {
    (user, contest) in s.ledger || exists k :: k in s.ledger && k.0 == user && s.ledger[k] == event
  }

  /** INSERT with ON CONFLICT DO NOTHING: whether it succeeds, and the rows after it. */
  predicate RowAllowed(s: State, user: int, contest: string, event: string) {
    RowConflict(s, user, contest, event) || (user in s.users && contest in s.contests)
  }

  function InsertRow(s: State, user: int, contest: string, event: string): State {
    if RowConflict(s, user, contest, event) || !RowAllowed(s, user, contest, event) then s
    else s.(ledger := s.ledger[(user, contest) := event])
  }

  function DoWrite(det: Det, s: State, w: int, db: Db): State
    requires Enabled(s, Write(w, db))
  {
    var worker := s.workers[w];
    var contest := worker.phase.contest;
    var event := det.Id(worker.user, contest);
    var t := if db.Refused? then s else InsertRow(s, worker.user, contest, event);
    var saved := db.Done? && RowAllowed(s, worker.user, contest, event);
    t.(workers := t.workers[w := worker.(phase := Idle, anySynced := worker.anySynced || saved)])
  }

  function DoDeleteEvent(det: Det, s: State, w: int, event: string, reply: Reply): State
    requires w in s.workers
  {
    var key := KeyOf(det, s.workers[w]);
    var t := s.(calls := s.calls + 1);
    if event in Calendar(s, key) && (reply.Served? || reply.LostReply?) && Calendar(s, key)[event].Ours? then
      t.(calendars := t.calendars[key := Calendar(s, key)[event := Calendar(s, key)[event].(live := false)]])
    else t
  }

  function DoOutside(s: State, key: CalendarKey, event: string, change: Change): State
    requires event in Calendar(s, key)
  {
    var calendar := Calendar(s, key);
    var calendar' :=
      match change
      case Cancel => if calendar[event].Ours? then calendar[event := calendar[event].(live := false)] else calendar
      case Erase => calendar - {event}
      case Replace => calendar[event := Foreign];
    s.(calendars := s.calendars[key := calendar'])
  }

  function Apply(det: Det, s: State, step: Step): State
    requires Enabled(s, step)
  {
    match step
    case Start(w, user, calendar) => s.(workers := s.workers[w := Worker(user, calendar, Idle, false)])
    case Pick(w, contest) => SetPhase(s, w, Inserting(contest, 1))
    case Insert(w, reply) => DoInsert(det, s, w, reply)
    case Update(w, reply) => DoUpdate(det, s, w, reply)
    case Write(w, db) => DoWrite(det, s, w, db)
    case CreateCalendar => s.(calls := s.calls + 1)
    case DeleteEvent(w, event, reply) => DoDeleteEvent(det, s, w, event, reply)
    case DeleteRow(w, contest, db) =>
      if db.Refused? then s else s.(ledger := s.ledger - {(s.workers[w].user, contest)})
    case Stop(w) => s.(workers := s.workers - {w})
    case AddUser(user) => s.(users := s.users + {user})
    case RemoveUser(user) =>
      s.(users := s.users - {user}, ledger := map k | k in s.ledger && k.0 != user :: s.ledger[k])
    case AddContest(contest) => s.(contests := s.contests + {contest})
    case RemoveContest(contest) =>
      s.(contests := s.contests - {contest}, ledger := map k | k in s.ledger && k.1 != contest :: s.ledger[k])
    case Outside(key, event, change) => DoOutside(s, key, event, change)
  }

  ghost predicate Valid(det: Det, s: State, steps: seq<Step>)
    decreases |steps|
  {
    steps != [] ==> Enabled(s, steps[0]) && Valid(det, Apply(det, s, steps[0]), steps[1..])
  }

  ghost function Final(det: Det, s: State, steps: seq<Step>): State
    requires Valid(det, s, steps)
    decreases |steps|
  {
    if steps == [] then s else Final(det, Apply(det, s, steps[0]), steps[1..])
  }

  // ---------- The invariant ----------

  /** Our events carry the deterministic id of their contest, and Google took them. */
  ghost predicate EventsOk(det: Det, s: State) {
    forall key, event :: key in s.calendars && event in s.calendars[key] && s.calendars[key][event].Ours? ==>
      && event == det.event(key.google, s.calendars[key][event].contest)
      && Accept(key.google, s.calendars[key][event].contest, event) in s.accepted
  }

  /** A row holds the deterministic id of its contest, and Google took that event. */
  ghost predicate RowsOk(det: Det, s: State) {
    forall k :: k in s.ledger ==>
      && s.ledger[k] == det.Id(k.0, k.1)
      && Accept(det.owner(k.0), k.1, s.ledger[k]) in s.accepted
      && k.0 in s.users && k.1 in s.contests
  }

  ghost predicate RowsUnique(s: State) {
    forall j, k :: j in s.ledger && k in s.ledger && j.0 == k.0 && s.ledger[j] == s.ledger[k] ==> j == k
  }

  /** A worker about to write a row has its event accepted. */
  ghost predicate WorkersOk(det: Det, s: State) {
    forall w :: w in s.workers && s.workers[w].phase.Writing? ==>
      var worker := s.workers[w];
      Accept(det.owner(worker.user), worker.phase.contest, det.Id(worker.user, worker.phase.contest)) in s.accepted
  }

  ghost predicate Inv(det: Det, s: State) {
    EventsOk(det, s) && RowsOk(det, s) && RowsUnique(s) && WorkersOk(det, s)
  }

  lemma TakeKeepsInv(det: Det, s: State, w: int, contest: string)
    requires Inv(det, s) && w in s.workers
    ensures Inv(det, Take(det, s, w, contest))
  {
  }

  lemma SetPhaseKeepsInv(det: Det, s: State, w: int, phase: Phase)
    requires Inv(det, s) && w in s.workers
    requires phase.Writing? ==>
               var user := s.workers[w].user;
               Accept(det.owner(user), phase.contest, det.Id(user, phase.contest)) in s.accepted
    ensures Inv(det, SetPhase(s, w, phase))
  {
  }

  lemma CallKeepsInv(det: Det, s: State)
    requires Inv(det, s)
    ensures Inv(det, s.(calls := s.calls + 1))
  {
  }

  lemma InsertKeepsInv(det: Det, s: State, w: int, reply: Reply)
    requires Inv(det, s) && Enabled(s, Insert(w, reply))
    ensures Inv(det, DoInsert(det, s, w, reply))
  {
    var contest := s.workers[w].phase.contest;
    var t := s.(calls := s.calls + 1);
    var phase := DoInsert(det, s, w, reply).workers[w].phase;
    CallKeepsInv(det, s);
    TakeKeepsInv(det, t, w, contest);
    SetPhaseKeepsInv(det, Take(det, t, w, contest), w, phase);
    if !phase.Writing? {
      SetPhaseKeepsInv(det, t, w, phase);
    }
  }

  lemma UpdateKeepsInv(det: Det, s: State, w: int, reply: Reply)
    requires Inv(det, s) && Enabled(s, Update(w, reply))
    ensures Inv(det, DoUpdate(det, s, w, reply))
  {
    var contest := s.workers[w].phase.contest;
    var t := s.(calls := s.calls + 1);
    var phase := DoUpdate(det, s, w, reply).workers[w].phase;
    CallKeepsInv(det, s);
    TakeKeepsInv(det, t, w, contest);
    SetPhaseKeepsInv(det, Take(det, t, w, contest), w, phase);
    if !phase.Writing? {
      SetPhaseKeepsInv(det, t, w, phase);
    }
  }

  lemma WriteKeepsInv(det: Det, s: State, w: int, db: Db)
    requires Inv(det, s) && Enabled(s, Write(w, db))
    ensures Inv(det, DoWrite(det, s, w, db))
  {
  }

  lemma DeleteEventKeepsInv(det: Det, s: State, w: int, event: string, reply: Reply)
    requires Inv(det, s) && w in s.workers
    ensures Inv(det, DoDeleteEvent(det, s, w, event, reply))
  {
  }

  lemma OutsideKeepsInv(det: Det, s: State, key: CalendarKey, event: string, change: Change)
    requires Inv(det, s) && event in Calendar(s, key)
    ensures Inv(det, DoOutside(s, key, event, change))
  {
  }

  /** Fewer rows, and users and contests that cover them. */
  lemma FewerRowsKeepInv(det: Det, s: State, t: State)
    requires Inv(det, s)
    requires t == s.(ledger := t.ledger, users := t.users, contests := t.contests)
    requires forall k :: k in t.ledger ==>
               k in s.ledger && t.ledger[k] == s.ledger[k] && k.0 in t.users && k.1 in t.contests
    ensures Inv(det, t)
  {
  }

  lemma StepKeepsInv(det: Det, s: State, step: Step)
    requires Inv(det, s) && Enabled(s, step)
    ensures Inv(det, Apply(det, s, step))
  {
    match step
    case Pick(w, contest) => SetPhaseKeepsInv(det, s, w, Inserting(contest, 1));
    case Insert(w, reply) => InsertKeepsInv(det, s, w, reply);
    case Update(w, reply) => UpdateKeepsInv(det, s, w, reply);
    case Write(w, db) => WriteKeepsInv(det, s, w, db);
    case CreateCalendar => CallKeepsInv(det, s);
    case DeleteEvent(w, event, reply) => DeleteEventKeepsInv(det, s, w, event, reply);
    case Outside(key, event, change) => OutsideKeepsInv(det, s, key, event, change);
    case Start(_, _, _) =>
    case Stop(_) =>
    case _ => FewerRowsKeepInv(det, s, Apply(det, s, step));
  }

  /** A row goes only by a delete of that row that takes effect, or with its user or its contest; till then it keeps
      its event. */
  lemma RowGoesIff(det: Det, s: State, step: Step, key: (int, string))
    requires Enabled(s, step) && key in s.ledger
    ensures
      var t := Apply(det, s, step);
      && (key !in t.ledger <==>
            match step
            case DeleteRow(w, contest, db) => !db.Refused? && (s.workers[w].user, contest) == key
            case RemoveUser(user) => user == key.0
            case RemoveContest(contest) => contest == key.1
            case _ => false)
      && (key in t.ledger ==> t.ledger[key] == s.ledger[key])
  {
  }

  /** Over every run: rows carry the deterministic id of their contest and Google had
      taken that event, and so do the events in the calendars. */
  lemma {:induction false} LedgerIsSafe(det: Det, s: State, steps: seq<Step>)
    requires Inv(det, s) && Valid(det, s, steps)
    ensures Inv(det, Final(det, s, steps))
    decreases |steps|
  {
    if steps != [] {
      StepKeepsInv(det, s, steps[0]);
      LedgerIsSafe(det, Apply(det, s, steps[0]), steps[1..]);
    }
  }

  /** A row appears only for an event Google had already taken, and Google takes an event
      only through an insert or an update that reached it. */
  lemma AcceptedBeforeRecorded(det: Det, s: State, step: Step, k: (int, string), a: Accept)
    requires Inv(det, s) && Enabled(s, step)
    ensures k in Apply(det, s, step).ledger && k !in s.ledger ==>
              step.Write? && Apply(det, s, step).ledger[k] == det.Id(k.0, k.1)
                && Accept(det.owner(k.0), k.1, det.Id(k.0, k.1)) in s.accepted
    ensures a in Apply(det, s, step).accepted && a !in s.accepted ==>
              (step.Insert? || step.Update?) && (step.reply.Served? || step.reply.LostReply?)
  {
  }

  /** No calendar ever holds two events for one contest. */
  lemma OneEventPerContest(det: Det, s: State, steps: seq<Step>, key: CalendarKey, a: string, b: string)
    requires Inv(det, s) && Valid(det, s, steps)
    requires
      var calendar := Calendar(Final(det, s, steps), key);
      a in calendar && b in calendar && calendar[a].Ours? && calendar[b].Ours?
      && calendar[a].contest == calendar[b].contest
    ensures a == b
  {
    LedgerIsSafe(det, s, steps);
  }

  lemma {:induction false} CallsNeverShrink(det: Det, s: State, steps: seq<Step>)
    requires Valid(det, s, steps)
    ensures s.calls <= Final(det, s, steps).calls
    decreases |steps|
  {
    if steps != [] {
      CallsNeverShrink(det, Apply(det, s, steps[0]), steps[1..]);
    }
  }
}
