/**
  internal/queue/amqp.go: the AMQP task protocol of both consumers, as a step
  system. A step is one action of the broker, of a handler goroutine or of the
  network, so a failure can fall between any two actions of the code. A publish
  that returns nil is taken to have reached the broker; one that returns an
  error may or may not have (AMQP 0-9-1, section 3.1.8, for acknowledgements).
 */
module TaskQueue {

  datatype Task = Extraction(platform: string) | Sync(userId: int)

  /** A copy of a published task; `id` names the publish call it descends from. */
  datatype Msg = Msg(id: nat, task: Task, retry: nat)

  const MAX_RETRY: nat := 2

  datatype Custody = Unacked | Acked | Returned

  datatype Stage = Waiting | Running | Failed | AckDue | NackDue | Done

  datatype Outcome = Open | Succeeded | Exhausted | Republished

  /** A delivery; its delivery tag is its position in the history. */
  datatype Delivery = Delivery(msg: Msg, custody: Custody, stage: Stage, started: bool, outcome: Outcome)

  datatype State = State(tasks: seq<Task>, queue: seq<Msg>, deliveries: seq<Delivery>)

  datatype Step =
    | Publish(task: Task)
    | Deliver(i: nat)                      // the broker hands out any queued message
    | Start(t: nat)                        // the goroutine calls the handler
    | Finish(t: nat, ok: bool)             // the handler returns
    | Republish(t: nat)                    // the retry copy was published
    | RepublishError(t: nat, reached: bool)  // marshal or publish failed, or the channel is closed
    | Ack(t: nat, arrives: bool)
    | Nack(t: nat, arrives: bool)
    | Requeue(t: nat)                      // the channel or the connection is gone
    | Crash(t: nat)                        // the goroutine is gone

  const START := State([], [], [])

  predicate Enabled(s: State, step: Step) {
    match step
    case Publish(_) => true
    case Deliver(i) => i < |s.queue|
    case Start(t) => t < |s.deliveries| && s.deliveries[t].stage == Waiting
    case Finish(t, _) => t < |s.deliveries| && s.deliveries[t].stage == Running
    case Republish(t) => t < |s.deliveries| && s.deliveries[t].stage == Failed
    case RepublishError(t, _) => t < |s.deliveries| && s.deliveries[t].stage == Failed
    case Ack(t, _) => t < |s.deliveries| && s.deliveries[t].stage == AckDue
    case Nack(t, _) => t < |s.deliveries| && s.deliveries[t].stage == NackDue
    case Requeue(t) => t < |s.deliveries| && s.deliveries[t].custody == Unacked
    case Crash(t) => t < |s.deliveries|
  }

  function With(s: State, t: nat, d: Delivery): State
    requires t < |s.deliveries|
  {
    s.(deliveries := s.deliveries[t := d])
  }

  function Enqueue(s: State, m: Msg): State {
    s.(queue := s.queue + [m])
  }

  function Retried(m: Msg): Msg {
    m.(retry := m.retry + 1)
  }

  function GiveBack(s: State, t: nat): State
    requires t < |s.deliveries|
  {
    var d := s.deliveries[t];
    Enqueue(With(s, t, d.(custody := Returned)), d.msg)
  }

  function Apply(s: State, step: Step): State
    requires Enabled(s, step)
  {
    match step
    case Publish(task) => Enqueue(s.(tasks := s.tasks + [task]), Msg(|s.tasks|, task, 0))
    case Deliver(i) =>
      State(s.tasks, s.queue[..i] + s.queue[i + 1..],
            s.deliveries + [Delivery(s.queue[i], Unacked, Waiting, false, Open)])
    case Start(t) => With(s, t, s.deliveries[t].(stage := Running, started := true))
    case Finish(t, ok) =>
      var d := s.deliveries[t];
      if ok then With(s, t, d.(stage := AckDue, outcome := Succeeded))
      else if d.msg.retry < MAX_RETRY then With(s, t, d.(stage := Failed))
      else With(s, t, d.(stage := AckDue, outcome := Exhausted))
    case Republish(t) =>
      var d := s.deliveries[t];
      Enqueue(With(s, t, d.(stage := AckDue, outcome := Republished)), Retried(d.msg))
    case RepublishError(t, reached) =>
      var d := s.deliveries[t];
      var s' := With(s, t, d.(stage := NackDue));
      if reached then Enqueue(s', Retried(d.msg)) else s'
    case Ack(t, arrives) =>
      var d := s.deliveries[t];
      With(s, t, d.(stage := Done, custody := if arrives && d.custody == Unacked then Acked else d.custody))
    case Nack(t, arrives) =>
      var s' := With(s, t, s.deliveries[t].(stage := Done));
      if arrives && s.deliveries[t].custody == Unacked then GiveBack(s', t) else s'
    case Requeue(t) => GiveBack(s, t)
    case Crash(t) => With(s, t, s.deliveries[t].(stage := Done))
  }

  predicate Valid(s: State, steps: seq<Step>)
    decreases |steps|
  {
    steps != [] ==> Enabled(s, steps[0]) && Valid(Apply(s, steps[0]), steps[1..])
  }

  function Final(s: State, steps: seq<Step>): State
    requires Valid(s, steps)
    decreases |steps|
  {
    if steps == [] then s else Final(Apply(s, steps[0]), steps[1..])
  }

  // ---------- What every step keeps ----------

  predicate MsgOk(s: State, m: Msg) {
    m.id < |s.tasks| && m.task == s.tasks[m.id] && m.retry <= MAX_RETRY
  }

  predicate DeliveryOk(d: Delivery) {
    && (d.stage == Waiting ==> !d.started)
    && (d.stage == Running || d.stage == Failed || d.stage == AckDue || d.stage == NackDue ==> d.started)
    && (d.stage == AckDue ==> d.outcome != Open)
    && (d.stage != AckDue && d.stage != Done ==> d.outcome == Open)
    && (d.stage == Failed ==> d.msg.retry < MAX_RETRY)
    && (d.outcome == Exhausted ==> d.msg.retry == MAX_RETRY && d.started)
    && (d.custody == Acked ==> d.started && d.outcome != Open)
  }

  /** Every copy is a copy of its task with a retry count of 0, 1 or 2. */
  ghost predicate WellFormed(s: State) {
    && (forall i :: 0 <= i < |s.queue| ==> MsgOk(s, s.queue[i]))
    && (forall t :: 0 <= t < |s.deliveries| ==> MsgOk(s, s.deliveries[t].msg) && DeliveryOk(s.deliveries[t]))
  }

  lemma EnqueueWellFormed(s: State, m: Msg)
    requires WellFormed(s) && MsgOk(s, m)
    ensures WellFormed(Enqueue(s, m))
  {
  }

  lemma WithWellFormed(s: State, t: nat, d: Delivery)
    requires WellFormed(s) && t < |s.deliveries| && d.msg == s.deliveries[t].msg && DeliveryOk(d)
    ensures WellFormed(With(s, t, d))
  {
  }

  lemma StepKeepsWellFormed(s: State, step: Step)
    requires WellFormed(s) && Enabled(s, step)
    ensures WellFormed(Apply(s, step))
  {
    match step
    case Publish(task) =>
      EnqueueWellFormed(s.(tasks := s.tasks + [task]), Msg(|s.tasks|, task, 0));
    case Deliver(i) =>
    case Republish(t) =>
      var d := s.deliveries[t];
      var d' := d.(stage := AckDue, outcome := Republished);
      WithWellFormed(s, t, d');
      EnqueueWellFormed(With(s, t, d'), Retried(d.msg));
    case RepublishError(t, reached) =>
      var d := s.deliveries[t];
      var d' := d.(stage := NackDue);
      WithWellFormed(s, t, d');
      if reached { EnqueueWellFormed(With(s, t, d'), Retried(d.msg)); }
    case Nack(t, arrives) =>
      var d := s.deliveries[t].(stage := Done);
      WithWellFormed(s, t, d);
      if arrives && d.custody == Unacked { GiveBackWellFormed(With(s, t, d), t); }
    case Requeue(t) => GiveBackWellFormed(s, t);
    case _ =>
      WithWellFormed(s, step.t, Apply(s, step).deliveries[step.t]);
  }

  lemma GiveBackWellFormed(s: State, t: nat)
    requires WellFormed(s) && t < |s.deliveries| && s.deliveries[t].custody == Unacked
    ensures WellFormed(GiveBack(s, t))
  {
    var d := s.deliveries[t];
    WithWellFormed(s, t, d.(custody := Returned));
    EnqueueWellFormed(With(s, t, d.(custody := Returned)), d.msg);
  }

  ghost predicate Queued(s: State, id: nat) {
    exists i :: 0 <= i < |s.queue| && s.queue[i].id == id
  }

  /** Some delivery of a task that is not yet decided and not yet acknowledged. */
  ghost predicate InHand(s: State, id: nat) {
    exists t :: 0 <= t < |s.deliveries| && Undecided(s.deliveries[t], id)
  }

  predicate Undecided(d: Delivery, id: nat) {
    d.msg.id == id && d.custody == Unacked && d.outcome == Open
  }

  /** The handler succeeded on some copy, or failed on one that had no retry left. */
  ghost predicate Settled(s: State, id: nat) {
    exists t :: 0 <= t < |s.deliveries| && Decided(s.deliveries[t], id)
  }

  predicate Decided(d: Delivery, id: nat) {
    d.msg.id == id && (d.outcome == Succeeded || (d.outcome == Exhausted && d.msg.retry == MAX_RETRY))
  }

  ghost predicate Covered(s: State, id: nat) {
    Queued(s, id) || InHand(s, id) || Settled(s, id)
  }

  lemma EnqueueCovers(s: State, m: Msg, id: nat)
    requires Covered(s, id) || m.id == id
    ensures Covered(Enqueue(s, m), id)
  {
    var s' := Enqueue(s, m);
    if m.id == id {
      assert s'.queue[|s.queue|].id == id;
    } else if Queued(s, id) {
      var i :| 0 <= i < |s.queue| && s.queue[i].id == id;
      assert s'.queue[i].id == id;
    }
  }

  /** Replacing a delivery keeps a task covered unless it was the undecided copy being let go. */
  lemma WithCovers(s: State, t: nat, d: Delivery, id: nat)
    requires t < |s.deliveries| && d.msg == s.deliveries[t].msg
    requires Covered(s, id)
    requires Undecided(s.deliveries[t], id) ==> Undecided(d, id) || Decided(d, id) || Queued(s, id)
    requires Decided(s.deliveries[t], id) ==> Decided(d, id)
    ensures Covered(With(s, t, d), id)
  {
    var s' := With(s, t, d);
    if InHand(s, id) {
      var u :| 0 <= u < |s.deliveries| && Undecided(s.deliveries[u], id);
      assert s'.deliveries[u] == if u == t then d else s.deliveries[u];
    } else if Settled(s, id) {
      var u :| 0 <= u < |s.deliveries| && Decided(s.deliveries[u], id);
      assert s'.deliveries[u] == if u == t then d else s.deliveries[u];
    }
  }

  lemma MoveCovers(s: State, t: nat, d: Delivery, m: Msg, id: nat)
    requires t < |s.deliveries| && d.msg == s.deliveries[t].msg && m.id == d.msg.id
    requires Covered(s, id)
    ensures Covered(Enqueue(With(s, t, d), m), id)
  {
    if m.id != id {
      WithCovers(s, t, d, id);
    }
    EnqueueCovers(With(s, t, d), m, id);
  }

  lemma DeliverCovers(s: State, i: nat, id: nat)
    requires i < |s.queue| && Covered(s, id)
    ensures Covered(Apply(s, Deliver(i)), id)
  {
    var s' := Apply(s, Deliver(i));
    var n := |s.deliveries|;
    assert s'.deliveries[n] == Delivery(s.queue[i], Unacked, Waiting, false, Open);
    assert forall t :: 0 <= t < n ==> s'.deliveries[t] == s.deliveries[t];
    if Queued(s, id) {
      var j :| 0 <= j < |s.queue| && s.queue[j].id == id;
      if j == i {
        assert Undecided(s'.deliveries[n], id);
      } else {
        assert s'.queue[if j < i then j else j - 1].id == id;
      }
    }
  }

  /** No single step loses a task: the retry copy is published before the delivery is acknowledged. */
  lemma StepKeepsCovered(s: State, step: Step, id: nat)
    requires WellFormed(s) && Enabled(s, step) && Covered(s, id)
    ensures Covered(Apply(s, step), id)
  {
    match step
    case Publish(task) =>
      var s1 := s.(tasks := s.tasks + [task]);
      assert s1.queue == s.queue && s1.deliveries == s.deliveries;
      EnqueueCovers(s1, Msg(|s.tasks|, task, 0), id);
    case Deliver(i) => DeliverCovers(s, i, id);
    case Republish(t) =>
      var d := s.deliveries[t];
      MoveCovers(s, t, d.(stage := AckDue, outcome := Republished), Retried(d.msg), id);
    case RepublishError(t, reached) =>
      var d := s.deliveries[t];
      WithCovers(s, t, d.(stage := NackDue), id);
      if reached { EnqueueCovers(With(s, t, d.(stage := NackDue)), Retried(d.msg), id); }
    case Nack(t, arrives) =>
      var d := s.deliveries[t].(stage := Done);
      WithCovers(s, t, d, id);
      if arrives && d.custody == Unacked { MoveCovers(With(s, t, d), t, d.(custody := Returned), d.msg, id); }
    case Requeue(t) =>
      var d := s.deliveries[t];
      MoveCovers(s, t, d.(custody := Returned), d.msg, id);
    case _ =>
      WithCovers(s, step.t, Apply(s, step).deliveries[step.t], id);
  }

  ghost predicate Inv(s: State) {
    WellFormed(s) && forall id: nat :: id < |s.tasks| ==> Covered(s, id)
  }

  lemma StepKeepsInv(s: State, step: Step)
    requires Inv(s) && Enabled(s, step)
    ensures Inv(Apply(s, step))
  {
    StepKeepsWellFormed(s, step);
    forall id: nat | id < |Apply(s, step).tasks| ensures Covered(Apply(s, step), id) {
      if id < |s.tasks| {
        StepKeepsCovered(s, step, id);
      } else {
        EnqueueCovers(s.(tasks := s.tasks + [step.task]), Msg(id, step.task, 0), id);
      }
    }
  }

  lemma {:induction false} RunKeepsInv(s: State, steps: seq<Step>)
    requires Inv(s) && Valid(s, steps)
    ensures Inv(Final(s, steps))
    decreases |steps|
  {
    if steps != [] {
      StepKeepsInv(s, steps[0]);
      RunKeepsInv(Apply(s, steps[0]), steps[1..]);
    }
  }

  /** Held by the broker for some consumer, whatever has become of the handler. */
  ghost predicate Unacknowledged(s: State, id: nat) {
    exists t :: 0 <= t < |s.deliveries| && s.deliveries[t].msg.id == id && s.deliveries[t].custody == Unacked
  }

  /** Over every run, each published task is queued, unacknowledged, handled, or failed at retry count 2. */
  lemma NoTaskIsLost(steps: seq<Step>, id: nat)
    requires Valid(START, steps)
    requires id < |Final(START, steps).tasks|
    ensures var s := Final(START, steps); Queued(s, id) || Unacknowledged(s, id) || Settled(s, id)
  {
    RunKeepsInv(START, steps);
    var s := Final(START, steps);
    assert Covered(s, id);
    if InHand(s, id) {
      var t :| 0 <= t < |s.deliveries| && Undecided(s.deliveries[t], id);
      assert s.deliveries[t].msg.id == id && s.deliveries[t].custody == Unacked;
    }
  }

  // ---------- Bounded work ----------

  function One(b: bool): nat {
    if b then 1 else 0
  }

  /** Handler calls for the chosen tasks. */
  function Attempts(ds: seq<Delivery>, who: nat -> bool): nat {
    if ds == [] then 0 else One(ds[0].started && who(ds[0].msg.id)) + Attempts(ds[1..], who)
  }

  /** Handler calls whose delivery went back to the queue instead of being acknowledged. */
  function Unconfirmed(ds: seq<Delivery>, who: nat -> bool): nat {
    if ds == [] then 0
    else One(ds[0].started && ds[0].custody == Returned && who(ds[0].msg.id)) + Unconfirmed(ds[1..], who)
  }

  function Published(n: nat, who: nat -> bool): nat {
    if n == 0 then 0 else One(who(n - 1)) + Published(n - 1, who)
  }

  /** What a queued copy can still cost. */
  function MsgWeight(m: Msg, who: nat -> bool): int {
    if who(m.id) then 3 - m.retry else 0
  }

  function QueueWeight(q: seq<Msg>, who: nat -> bool): int {
    if q == [] then 0 else MsgWeight(q[0], who) + QueueWeight(q[1..], who)
  }

  /** What a delivery has cost and can still cost, less three for a handler call that was not confirmed. */
  function Charge(d: Delivery, who: nat -> bool): int {
    if !who(d.msg.id) then 0
    else One(d.started) - 3 * One(d.started && d.custody == Returned)
         + (if d.custody == Unacked && !d.started then 3 - d.msg.retry else 0)
         + (if d.stage == Running || d.stage == Failed then 2 - d.msg.retry else 0)
  }

  function Charges(ds: seq<Delivery>, who: nat -> bool): int {
    if ds == [] then 0 else Charge(ds[0], who) + Charges(ds[1..], who)
  }

  function Balance(s: State, who: nat -> bool): int {
    QueueWeight(s.queue, who) + Charges(s.deliveries, who) - 3 * Published(|s.tasks|, who)
  }

  lemma {:induction false} QueueWeightConcat(a: seq<Msg>, b: seq<Msg>, who: nat -> bool)
    ensures QueueWeight(a + b, who) == QueueWeight(a, who) + QueueWeight(b, who)
    decreases |a|
  {
    if a == [] {
      assert a + b == b;
    } else {
      assert (a + b)[1..] == a[1..] + b;
      QueueWeightConcat(a[1..], b, who);
    }
  }

  lemma {:induction false} ChargesUpdate(ds: seq<Delivery>, t: nat, d: Delivery, who: nat -> bool)
    requires t < |ds|
    ensures Charges(ds[t := d], who) == Charges(ds, who) - Charge(ds[t], who) + Charge(d, who)
    decreases |ds|
  {
    if t > 0 {
      assert ds[t := d][1..] == ds[1..][t - 1 := d];
      ChargesUpdate(ds[1..], t - 1, d, who);
    } else {
      assert ds[t := d][1..] == ds[1..];
    }
  }

  lemma {:induction false} ChargesSnoc(ds: seq<Delivery>, d: Delivery, who: nat -> bool)
    ensures Charges(ds + [d], who) == Charges(ds, who) + Charge(d, who)
    decreases |ds|
  {
    if ds == [] {
      assert (ds + [d])[1..] == [];
    } else {
      assert (ds + [d])[1..] == ds[1..] + [d];
      ChargesSnoc(ds[1..], d, who);
    }
  }

  lemma EnqueueBalance(s: State, m: Msg, who: nat -> bool)
    ensures Balance(Enqueue(s, m), who) == Balance(s, who) + MsgWeight(m, who)
  {
    QueueWeightConcat(s.queue, [m], who);
    assert [m][1..] == [];
  }

  lemma WithBalance(s: State, t: nat, d: Delivery, who: nat -> bool)
    requires t < |s.deliveries|
    ensures Balance(With(s, t, d), who) == Balance(s, who) - Charge(s.deliveries[t], who) + Charge(d, who)
  {
    ChargesUpdate(s.deliveries, t, d, who);
  }

  lemma DeliverBalance(s: State, i: nat, who: nat -> bool)
    requires i < |s.queue|
    ensures Balance(Apply(s, Deliver(i)), who) == Balance(s, who)
  {
    var q := s.queue;
    assert q == q[..i] + ([q[i]] + q[i + 1..]);
    QueueWeightConcat(q[..i], [q[i]] + q[i + 1..], who);
    QueueWeightConcat([q[i]], q[i + 1..], who);
    QueueWeightConcat(q[..i], q[i + 1..], who);
    assert [q[i]][1..] == [];
    ChargesSnoc(s.deliveries, Delivery(q[i], Unacked, Waiting, false, Open), who);
  }

  /** Publishing pays three; no other step costs more than was paid. */
  lemma StepBalance(s: State, step: Step, who: nat -> bool)
    requires WellFormed(s) && Enabled(s, step)
    ensures Balance(Apply(s, step), who) <= Balance(s, who)
  {
    match step
    case Publish(task) =>
      EnqueueBalance(s.(tasks := s.tasks + [task]), Msg(|s.tasks|, task, 0), who);
    case Deliver(i) => DeliverBalance(s, i, who);
    case Republish(t) => RetryBalance(s, t, s.deliveries[t].(stage := AckDue, outcome := Republished), who);
    case RepublishError(t, reached) => RetryBalance(s, t, s.deliveries[t].(stage := NackDue), who);
    case Nack(t, arrives) =>
      var d := s.deliveries[t].(stage := Done);
      WithBalance(s, t, d, who);
      if arrives && d.custody == Unacked { GiveBackBalance(With(s, t, d), t, who); }
    case Requeue(t) => GiveBackBalance(s, t, who);
    case _ => HandlerBalance(s, step, who);
  }

  /** The steps that touch one delivery and no message. */
  lemma HandlerBalance(s: State, step: Step, who: nat -> bool)
    requires WellFormed(s) && Enabled(s, step)
    requires step.Start? || step.Finish? || step.Ack? || step.Crash?
    ensures Balance(Apply(s, step), who) <= Balance(s, who)
  {
    var t, s' := step.t, Apply(s, step);
    var d, d' := s.deliveries[t], s'.deliveries[t];
    assert s' == With(s, t, d');
    assert DeliveryOk(d) && d.msg.retry <= MAX_RETRY;
    WithBalance(s, t, d', who);
  }

  /** Leaving the Failed stage pays for the retry copy, whether or not it was published. */
  lemma RetryBalance(s: State, t: nat, d: Delivery, who: nat -> bool)
    requires t < |s.deliveries| && s.deliveries[t].stage == Failed && s.deliveries[t].msg.retry < MAX_RETRY
    requires d == s.deliveries[t].(stage := d.stage, outcome := d.outcome)
    requires d.stage == AckDue || d.stage == NackDue
    ensures Balance(With(s, t, d), who) <= Balance(s, who)
    ensures Balance(Enqueue(With(s, t, d), Retried(d.msg)), who) <= Balance(s, who)
  {
    WithBalance(s, t, d, who);
    EnqueueBalance(With(s, t, d), Retried(d.msg), who);
  }

  lemma GiveBackBalance(s: State, t: nat, who: nat -> bool)
    requires t < |s.deliveries| && s.deliveries[t].custody == Unacked
    requires s.deliveries[t].msg.retry <= MAX_RETRY
    ensures Balance(GiveBack(s, t), who) <= Balance(s, who)
  {
    var d := s.deliveries[t];
    WithBalance(s, t, d.(custody := Returned), who);
    EnqueueBalance(With(s, t, d.(custody := Returned)), d.msg, who);
  }

  lemma {:induction false} RunBalance(s: State, steps: seq<Step>, who: nat -> bool)
    requires WellFormed(s) && Valid(s, steps)
    ensures WellFormed(Final(s, steps))
    ensures Balance(Final(s, steps), who) <= Balance(s, who)
    decreases |steps|
  {
    if steps != [] {
      StepKeepsWellFormed(s, steps[0]);
      StepBalance(s, steps[0], who);
      RunBalance(Apply(s, steps[0]), steps[1..], who);
    }
  }

  lemma {:induction false} QueueWeightNonNegative(q: seq<Msg>, who: nat -> bool)
    requires forall i :: 0 <= i < |q| ==> q[i].retry <= MAX_RETRY
    ensures QueueWeight(q, who) >= 0
    decreases |q|
  {
    if q != [] {
      QueueWeightNonNegative(q[1..], who);
    }
  }

  lemma {:induction false} ChargesCount(ds: seq<Delivery>, who: nat -> bool)
    requires forall t :: 0 <= t < |ds| ==> ds[t].msg.retry <= MAX_RETRY
    ensures Charges(ds, who) >= Attempts(ds, who) - 3 * Unconfirmed(ds, who)
    decreases |ds|
  {
    if ds != [] {
      ChargesCount(ds[1..], who);
    }
  }

  /** Over every run: at most three handler calls per task, and three more per call that was not confirmed. */
  lemma WorkIsBounded(steps: seq<Step>, who: nat -> bool)
    requires Valid(START, steps)
    ensures var s := Final(START, steps);
      Attempts(s.deliveries, who) <= 3 * Published(|s.tasks|, who) + 3 * Unconfirmed(s.deliveries, who)
  {
    RunBalance(START, steps, who);
    var s := Final(START, steps);
    QueueWeightNonNegative(s.queue, who);
    ChargesCount(s.deliveries, who);
  }

  lemma {:induction false} PublishedOnce(n: nat, id: nat)
    ensures Published(n, (i: nat) => i == id) == if id < n then 1 else 0
    decreases n
  {
    if n > 0 {
      PublishedOnce(n - 1, id);
    }
  }

  /** A task all of whose handler calls are acknowledged is tried at most three times. */
  lemma AtMostThreeAttempts(steps: seq<Step>, id: nat)
    requires Valid(START, steps)
    requires Unconfirmed(Final(START, steps).deliveries, (i: nat) => i == id) == 0
    ensures Attempts(Final(START, steps).deliveries, (i: nat) => i == id) <= 3
  {
    WorkIsBounded(steps, (i: nat) => i == id);
    PublishedOnce(|Final(START, steps).tasks|, id);
  }

  // ---------- Every retry is used ----------

  /** A handler call for the task at this retry count that is over and did not succeed. */
  predicate FailedTry(d: Delivery, id: nat, retry: nat) {
    && d.msg.id == id && d.msg.retry == retry && d.started
    && d.stage != Waiting && d.stage != Running && d.outcome != Succeeded
  }

  ghost predicate Tried(s: State, id: nat, retry: nat) {
    exists t :: 0 <= t < |s.deliveries| && FailedTry(s.deliveries[t], id, retry)
  }

  /** All lower counts of this copy's task were tried without success. */
  ghost predicate ClimbedTo(s: State, m: Msg) {
    forall k: nat :: k < m.retry ==> Tried(s, m.id, k)
  }

  ghost predicate Climbed(s: State) {
    && (forall i :: 0 <= i < |s.queue| ==> ClimbedTo(s, s.queue[i]))
    && (forall t :: 0 <= t < |s.deliveries| ==> ClimbedTo(s, s.deliveries[t].msg))
  }

  /** What was tried stays tried when deliveries are added or go on. */
  ghost predicate GoesOn(s: State, s': State) {
    && |s.deliveries| <= |s'.deliveries|
    && forall t, id: nat, k: nat :: 0 <= t < |s.deliveries| && FailedTry(s.deliveries[t], id, k) ==>
         FailedTry(s'.deliveries[t], id, k)
  }

  lemma GoesOnClimbed(s: State, s': State, m: Msg)
    requires GoesOn(s, s') && ClimbedTo(s, m)
    ensures ClimbedTo(s', m)
  {
    forall k: nat | k < m.retry ensures Tried(s', m.id, k) {
      assert Tried(s, m.id, k);
      var t :| 0 <= t < |s.deliveries| && FailedTry(s.deliveries[t], m.id, k);
      assert FailedTry(s'.deliveries[t], m.id, k);
    }
  }

  lemma WithGoesOn(s: State, t: nat, d: Delivery)
    requires t < |s.deliveries| && d.msg == s.deliveries[t].msg
    requires forall id: nat, k: nat :: FailedTry(s.deliveries[t], id, k) ==> FailedTry(d, id, k)
    ensures GoesOn(s, With(s, t, d))
  {
  }

  lemma StepGoesOn(s: State, step: Step)
    requires WellFormed(s) && Enabled(s, step)
    ensures GoesOn(s, Apply(s, step))
  {
    match step
    case Publish(_) =>
    case Deliver(_) =>
    case _ => WithGoesOn(s, step.t, Apply(s, step).deliveries[step.t]);
  }

  /** A copy after a step is one that was there, a new task's, or the next try of a copy that just failed. */
  lemma StepCopies(s: State, step: Step, m: Msg)
    requires WellFormed(s) && Enabled(s, step) && m in Apply(s, step).queue
    ensures
      || m in s.queue || m.retry == 0
      || (exists t :: 0 <= t < |s.deliveries| && s.deliveries[t].msg == m)
      || (exists t :: 0 <= t < |s.deliveries| && s.deliveries[t].stage == Failed
            && m == s.deliveries[t].msg.(retry := s.deliveries[t].msg.retry + 1))
  {
    match step
    case Publish(task) =>
    case Deliver(i) =>
    case Republish(t) => assert s.deliveries[t].stage == Failed;
    case RepublishError(t, _) => assert s.deliveries[t].stage == Failed;
    case Nack(t, _) => assert m in s.queue || s.deliveries[t].msg == m;
    case Requeue(t) => assert m in s.queue || s.deliveries[t].msg == m;
    case _ =>
  }

  lemma FailedCopyClimbs(s: State, t: nat, m: Msg)
    requires WellFormed(s) && t < |s.deliveries| && s.deliveries[t].stage == Failed && ClimbedTo(s, s.deliveries[t].msg)
    requires m == s.deliveries[t].msg.(retry := s.deliveries[t].msg.retry + 1)
    ensures ClimbedTo(s, m)
  {
    var d := s.deliveries[t];
    assert FailedTry(d, m.id, d.msg.retry);
    forall k: nat | k < m.retry ensures Tried(s, m.id, k) {
      if k < d.msg.retry {
        assert Tried(s, d.msg.id, k);
      }
    }
  }

  lemma QueueClimbs(s: State, step: Step, m: Msg)
    requires WellFormed(s) && Climbed(s) && Enabled(s, step) && m in Apply(s, step).queue
    ensures ClimbedTo(s, m)
  {
    if m in s.queue {
      var i :| 0 <= i < |s.queue| && s.queue[i] == m;
      assert ClimbedTo(s, s.queue[i]);
    } else {
      StepCopies(s, step, m);
      if t :| 0 <= t < |s.deliveries| && s.deliveries[t].stage == Failed
              && m == s.deliveries[t].msg.(retry := s.deliveries[t].msg.retry + 1) {
        FailedCopyClimbs(s, t, m);
      }
    }
  }

  lemma DeliveriesAreOld(s: State, step: Step, t: nat)
    requires Enabled(s, step) && t < |Apply(s, step).deliveries|
    ensures
      var m := Apply(s, step).deliveries[t].msg;
      m in s.queue || (t < |s.deliveries| && m == s.deliveries[t].msg)
  {
  }

  lemma StepKeepsClimbed(s: State, step: Step)
    requires WellFormed(s) && Climbed(s) && Enabled(s, step)
    ensures Climbed(Apply(s, step))
  {
    var s' := Apply(s, step);
    StepGoesOn(s, step);
    forall i | 0 <= i < |s'.queue| ensures ClimbedTo(s', s'.queue[i]) {
      QueueClimbs(s, step, s'.queue[i]);
      GoesOnClimbed(s, s', s'.queue[i]);
    }
    forall t | 0 <= t < |s'.deliveries| ensures ClimbedTo(s', s'.deliveries[t].msg) {
      var m := s'.deliveries[t].msg;
      DeliveriesAreOld(s, step, t);
      if m in s.queue {
        var i :| 0 <= i < |s.queue| && s.queue[i] == m;
        assert ClimbedTo(s, s.queue[i]);
      }
      GoesOnClimbed(s, s', m);
    }
  }

  /** Over every run each copy of a task, queued or delivered, was preceded by a failed try at every lower count. */
  lemma {:induction false} EveryCountIsTried(s: State, steps: seq<Step>)
    requires Inv(s) && Climbed(s) && Valid(s, steps)
    ensures Climbed(Final(s, steps))
    decreases |steps|
  {
    if steps != [] {
      StepKeepsInv(s, steps[0]);
      StepKeepsClimbed(s, steps[0]);
      EveryCountIsTried(Apply(s, steps[0]), steps[1..]);
    }
  }

  /** One handler call fewer. */
  lemma {:induction false} AttemptsDrop(ds: seq<Delivery>, who: nat -> bool, t: nat)
    requires t < |ds| && ds[t].started && who(ds[t].msg.id)
    ensures Attempts(ds, who) == 1 + Attempts(ds[t := ds[t].(started := false)], who)
    decreases |ds|
  {
    var ds' := ds[t := ds[t].(started := false)];
    if t == 0 {
      assert ds'[1..] == ds[1..];
    } else {
      assert ds'[1..] == ds[1..][t - 1 := ds[t].(started := false)];
      AttemptsDrop(ds[1..], who, t - 1);
    }
  }

  /** Three handler calls for the task at different places of the history. */
  lemma CountsThree(ds: seq<Delivery>, who: nat -> bool, a: nat, b: nat, c: nat)
    requires a < |ds| && b < |ds| && c < |ds| && a != b && a != c && b != c
    requires ds[a].started && ds[b].started && ds[c].started
    requires who(ds[a].msg.id) && who(ds[b].msg.id) && who(ds[c].msg.id)
    ensures Attempts(ds, who) >= 3
  {
    var ds1 := ds[a := ds[a].(started := false)];
    var ds2 := ds1[b := ds1[b].(started := false)];
    AttemptsDrop(ds, who, a);
    AttemptsDrop(ds1, who, b);
    AttemptsDrop(ds2, who, c);
  }

  /** A task that is given up was tried at counts 0, 1 and 2: at least three handler calls, and exactly three when
      every one of them was acknowledged. */
  lemma GivenUpMeansThreeTries(steps: seq<Step>, id: nat)
    requires Valid(START, steps)
    requires
      var ds := Final(START, steps).deliveries;
      exists t :: 0 <= t < |ds| && ds[t].msg.id == id && ds[t].outcome == Exhausted
    ensures
      var ds := Final(START, steps).deliveries;
      var who := (i: nat) => i == id;
      Attempts(ds, who) >= 3 && (Unconfirmed(ds, who) == 0 ==> Attempts(ds, who) == 3)
  {
    var s := Final(START, steps);
    RunKeepsInv(START, steps);
    EveryCountIsTried(START, steps);
    var c :| 0 <= c < |s.deliveries| && s.deliveries[c].msg.id == id && s.deliveries[c].outcome == Exhausted;
    assert MsgOk(s, s.deliveries[c].msg) && DeliveryOk(s.deliveries[c]);
    assert ClimbedTo(s, s.deliveries[c].msg) && Tried(s, id, 0) && Tried(s, id, 1);
    var a :| 0 <= a < |s.deliveries| && FailedTry(s.deliveries[a], id, 0);
    var b :| 0 <= b < |s.deliveries| && FailedTry(s.deliveries[b], id, 1);
    CountsThree(s.deliveries, (i: nat) => i == id, a, b, c);
    if Unconfirmed(s.deliveries, (i: nat) => i == id) == 0 {
      AtMostThreeAttempts(steps, id);
    }
  }

  // ---------- The handler goroutine ----------

  lemma {:induction false} RunSnoc(s: State, steps: seq<Step>, step: Step)
    requires Valid(s, steps) && Enabled(Final(s, steps), step)
    ensures Valid(s, steps + [step]) && Final(s, steps + [step]) == Apply(Final(s, steps), step)
    decreases |steps|
  {
    var more := steps + [step];
    if steps == [] {
      assert more[1..] == [];
      assert Valid(Apply(s, step), more[1..]);
    } else {
      assert more[1..] == steps[1..] + [step];
      RunSnoc(Apply(s, steps[0]), steps[1..], step);
    }
  }

  /** How the world answers one run of the goroutine. */
  datatype World = World(handlerOk: bool, marshalOk: bool, channelOpen: bool, publishOk: bool, reached: bool,
                         arrives: bool)

  class Consumer {
    var s: State

    method Do(step: Step, ghost start: State, ghost steps: seq<Step>) returns (ghost more: seq<Step>)
      requires Enabled(s, step)
      requires Valid(start, steps) && Final(start, steps) == s
      modifies this
      ensures s == Apply(old(s), step)
      ensures more == steps + [step] && Valid(start, more) && Final(start, more) == s
    {
      RunSnoc(start, steps, step);
      s := Apply(s, step);
      more := steps + [step];
    }

    /** One goroutine from start to end: a run of the step system that acknowledges the delivery
        unless a retry copy was due and could not be published. */
    method HandleDelivery(t: nat, w: World) returns (ghost steps: seq<Step>)
      requires t < |s.deliveries| && s.deliveries[t].stage == Waiting && s.deliveries[t].custody == Unacked
      modifies this
      ensures Valid(old(s), steps) && s == Final(old(s), steps)
      ensures |s.deliveries| == |old(s).deliveries| && s.deliveries[t].stage == Done
      ensures s.deliveries[t].msg == old(s).deliveries[t].msg
      ensures var m := s.deliveries[t].msg;
        var retryDue := !w.handlerOk && m.retry < MAX_RETRY;
        var sent := retryDue && w.marshalOk && w.channelOpen && w.publishOk;
        && (s.deliveries[t].custody == Acked <==> w.arrives && (retryDue ==> sent))
        && (s.deliveries[t].custody == Returned <==> w.arrives && retryDue && !sent)
        && var copied := sent || (retryDue && w.marshalOk && w.channelOpen && w.reached);
           s.queue == old(s).queue + (if copied then [m.(retry := m.retry + 1)] else [])
                      + (if s.deliveries[t].custody == Returned then [m] else [])
    {
      ghost var start := s;
      steps := Do(Start(t), start, []);
      steps := Do(Finish(t, w.handlerOk), start, steps);
      if w.handlerOk || s.deliveries[t].msg.retry >= MAX_RETRY {
        steps := Do(Ack(t, w.arrives), start, steps);
        return;
      }
      steps := Retry(t, w, start, steps);
    }

    /** The copy could not be published, as far as the code can tell: the delivery goes back. */
    method NackAfterError(t: nat, reached: bool, arrives: bool, ghost start: State, ghost steps: seq<Step>)
      returns (ghost more: seq<Step>)
      requires t < |s.deliveries| && s.deliveries[t].stage == Failed && s.deliveries[t].custody == Unacked
      requires Valid(start, steps) && Final(start, steps) == s
      modifies this
      ensures Valid(start, more) && Final(start, more) == s
      ensures |s.deliveries| == |old(s).deliveries|
      ensures
        var d, m := s.deliveries[t], old(s).deliveries[t].msg;
        && d.stage == Done && d.msg == m && d.custody == (if arrives then Returned else Unacked)
        && s.queue == old(s).queue + (if reached then [m.(retry := m.retry + 1)] else []) + (if arrives then [m]
          else [])
    {
      more := Do(RepublishError(t, reached), start, steps);
      more := Do(Nack(t, arrives), start, more);
    }

    /** The rest of the goroutine after a failure that has a retry left. */
    method Retry(t: nat, w: World, ghost start: State, ghost steps: seq<Step>) returns (ghost more: seq<Step>)
      requires t < |s.deliveries| && s.deliveries[t].stage == Failed && s.deliveries[t].custody == Unacked
      requires Valid(start, steps) && Final(start, steps) == s
      modifies this
      ensures Valid(start, more) && Final(start, more) == s
      ensures |s.deliveries| == |old(s).deliveries|
      ensures
        var sent := w.marshalOk && w.channelOpen && w.publishOk;
        var copied := sent || (w.marshalOk && w.channelOpen && w.reached);
        var d, m := s.deliveries[t], old(s).deliveries[t].msg;
        && d.stage == Done && d.msg == m
        && d.custody == (if !w.arrives then Unacked else if sent then Acked else Returned)
        && s.queue == old(s).queue + (if copied then [m.(retry := m.retry + 1)] else [])
                      + (if d.custody == Returned then [m] else [])
    {
      if !w.marshalOk || !w.channelOpen {
        more := NackAfterError(t, false, w.arrives, start, steps);
        return;
      }
      if !w.publishOk {
        more := NackAfterError(t, w.reached, w.arrives, start, steps);
        return;
      }
      more := Do(Republish(t), start, steps);
      more := Do(Ack(t, w.arrives), start, more);
    }
  }
}
