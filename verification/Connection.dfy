/**
  internal/queue/amqp.go: connectAMQP racing with Close. Connects exclude each
  other (connMu), so one of them at a time is between two of its actions; Close
  takes only q.mu and can fall between any two. A connection and the channel
  opened on it share one number.
 */
module Connection {
  import opened Common

  type Id = nat

  /** Where the running connectAMQP call stands. */
  datatype Progress =
    | Idle
    | Dialing
    | Dialed(c: Id)
    | HasChannel(c: Id)
    | HalfDeclared(c: Id)            // the extraction queue is declared
    | Declared(c: Id)                // both queues are declared
    | Discarding(c: Id)              // the queue was closed meanwhile: the channel is to be closed
    | DiscardingConn(c: Id)
    | Retiring(oldCh: Option<Id>, oldConn: Option<Id>)
    | RetiringConn(oldConn: Option<Id>)

  /** `conns` and `chans` are what the code has opened and not closed; `broken` is what the network has closed. */
  datatype State = State(
    next: Id,
    conns: set<Id>,
    chans: set<Id>,
    broken: set<Id>,
    conn: Option<Id>,      // q.AMQPConn
    chan: Option<Id>,      // q.AMQPChannel
    isClosed: bool,
    useInMemory: bool,
    at: Progress)

  datatype Step =
    | Begin                // the check under q.mu.RLock
    | Dial(ok: bool)
    | OpenChannel(ok: bool)
    | Declare(ok: bool)
    | Install              // the second check, and the swap, under q.mu.Lock
    | CloseChannel         // the next pending Close() of a channel
    | CloseConn            // the next pending Close() of a connection
    | CloseQueue           // Queue.Close
    | Break(id: Id)        // the network closes a connection or its channel

  function Initial(inMemory: bool): State {
    State(0, {}, {}, {}, None, None, false, inMemory, Idle)
  }

  predicate Healthy(s: State) {
    s.conn.Some? && s.chan.Some? && s.conn.value !in s.broken && s.chan.value !in s.broken
  }

  predicate Enabled(s: State, step: Step) {
    match step
    case Begin => s.at.Idle?
    case Dial(_) => s.at.Dialing?
    case OpenChannel(_) => s.at.Dialed?
    case Declare(_) => s.at.HasChannel? || s.at.HalfDeclared?
    case Install => s.at.Declared?
    case CloseChannel => s.at.Discarding? || s.at.Retiring?
    case CloseConn => s.at.DiscardingConn? || s.at.RetiringConn?
    case CloseQueue => true
    case Break(id) => id < s.next
  }

  function Opt(o: Option<Id>): set<Id> {
    match o
    case None => {}
    case Some(id) => {id}
  }

  function Apply(s: State, step: Step): State
    requires Enabled(s, step)
  {
    match step
    case Begin => if s.isClosed || Healthy(s) then s else s.(at := Dialing)
    case Dial(ok) =>
      if ok then s.(at := Dialed(s.next), next := s.next + 1, conns := s.conns + {s.next}) else s.(at := Idle)
    case OpenChannel(ok) =>
      if ok then s.(at := HasChannel(s.at.c), chans := s.chans + {s.at.c})
      else s.(at := Idle, conns := s.conns - {s.at.c})
    case Declare(ok) =>
      if !ok then s.(at := Idle, chans := s.chans - {s.at.c}, conns := s.conns - {s.at.c})
      else if s.at.HasChannel? then s.(at := HalfDeclared(s.at.c))
      else s.(at := Declared(s.at.c))
    case Install =>
      if s.isClosed then s.(at := Discarding(s.at.c))
      else s.(at := Retiring(s.chan, s.conn), conn := Some(s.at.c), chan := Some(s.at.c), useInMemory := false)
    case CloseChannel =>
      if s.at.Discarding? then s.(at := DiscardingConn(s.at.c), chans := s.chans - {s.at.c})
      else s.(at := RetiringConn(s.at.oldConn), chans := s.chans - Opt(s.at.oldCh))
    case CloseConn =>
      if s.at.DiscardingConn? then s.(at := Idle, conns := s.conns - {s.at.c})
      else s.(at := Idle, conns := s.conns - Opt(s.at.oldConn))
    case CloseQueue =>
      s.(isClosed := true, chans := s.chans - Opt(s.chan), chan := None, conns := s.conns - Opt(s.conn), conn := None)
    case Break(id) => s.(broken := s.broken + {id})
  }

  predicate Valid(s: State, steps: seq<Step>)
    decreases |steps|
  {
    steps != [] ==> Enabled(s, steps[0]) && Valid(Apply(s, steps[0]), steps[1..])
  }

  function Final(s: State, steps: seq<Step>): State
    requires Valid(s, steps)
    decreases |steps|
  {
    if steps == [] then s else Final(Apply(s, steps[0]), steps[1..])
  }

  /** The connections a connect in progress is still responsible for. */
  function PendingConns(at: Progress): set<Id> {
    match at
    case Idle => {}
    case Dialing => {}
    case Retiring(_, oldConn) => Opt(oldConn)
    case RetiringConn(oldConn) => Opt(oldConn)
    case _ => {at.c}
  }

  function PendingChans(at: Progress): set<Id> {
    match at
    case Idle => {}
    case Dialing => {}
    case Dialed(_) => {}
    case DiscardingConn(_) => {}
    case RetiringConn(_) => {}
    case Retiring(oldCh, _) => Opt(oldCh)
    case _ => {at.c}
  }

  /** Everything open is the current connection or one that the running connect will close or install. */
  ghost predicate Inv(s: State) {
    && s.conn == s.chan
    && (s.isClosed ==> s.conn == None)
    && s.conns == Opt(s.conn) + PendingConns(s.at)
    && s.chans == Opt(s.chan) + PendingChans(s.at)
    && Opt(s.conn) !! PendingConns(s.at)
    && Opt(s.chan) !! PendingChans(s.at)
    && (forall id :: id in s.conns || id in s.chans || id in s.broken ==> id < s.next)
  }

  lemma StepKeepsInv(s: State, step: Step)
    requires Inv(s) && Enabled(s, step)
    ensures Inv(Apply(s, step))
    ensures s.isClosed ==> Apply(s, step).isClosed
  {
  }

  /** In every reachable state between connects, the only open connection is the current one. */
  lemma {:induction false} NoLeakBetweenConnects(s: State, steps: seq<Step>)
    requires Inv(s) && Valid(s, steps)
    ensures var f := Final(s, steps);
      && Inv(f)
      && (f.at.Idle? ==> f.conns == Opt(f.conn) && f.chans == Opt(f.chan))
      && (f.at.Idle? && f.isClosed ==> f.conns == {} && f.chans == {})
    decreases |steps|
  {
    if steps != [] {
      StepKeepsInv(s, steps[0]);
      NoLeakBetweenConnects(Apply(s, steps[0]), steps[1..]);
    }
  }

  lemma InitiallyInv(inMemory: bool)
    ensures Inv(Initial(inMemory))
  {
  }

  /** From a new queue on: no leak between connects, and nothing installed once Close has returned. */
  lemma NewQueueIsSafe(inMemory: bool, before: seq<Step>, after: seq<Step>)
    requires Valid(Initial(inMemory), before)
    requires Valid(Apply(Final(Initial(inMemory), before), CloseQueue), after)
    ensures var f := Final(Initial(inMemory), before); f.at.Idle? ==> f.conns == Opt(f.conn) && f.chans == Opt(f.chan)
    ensures var f := Final(Apply(Final(Initial(inMemory), before), CloseQueue), after); f.conn == None && f.chan == None
  {
    InitiallyInv(inMemory);
    NoLeakBetweenConnects(Initial(inMemory), before);
    ClosedForever(Initial(inMemory), before, after);
  }

  /** Once Close has returned, connection and channel are nil in every later state, whatever was in progress. */
  lemma {:induction false} ClosedForever(s: State, before: seq<Step>, after: seq<Step>)
    requires Inv(s) && Valid(s, before)
    requires Valid(Apply(Final(s, before), CloseQueue), after)
    ensures var f := Final(Apply(Final(s, before), CloseQueue), after);
      f.isClosed && f.conn == None && f.chan == None
    decreases |after|
  {
    NoLeakBetweenConnects(s, before);
    var closed := Apply(Final(s, before), CloseQueue);
    StepKeepsInv(Final(s, before), CloseQueue);
    StaysClosed(closed, after);
  }

  lemma {:induction false} StaysClosed(s: State, steps: seq<Step>)
    requires Inv(s) && s.isClosed && Valid(s, steps)
    ensures Final(s, steps).isClosed && Inv(Final(s, steps))
    decreases |steps|
  {
    if steps != [] {
      StepKeepsInv(s, steps[0]);
      StaysClosed(Apply(s, steps[0]), steps[1..]);
    }
  }

  // ---------- The two operations, run without interference ----------

  lemma {:induction false} RunSnoc(s: State, steps: seq<Step>, step: Step)
    requires Valid(s, steps) && Enabled(Final(s, steps), step)
    ensures Valid(s, steps + [step]) && Final(s, steps + [step]) == Apply(Final(s, steps), step)
    decreases |steps|
  {
    var more := steps + [step];
    if steps == [] {
      assert more[1..] == [];
      assert Valid(Apply(s, step), more[1..]);
    } else {
      assert more[1..] == steps[1..] + [step];
      RunSnoc(Apply(s, steps[0]), steps[1..], step);
    }
  }

  class Queue {
    var s: State

    constructor (inMemory: bool)
      ensures s == Initial(inMemory) && Inv(s)
    {
      s := Initial(inMemory);
    }

    method Do(step: Step, ghost start: State, ghost steps: seq<Step>) returns (ghost more: seq<Step>)
      requires Inv(s) && Enabled(s, step)
      requires Valid(start, steps) && Final(start, steps) == s
      modifies this
      ensures Inv(s) && s == Apply(old(s), step)
      ensures more == steps + [step] && Valid(start, more) && Final(start, more) == s
    {
      RunSnoc(start, steps, step);
      StepKeepsInv(s, step);
      s := Apply(s, step);
      more := steps + [step];
    }

    /** connectAMQP: nil means a healthy connection is installed; an error leaves the queue as it was. */
    method ConnectAMQP(dialOk: bool, channelOk: bool, declare1Ok: bool, declare2Ok: bool)
      returns (ok: bool, ghost steps: seq<Step>)
      requires Inv(s) && s.at.Idle?
      modifies this
      ensures Inv(s) && s.at.Idle?
      ensures Valid(old(s), steps) && s == Final(old(s), steps)
      ensures ok <==> !s.isClosed && Healthy(s)
      ensures ok <==>
        !old(s).isClosed && (old(Healthy(s)) || (dialOk && channelOk && declare1Ok && declare2Ok))
      ensures !ok ==> s.conn == old(s).conn && s.chan == old(s).chan
      ensures ok && !old(Healthy(s)) ==> s.conn == s.chan == Some(old(s).next) && !s.useInMemory
    {
      ghost var start := s;
      steps := Do(Begin, start, []);
      if s.at.Idle? {
        ok := !s.isClosed;
        return;
      }
      steps := Do(Dial(dialOk), start, steps);
      if !dialOk {
        return false, steps;
      }
      steps := Do(OpenChannel(channelOk), start, steps);
      if !channelOk {
        return false, steps;
      }
      steps := Do(Declare(declare1Ok), start, steps);
      if !declare1Ok {
        return false, steps;
      }
      steps := Do(Declare(declare2Ok), start, steps);
      if !declare2Ok {
        return false, steps;
      }
      steps := Do(Install, start, steps);
      steps := Do(CloseChannel, start, steps);
      steps := Do(CloseConn, start, steps);
      ok := true;
    }

    method Close()
      requires Inv(s)
      modifies this
      ensures Inv(s) && s == Apply(old(s), CloseQueue)
      ensures s.isClosed && s.conn == None && s.chan == None
    {
      s := s.(isClosed := true);
      if s.chan.Some? {
        s := s.(chans := s.chans - {s.chan.value}, chan := None);
      }
      if s.conn.Some? {
        s := s.(conns := s.conns - {s.conn.value}, conn := None);
      }
    }
  }
}
