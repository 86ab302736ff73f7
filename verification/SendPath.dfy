/** How one browser connection sends: frames reserve bytes, wait for the machine lock in call order, and are taken
    back when the socket refuses them. */
module SendPath {
  import opened Protocol
  import B = BrowserMachine

  const MAX_FRAME_BYTES: nat := 65_536
  const MAX_OUTBOUND_BUFFERED_BYTES := MAX_FRAME_BYTES

  /** Decimal digits of a number. */
  function Digits(n: nat): nat {
    if n < 10 then 1 else 1 + Digits(n / 10)
  }

  lemma LongestNumber()
    ensures Digits(MAX_SEQUENCE) == 16
  {
    assert Digits(9_007_199) == 7;
    assert Digits(9_007_199_254) == 10;
    assert Digits(9_007_199_254_740) == 13;
  }

  /** A frame's encoded length is that of everything but its sequence number, plus the number's digits. */
  function Encoded(base: nat, sequence: nat): nat {
    base + Digits(sequence)
  }

  function Reservation(base: nat): nat {
    Encoded(base, MAX_SEQUENCE)
  }

  /** A turn at the machine lock. Sends are numbered in call order. */
  datatype Task = Send(call: nat, payload: Payload, base: nat) | Receive(frame: Frame)

  /** The bytes a task keeps reserved until it is through. */
  function Share(task: Task): nat {
    match task
    case Send(_, _, base) => Reservation(base)
    case Receive(_) => 0
  }

  function Less(a: nat, b: nat): nat {
    if b <= a then a - b else 0
  }

  /** A frame the machine has accepted and the socket is about to get. */
  datatype Pending = Pending(previous: B.State, frame: Frame)

  datatype Sent = Sent(call: nat, frame: Frame, size: nat)

  /** log lists the frames that count: those received and accepted, and those handed to the socket, in lock order.
      doubted: a send was rolled back before the output offset was known.
      spoiled: a refused frame changed the machine. */
  datatype State = State(
    machine: B.State, name: string, buffered: nat, outbound: nat, queue: seq<Task>, pending: Option<Pending>,
    live: bool, open: bool, failed: bool, calls: nat, wire: seq<Sent>, log: seq<Event>, doubted: bool, spoiled: bool)
  {
    /** The head of the queue is through, whatever came of it. */
    function Done(): State
      requires queue != []
    {
      this.(queue := queue[1..], pending := None, outbound := Less(outbound, Share(queue[0])))
    }
  }

  function Initial(name: string): State {
    State(B.INITIAL, name, 0, 0, [], None, true, true, false, 0, [], [], false, false)
  }

  datatype Admission = Admitted | NoConnection | TransportClosed | FrameTooLarge | Backpressure

  /** sendFrame up to the lock. */
  function Submitted(s: State, payload: Payload, base: nat): (State, Admission) {
    if !s.live then (s, NoConnection)
    else if !s.open then (s, TransportClosed)
    else if Reservation(base) > MAX_FRAME_BYTES then (s, FrameTooLarge)
    else if s.buffered + s.outbound + Reservation(base) > MAX_OUTBOUND_BUFFERED_BYTES then (s, Backpressure)
    else (s.(outbound := s.outbound + Reservation(base), queue := s.queue + [Send(s.calls, payload, base)],
             calls := s.calls + 1), Admitted)
  }

  datatype Turn = Skipped | Received(outcome: Outcome) | Closed | OverLimit | Refused(outcome: Outcome) | Held

  function NextFrame(s: State, payload: Payload): Frame {
    Frame(s.name, s.machine.nextClient, payload)
  }

  /** An inbound frame has its turn at the lock. */
  function TurnedInbound(s: State, frame: Frame): (State, Turn)
    requires s.queue != []
  {
    if !s.live || s.failed then (s.Done(), Skipped)
    else
      var result := B.Applied(s.machine, AgentToClient, frame);
      var log := if result.outcome.Accepted? then s.log + [Deliver(AgentToClient, frame)] else s.log;
      (s.Done().(machine := result.state, log := log, spoiled := s.spoiled
                 || (result.outcome.Rejected? && result.state != s.machine)),
       Received(result.outcome))
  }

  /** An outbound frame has its turn: it gets its sequence number, is checked once more and applied. */
  function TurnedOutbound(s: State, payload: Payload, base: nat): (State, Turn)
    requires s.queue != []
  {
    if !s.live || (s.failed && !payload.FatalError?) then (s.Done(), Skipped)
    else if !s.open then (s.Done(), Closed)
    else
      var frame := NextFrame(s, payload);
      if s.buffered + Encoded(base, frame.sequence) > MAX_OUTBOUND_BUFFERED_BYTES then (s.Done(), OverLimit)
      else Attempted(s, frame)
  }

  /** The machine applies the outbound frame; accepted, it is held for the socket. */
  function Attempted(s: State, frame: Frame): (State, Turn)
    requires s.queue != []
  {
    var result := B.Applied(s.machine, ClientToAgent, frame);
    if result.outcome.Rejected? then
      (s.Done().(machine := result.state, spoiled := s.spoiled || result.state != s.machine), Refused(result.outcome))
    else (s.(machine := result.state, pending := Some(Pending(s.machine, frame))), Held)
  }

  /** The lock passes to the head of the queue. */
  function Turned(s: State): (State, Turn)
    requires s.queue != [] && s.pending.None?
  {
    match s.queue[0]
    case Receive(frame) => TurnedInbound(s, frame)
    case Send(_, payload, base) => TurnedOutbound(s, payload, base)
  }

  /** The socket takes the accepted frame, or throws and the machine is rolled back. */
  function Completed(s: State, taken: bool): State
    requires s.queue != [] && s.queue[0].Send? && s.pending.Some?
  {
    var Pending(previous, frame) := s.pending.value;
    if !s.live then s.Done()
    else if taken then
      var size := Encoded(s.queue[0].base, frame.sequence);
      s.Done().(buffered := s.buffered + size, wire := s.wire + [Sent(s.queue[0].call, frame, size)],
                log := s.log + [Deliver(ClientToAgent, frame)])
    else s.Done().(machine := B.Restored(previous), doubted := s.doubted || !previous.outputKnown)
  }

  /** The adapter's fields for one connection, changed in place. */
  class Connection {
    var machine: B.ProtocolContractMachine
    var name: string
    var buffered: nat
    var outbound: nat
    var queue: seq<Task>
    var pending: Option<Pending>
    var live: bool
    var open: bool
    var failed: bool
    var calls: nat
    ghost var wire: seq<Sent>
    ghost var log: seq<Event>
    ghost var doubted: bool
    ghost var spoiled: bool

    ghost function Fields(): State
      reads this, machine
    {
      State(machine.Fields(), name, buffered, outbound, queue, pending, live, open, failed, calls, wire, log, doubted,
            spoiled)
    }

    constructor (name: string)
      ensures Fields() == Initial(name) && fresh(machine)
    {
      machine := new B.ProtocolContractMachine();
      this.name := name;
      buffered, outbound, queue, pending, calls := 0, 0, [], None, 0;
      live, open, failed := true, true, false;
      wire, log, doubted, spoiled := [], [], false, false;
    }

    method SendFrame(payload: Payload, base: nat) returns (admission: Admission)
      modifies this
      ensures machine == old(machine) && (Fields(), admission) == Submitted(old(Fields()), payload, base)
    {
      if !live { return NoConnection; }
      if !open { return TransportClosed; }
      var reservation := Reservation(base);
      if reservation > MAX_FRAME_BYTES { return FrameTooLarge; }
      if buffered + outbound + reservation > MAX_OUTBOUND_BUFFERED_BYTES { return Backpressure; }
      outbound := outbound + reservation;
      queue := queue + [Send(calls, payload, base)];
      calls := calls + 1;
      return Admitted;
    }

    method Finish()
      requires queue != []
      modifies this`outbound, this`queue, this`pending
      ensures outbound == Less(old(outbound), Share(old(queue)[0])) && queue == old(queue)[1..] && pending == None
    {
      if queue[0].Send? {
        var reservation := Reservation(queue[0].base);
        outbound := if reservation <= outbound then outbound - reservation else 0;
      }
      queue, pending := queue[1..], None;
    }

    method TakeInbound(frame: Frame) returns (turn: Turn)
      requires queue != []
      modifies this, machine
      ensures machine == old(machine) && (Fields(), turn) == TurnedInbound(old(Fields()), frame)
    {
      hide B.Applied;
      hide Less;
      ghost var before := machine.Fields();
      if !live || failed {
        Finish();
        return Skipped;
      }
      var outcome := machine.Apply(AgentToClient, frame);
      Finish();
      if outcome.Accepted? { log := log + [Deliver(AgentToClient, frame)]; }
      spoiled := spoiled || (outcome.Rejected? && machine.Fields() != before);
      return Received(outcome);
    }

    method TakeOutbound(payload: Payload, base: nat) returns (turn: Turn)
      requires queue != []
      modifies this, machine
      ensures machine == old(machine) && (Fields(), turn) == TurnedOutbound(old(Fields()), payload, base)
    {
      hide Attempted;
      hide Less;
      hide Encoded;
      hide B.ProtocolContractMachine.Fields;
      if !live || (failed && !payload.FatalError?) {
        Finish();
        return Skipped;
      }
      if !open {
        Finish();
        return Closed;
      }
      var previous := Snapshot();
      var frame := Frame(name, previous.nextClient, payload);
      if buffered + Encoded(base, frame.sequence) > MAX_OUTBOUND_BUFFERED_BYTES {
        Finish();
        return OverLimit;
      }
      turn := Attempt(previous, frame);
    }

    method Attempt(previous: B.State, frame: Frame) returns (turn: Turn)
      requires queue != [] && previous == machine.Fields()
      modifies this, machine
      ensures machine == old(machine) && (Fields(), turn) == Attempted(old(Fields()), frame)
    {
      hide B.Applied;
      hide Less;
      hide B.ProtocolContractMachine.Fields;
      var outcome := machine.Apply(ClientToAgent, frame);
      if outcome.Rejected? {
        Finish();
        spoiled := spoiled || machine.Fields() != previous;
        return Refused(outcome);
      }
      pending := Some(Pending(previous, frame));
      return Held;
    }

    method TakeTurn() returns (turn: Turn)
      requires queue != [] && pending.None?
      modifies this, machine
      ensures machine == old(machine) && (Fields(), turn) == Turned(old(Fields()))
    {
      hide TurnedInbound;
      hide TurnedOutbound;
      match queue[0] {
        case Receive(frame) => turn := TakeInbound(frame);
        case Send(_, payload, base) => turn := TakeOutbound(payload, base);
      }
    }

    method Snapshot() returns (snapshot: B.State)
      ensures snapshot == machine.Fields()
    {
      snapshot := B.State(machine.connection, machine.session, machine.nextClient, machine.nextAgent,
                          machine.connectionId,
                          machine.nextOutput, machine.history, machine.sessionId, machine.outputKnown);
    }

    /** The socket took the frame. */
    method Record(call: nat, frame: Frame, size: nat)
      modifies this`buffered, this`wire, this`log
      ensures buffered == old(buffered) + size && wire == old(wire) + [Sent(call, frame, size)]
      ensures log == old(log) + [Deliver(ClientToAgent, frame)]
    {
      buffered := buffered + size;
      wire, log := wire + [Sent(call, frame, size)], log + [Deliver(ClientToAgent, frame)];
    }

    /** The socket threw: a machine built from the snapshot takes over. */
    method RollBack(previous: B.State)
      modifies this`machine, this`doubted
      ensures fresh(machine) && machine.Fields() == B.Restored(previous)
      ensures doubted == (old(doubted) || !previous.outputKnown)
    {
      machine := new B.ProtocolContractMachine.FromSnapshot(previous);
      doubted := doubted || !previous.outputKnown;
    }

    method Complete(taken: bool)
      requires queue != [] && queue[0].Send? && pending.Some?
      modifies this
      ensures (machine == old(machine) || fresh(machine)) && Fields() == Completed(old(Fields()), taken)
    {
      hide Less;
      hide Encoded;
      hide B.Restored;
      hide B.ProtocolContractMachine.Fields;
      var Pending(previous, frame) := pending.value;
      if live {
        if taken {
          Record(queue[0].call, frame, Encoded(queue[0].base, frame.sequence));
        } else {
          RollBack(previous);
        }
      }
      Finish();
    }
  }

  // ---------- Every order of events ----------

  datatype Move =
    | Submit(payload: Payload, base: nat)
    | Arrive(frame: Frame)
    | TakeTurn
    | Complete(taken: bool)
    | Drain(bytes: nat)
    | CloseSocket
    | Fail
    | Release

  /** The connection after one event, or None when it cannot happen. */
  function Next(s: State, move: Move): Option<State> {
    match move
    case Submit(payload, base) => Some(Submitted(s, payload, base).0)
    case Arrive(frame) => if s.live then Some(s.(queue := s.queue + [Receive(frame)])) else None
    case TakeTurn => if s.queue != [] && s.pending.None? then Some(Turned(s).0) else None
    case Complete(taken) =>
      if s.queue != [] && s.queue[0].Send? && s.pending.Some? then Some(Completed(s, taken)) else None
    case Drain(bytes) => if bytes <= s.buffered then Some(s.(buffered := s.buffered - bytes)) else None
    case CloseSocket => Some(s.(open := false))
    case Fail => Some(s.(failed := true))
    case Release => Some(s.(live := false))
  }

  function Run(name: string, moves: seq<Move>): Option<State> {
    if moves == [] then Some(Initial(name))
    else
      match Run(name, moves[..|moves| - 1])
      case None => None
      case Some(before) => Next(before, moves[|moves| - 1])
  }

  // ---------- Reservations ----------

  function Reserved(queue: seq<Task>): nat {
    if queue == [] then 0
    else Reserved(queue[..|queue| - 1]) + Share(queue[|queue| - 1])
  }

  lemma {:induction false} ReservedHead(queue: seq<Task>)
    requires queue != []
    ensures Reserved(queue) == Reserved(queue[1..]) + Share(queue[0])
  {
    var front := queue[..|queue| - 1];
    if front == [] {
      assert queue[1..] == [];
    } else {
      ReservedHead(front);
      assert queue[1..][..|queue| - 2] == front[1..];
    }
  }

  lemma ReservedAppend(queue: seq<Task>, task: Task)
    ensures Reserved(queue + [task]) == Reserved(queue) + Share(task)
  {
    assert (queue + [task])[..|queue|] == queue;
  }

  /** A longer number has no fewer digits. */
  lemma {:induction false} DigitsClimb(m: nat, n: nat)
    requires m <= n
    ensures Digits(m) <= Digits(n)
  {
    if m >= 10 {
      DigitsClimb(m / 10, n / 10);
    }
  }

  ghost predicate Accounts(s: State) {
    && s.outbound == Reserved(s.queue)
    && s.buffered + s.outbound <= MAX_OUTBOUND_BUFFERED_BYTES
    && (s.pending.Some? ==> s.queue != [] && s.queue[0].Send? && s.pending.value.frame.sequence <= MAX_SEQUENCE)
    && s.machine.nextClient <= MAX_SEQUENCE
  }

  lemma AppliedSequence(t: B.State, direction: Direction, frame: Frame)
    ensures var result := B.Applied(t, direction, frame);
            && (result.outcome.Accepted? ==> frame.sequence == t.Next(direction) < MAX_SEQUENCE)
            && result.state.nextClient == (if result.outcome.Accepted? && direction == ClientToAgent
                                           then t.nextClient + 1 else t.nextClient)
  {
  }

  lemma AccountsDone(s: State)
    requires Accounts(s) && s.queue != []
    ensures Accounts(s.Done())
  {
    hide Share;
    ReservedHead(s.queue);
  }

  lemma AccountsInbound(s: State, frame: Frame)
    requires Accounts(s) && s.queue != []
    ensures Accounts(TurnedInbound(s, frame).0)
  {
    AccountsDone(s);
    hide B.Applied;
    hide Reserved;
    AppliedSequence(s.machine, AgentToClient, frame);
  }

  lemma AccountsOutbound(s: State, payload: Payload, base: nat)
    requires Accounts(s) && s.queue != [] && s.queue[0].Send?
    ensures Accounts(TurnedOutbound(s, payload, base).0)
  {
    AccountsDone(s);
    hide B.Applied;
    hide Reserved;
    hide Digits;
    AppliedSequence(s.machine, ClientToAgent, NextFrame(s, payload));
  }

  lemma AccountsComplete(s: State, taken: bool)
    requires Accounts(s) && s.pending.Some? && s.pending.value.previous.nextClient <= MAX_SEQUENCE
    ensures Accounts(Completed(s, taken))
  {
    AccountsDone(s);
    ReservedHead(s.queue);
    hide Reserved;
    DigitsClimb(s.pending.value.frame.sequence, MAX_SEQUENCE);
    hide Digits;
  }

  lemma AccountsStep(s: State, move: Move)
    requires Accounts(s) && Next(s, move).Some?
    requires s.pending.Some? ==> s.pending.value.previous.nextClient <= MAX_SEQUENCE
    ensures Accounts(Next(s, move).value)
  {
    hide TurnedInbound;
    hide TurnedOutbound;
    hide Completed;
    hide Reserved;
    hide Digits;
    match move
    case Submit(payload, base) => ReservedAppend(s.queue, Send(s.calls, payload, base));
    case Arrive(frame) => ReservedAppend(s.queue, Receive(frame));
    case TakeTurn =>
      match s.queue[0] {
        case Receive(frame) => AccountsInbound(s, frame);
        case Send(_, payload, base) => AccountsOutbound(s, payload, base);
      }
    case Complete(taken) => AccountsComplete(s, taken);
    case _ =>
  }

  // ---------- Sequences and the machine ----------

  /** The machine's state but for a frame that is about to be sent. */
  function Settled(s: State): B.State {
    if s.pending.Some? then s.pending.value.previous else s.machine
  }

  /** Calls are numbered in order, on the wire and in the queue behind it. */
  ghost predicate InOrder(wire: seq<Sent>, queue: seq<Task>, calls: nat) {
    && (forall i, j | 0 <= i < j < |wire| :: wire[i].call < wire[j].call)
    && (forall i | 0 <= i < |wire| :: wire[i].call < calls)
    && (forall i | 0 <= i < |queue| && queue[i].Send? :: queue[i].call < calls)
    && (forall i, j | 0 <= i < j < |queue| && queue[i].Send? && queue[j].Send? :: queue[i].call < queue[j].call)
    && (forall i, j | 0 <= i < |wire| && 0 <= j < |queue| && queue[j].Send? :: wire[i].call < queue[j].call)
  }

  lemma OrderPops(wire: seq<Sent>, queue: seq<Task>, calls: nat)
    requires InOrder(wire, queue, calls) && queue != []
    ensures InOrder(wire, queue[1..], calls)
  {
  }

  lemma OrderSends(wire: seq<Sent>, queue: seq<Task>, calls: nat, sent: Sent)
    requires InOrder(wire, queue, calls) && queue != [] && queue[0].Send? && sent.call == queue[0].call
    ensures InOrder(wire + [sent], queue[1..], calls)
  {
  }

  ghost predicate CountsUp(wire: seq<Sent>, name: string) {
    forall i | 0 <= i < |wire| :: wire[i].frame.sequence == i && wire[i].frame.connectionId == name
  }

  ghost predicate Numbered(s: State) {
    && CountsUp(s.wire, s.name) && InOrder(s.wire, s.queue, s.calls)
    && (s.live ==> Settled(s).nextClient == |s.wire|)
    && (s.pending.Some? ==>
        && s.queue != [] && s.queue[0].Send?
        && s.pending.value.frame == Frame(s.name, s.pending.value.previous.nextClient, s.queue[0].payload)
        && B.Applied(s.pending.value.previous, ClientToAgent, s.pending.value.frame) == B.Result(s.machine, Accepted))
  }

  lemma NumberedInbound(s: State, frame: Frame)
    requires Numbered(s) && s.queue != [] && s.pending.None?
    ensures Numbered(TurnedInbound(s, frame).0)
  {
    hide B.Applied;
    hide InOrder;
    hide CountsUp;
    hide Less;
    OrderPops(s.wire, s.queue, s.calls);
    AppliedSequence(s.machine, AgentToClient, frame);
  }

  lemma NumberedOutbound(s: State, payload: Payload, base: nat)
    requires Numbered(s) && s.queue != [] && s.pending.None? && s.queue[0].Send? && s.queue[0].payload == payload
    ensures Numbered(TurnedOutbound(s, payload, base).0)
  {
    hide B.Applied;
    hide InOrder;
    hide CountsUp;
    hide Less;
    hide Digits;
    OrderPops(s.wire, s.queue, s.calls);
    AppliedSequence(s.machine, ClientToAgent, NextFrame(s, payload));
  }

  lemma NumberedComplete(s: State, taken: bool)
    requires Numbered(s) && s.pending.Some?
    ensures Numbered(Completed(s, taken))
  {
    hide B.Applied;
    hide InOrder;
    hide Less;
    hide Digits;
    OrderPops(s.wire, s.queue, s.calls);
    OrderSends(s.wire, s.queue, s.calls,
               Sent(s.queue[0].call, s.pending.value.frame, Encoded(s.queue[0].base, s.pending.value.frame.sequence)));
    AppliedSequence(s.pending.value.previous, ClientToAgent, s.pending.value.frame);
  }

  lemma NumberedStep(s: State, move: Move)
    requires Numbered(s) && Next(s, move).Some?
    ensures Numbered(Next(s, move).value)
  {
    match move
    case TakeTurn =>
      hide TurnedInbound;
      hide TurnedOutbound;
      match s.queue[0] {
        case Receive(frame) => NumberedInbound(s, frame);
        case Send(_, payload, base) => NumberedOutbound(s, payload, base);
      }
    case Complete(taken) => NumberedComplete(s, taken);
    case _ => hide B.Applied;
  }

  /** The machine is where the frames of the log lead, but that it may think it knows the output offset. */
  ghost predicate Tracks(s: State) {
    s.live && !s.spoiled ==>
      && B.Run(B.INITIAL, s.log).Some?
      && var run := B.Run(B.INITIAL, s.log).value;
         Settled(s) == if s.doubted then B.Restored(run) else run
  }

  /** A machine that thinks it knows the output offset accepts no more, and what it accepts leads to the same. */
  lemma RestoredFollows(t: B.State, direction: Direction, frame: Frame)
    requires B.Applied(B.Restored(t), direction, frame).outcome.Accepted?
    ensures B.Applied(t, direction, frame).outcome.Accepted?
    ensures B.Applied(B.Restored(t), direction, frame).state == B.Restored(B.Applied(t, direction, frame).state)
  {
    hide B.FindTransition;
  }

  lemma LogGrows(log: seq<Event>, direction: Direction, frame: Frame, doubted: bool)
    requires B.Run(B.INITIAL, log).Some?
    requires var run := B.Run(B.INITIAL, log).value;
             B.Applied(if doubted then B.Restored(run) else run, direction, frame).outcome.Accepted?
    ensures var more := log + [Deliver(direction, frame)];
            var run := B.Run(B.INITIAL, log).value;
            && B.Run(B.INITIAL, more).Some?
            && B.Applied(if doubted then B.Restored(run) else run, direction, frame).state ==
                 if doubted then B.Restored(B.Run(B.INITIAL, more).value) else B.Run(B.INITIAL, more).value
  {
    hide B.Applied;
    assert (log + [Deliver(direction, frame)])[..|log|] == log;
    if doubted {
      RestoredFollows(B.Run(B.INITIAL, log).value, direction, frame);
    }
  }

  lemma TracksTurn(s: State)
    requires Tracks(s) && s.queue != [] && s.pending.None?
    ensures Tracks(Turned(s).0)
  {
    hide B.Applied;
    hide B.Run;
    if s.live && !s.spoiled && s.queue[0].Receive?
       && B.Applied(s.machine, AgentToClient, s.queue[0].frame).outcome.Accepted? {
      LogGrows(s.log, AgentToClient, s.queue[0].frame, s.doubted);
    }
  }

  lemma TracksComplete(s: State, taken: bool)
    requires Tracks(s) && Numbered(s) && s.pending.Some?
    ensures Tracks(Completed(s, taken))
  {
    hide B.Applied;
    hide B.Run;
    if s.live && !s.spoiled && taken {
      LogGrows(s.log, ClientToAgent, s.pending.value.frame, s.doubted);
    }
  }

  lemma TracksStep(s: State, move: Move)
    requires Tracks(s) && Numbered(s) && Next(s, move).Some?
    ensures Tracks(Next(s, move).value)
  {
    match move
    case TakeTurn => TracksTurn(s);
    case Complete(taken) => TracksComplete(s, taken);
    case _ => hide B.Applied; hide B.Run;
  }

  ghost predicate Inv(s: State) {
    && Accounts(s) && Numbered(s) && Tracks(s)
    && (s.pending.Some? ==> s.pending.value.previous.nextClient <= MAX_SEQUENCE)
  }

  lemma TurnedBasics(s: State)
    requires s.queue != [] && s.pending.None?
    ensures var n := Turned(s).0;
            && n.name == s.name
            && (n.pending.Some? ==> n.pending.value.previous == s.machine)
  {
    hide B.Applied;
    hide Less;
    hide Digits;
  }

  lemma NextBasics(s: State, move: Move)
    requires Inv(s) && Next(s, move).Some?
    ensures var n := Next(s, move).value;
            n.name == s.name && (n.pending.Some? ==> n.pending.value.previous.nextClient <= MAX_SEQUENCE)
  {
    hide Turned;
    hide Reserved;
    hide Numbered;
    hide Tracks;
    hide Less;
    hide Digits;
    if move.TakeTurn? {
      TurnedBasics(s);
    }
  }

  lemma {:induction false} RunKeeps(name: string, moves: seq<Move>)
    requires Run(name, moves).Some?
    ensures Inv(Run(name, moves).value)
  {
    hide Next;
    hide Accounts;
    hide Numbered;
    hide Tracks;
    if moves == [] {
      InitialKeeps(name);
    } else {
      RunKeeps(name, moves[..|moves| - 1]);
      var before := Run(name, moves[..|moves| - 1]).value;
      AccountsStep(before, moves[|moves| - 1]);
      NumberedStep(before, moves[|moves| - 1]);
      TracksStep(before, moves[|moves| - 1]);
      NextBasics(before, moves[|moves| - 1]);
    }
  }

  lemma InitialKeeps(name: string)
    ensures Inv(Initial(name))
  {
  }

  // ---------- What follows ----------

  /** Whatever was queued, drained and received in between: the bytes counted as outbound are those of unfinished
      reservations, the socket never holds more than its limit, and a frame that got its reservation is never
      turned away by the second check. */
  lemma ReservationsHold(name: string, moves: seq<Move>)
    requires Run(name, moves).Some?
    ensures var s := Run(name, moves).value;
            && s.outbound == Reserved(s.queue) && s.buffered <= MAX_OUTBOUND_BUFFERED_BYTES
            && (s.queue != [] && s.pending.None? ==> Turned(s).1 != OverLimit)
  {
    hide B.Applied;
    hide B.Run;
    RunKeeps(name, moves);
    var s := Run(name, moves).value;
    if s.queue != [] && s.pending.None? {
      ReservedHead(s.queue);
      DigitsClimb(s.machine.nextClient, MAX_SEQUENCE);
    }
  }

  /** The frames handed to the socket carry 0, 1, 2, ... in call order, whatever was refused, rejected or failed. */
  lemma WireCountsUp(name: string, moves: seq<Move>)
    requires Run(name, moves).Some?
    ensures var wire := Run(name, moves).value.wire;
            && (forall i | 0 <= i < |wire| :: wire[i].frame.sequence == i && wire[i].frame.connectionId == name)
            && (forall i, j | 0 <= i < j < |wire| :: wire[i].call < wire[j].call)
  {
    hide Next;
    hide B.Applied;
    RunKeeps(name, moves);
    NameStays(name, moves);
  }

  lemma {:induction false} NameStays(name: string, moves: seq<Move>)
    requires Run(name, moves).Some?
    ensures Run(name, moves).value.name == name
  {
    hide Next;
    hide Inv;
    if moves != [] {
      NameStays(name, moves[..|moves| - 1]);
      RunKeeps(name, moves[..|moves| - 1]);
      NextBasics(Run(name, moves[..|moves| - 1]).value, moves[|moves| - 1]);
    }
  }

  /** No rollback loses an inbound frame: between turns the machine is exactly where the frames received and the
      frames on the wire lead, unless a send was rolled back before the output offset was known. */
  lemma RollbackLosesNothing(name: string, moves: seq<Move>)
    requires Run(name, moves).Some?
    requires var s := Run(name, moves).value; s.live && !s.spoiled && s.pending.None?
    ensures var s := Run(name, moves).value;
            && B.Run(B.INITIAL, s.log).Some?
            && var run := B.Run(B.INITIAL, s.log).value;
               s.machine == if s.doubted then B.Restored(run) else run
  {
    hide Next;
    hide B.Applied;
    RunKeeps(name, moves);
  }

  /** A refused frame leaves a machine that has its name alone, short of the last sequence number. */
  lemma RefusalSpoilsNothing(t: B.State, direction: Direction, frame: Frame)
    requires t.connectionId.Some? && frame.sequence < MAX_SEQUENCE && B.Applied(t, direction, frame).outcome.Rejected?
    ensures B.Applied(t, direction, frame).state == t
  {
    hide B.FindTransition;
  }

  // ---------- What a rollback may change ----------

  /** The frame is a history_begin that ends elsewhere than at the offset of a machine that does not know it. */
  predicate Untold(t: B.State, event: Event) {
    event.Deliver? && event.frame.payload.HistoryBegin? && !t.outputKnown
    && event.frame.payload.endOffset != t.nextOutput
  }

  /** No history_begin of the run is Untold when it comes. */
  ghost predicate AllTold(t: B.State, events: seq<Event>) {
    forall n | 0 <= n < |events| && B.Run(t, events[..n]).Some? :: !Untold(B.Run(t, events[..n]).value, events[n])
  }

  /** Of the frames a machine accepts, its rolled-back copy refuses exactly the Untold ones. */
  lemma RolledBackStep(t: B.State, direction: Direction, frame: Frame)
    requires B.Applied(t, direction, frame).outcome.Accepted?
    ensures B.Applied(B.Restored(t), direction, frame).outcome.Accepted? <==> !Untold(t, Deliver(direction, frame))
  {
    hide B.FindTransition;
  }

  lemma AllToldFront(t: B.State, events: seq<Event>)
    requires events != []
    ensures var front := events[..|events| - 1];
            AllTold(t, events) <==>
                AllTold(t, front) && (B.Run(t, front).Some? ==> !Untold(B.Run(t, front).value, events[|events| - 1]))
  {
    hide B.Run;
    hide Untold;
    var front := events[..|events| - 1];
    assert forall n | 0 <= n < |front| :: front[..n] == events[..n] && front[n] == events[n];
  }

  /** Of the runs a machine accepts, its rolled-back copy accepts exactly those without an Untold history_begin, and
      ends in the same state but for the flag; if the output offset was known, all of them. */
  lemma {:induction false} RolledBackRun(t: B.State, events: seq<Event>)
    requires B.Run(t, events).Some?
    ensures B.Run(B.Restored(t), events).Some? <==> AllTold(t, events)
    ensures B.Run(B.Restored(t), events).Some? ==>
              B.Run(B.Restored(t), events).value == B.Restored(B.Run(t, events).value)
    ensures t.outputKnown ==> AllTold(t, events)
  {
    if t.outputKnown {
      assert B.Restored(t) == t;
    }
    hide B.Applied;
    hide AllTold;
    hide B.Restored;
    if events == [] {
      NothingToTell(t);
    } else {
      var front := events[..|events| - 1];
      var last := events[|events| - 1];
      RolledBackRun(t, front);
      AllToldFront(t, events);
      var run := B.Run(t, front).value;
      if last.Deliver? {
        RolledBackStep(run, last.direction, last.frame);
        if B.Applied(B.Restored(run), last.direction, last.frame).outcome.Accepted? {
          RestoredFollows(run, last.direction, last.frame);
        }
      }
    }
  }

  lemma NothingToTell(t: B.State)
    ensures AllTold(t, [])
  {
  }
}
