/** What the send path is for: every frame gets its turn, received frames reach the machine and sent ones the socket. */
module SendProgress {
  import opened Protocol
  import opened SendPath
  import B = BrowserMachine

  // ---------- Received frames ----------

  /** The frames that arrived, in order. */
  function Arrivals(moves: seq<Move>): seq<Frame> {
    if moves == [] then []
    else
      var last := moves[|moves| - 1];
      Arrivals(moves[..|moves| - 1]) + if last.Arrive? then [last.frame] else []
  }

  /** A received frame has its turn with this move. */
  predicate HasTurn(s: State, move: Move) {
    move.TakeTurn? && s.queue != [] && s.pending.None? && s.queue[0].Receive?
  }

  /** The received frames that had their turn, in order. */
  function Heard(name: string, moves: seq<Move>): seq<Frame>
    requires Run(name, moves).Some?
  {
    if moves == [] then []
    else
      var front := moves[..|moves| - 1];
      var s := Run(name, front).value;
      Heard(name, front) + if HasTurn(s, moves[|moves| - 1]) then [s.queue[0].frame] else []
  }

  /** Those that had it while the connection was neither replaced nor failed, and that the machine accepts. */
  function Accepted(name: string, moves: seq<Move>): seq<Frame>
    requires Run(name, moves).Some?
  {
    if moves == [] then []
    else
      var front := moves[..|moves| - 1];
      var s := Run(name, front).value;
      Accepted(name, front) +
      if HasTurn(s, moves[|moves| - 1]) && s.live && !s.failed
         && B.Applied(s.machine, AgentToClient, s.queue[0].frame).outcome.Accepted?
      then [s.queue[0].frame] else []
  }

  function Received(queue: seq<Task>): seq<Frame> {
    if queue == [] then []
    else
      var last := queue[|queue| - 1];
      Received(queue[..|queue| - 1]) + if last.Receive? then [last.frame] else []
  }

  function Inbound(log: seq<Event>): seq<Frame> {
    if log == [] then []
    else
      var last := log[|log| - 1];
      Inbound(log[..|log| - 1]) + if last.Deliver? && last.direction == AgentToClient then [last.frame] else []
  }

  lemma {:induction false} ReceivedHead(queue: seq<Task>)
    requires queue != []
    ensures Received(queue) == (if queue[0].Receive? then [queue[0].frame] else []) + Received(queue[1..])
  {
    var front := queue[..|queue| - 1];
    if front == [] {
      assert queue[1..] == [];
    } else {
      ReceivedHead(front);
      assert queue[1..][..|queue| - 2] == front[1..];
    }
  }

  lemma ReceivedMore(queue: seq<Task>, task: Task)
    ensures Received(queue + [task]) == Received(queue) + if task.Receive? then [task.frame] else []
  {
    assert (queue + [task])[..|queue|] == queue;
  }

  lemma InboundMore(log: seq<Event>, direction: Direction, frame: Frame)
    ensures Inbound(log + [Deliver(direction, frame)]) == Inbound(log) + if direction == AgentToClient then [frame]
            else []
  {
    assert (log + [Deliver(direction, frame)])[..|log|] == log;
  }

  /** What a received frame does when its turn comes. */
  lemma InboundTurn(s: State)
    requires HasTurn(s, TakeTurn)
    ensures var (next, turn) := Turned(s);
            var result := B.Applied(s.machine, AgentToClient, s.queue[0].frame);
            && next.queue == s.queue[1..]
            && (s.live && !s.failed ==>
                && turn == Turn.Received(result.outcome) && next.machine == result.state
                && next.log == if result.outcome.Accepted? then s.log + [Deliver(AgentToClient, s.queue[0].frame)]
                               else s.log)
            && (!s.live || s.failed ==> turn == Skipped && next.machine == s.machine && next.log == s.log)
  {
    hide B.Applied;
    hide Less;
  }

  lemma OtherMoves(s: State, move: Move)
    requires Next(s, move).Some? && !HasTurn(s, move)
    ensures var n := Next(s, move).value;
            && Received(n.queue) == Received(s.queue) + (if move.Arrive? then [move.frame] else [])
            && Inbound(n.log) == Inbound(s.log)
  {
    hide Received;
    hide Inbound;
    hide B.Applied;
    hide Less;
    hide Digits;
    match move
    case Submit(payload, base) => ReceivedMore(s.queue, Send(s.calls, payload, base));
    case Arrive(frame) => ReceivedMore(s.queue, Receive(frame));
    case TakeTurn => ReceivedHead(s.queue);
    case Complete(taken) => ReceivedHead(s.queue); InboundMore(s.log, ClientToAgent, s.pending.value.frame);
    case _ =>
  }

  /** Over every run: received frames have their turns in the order they arrived, each once; and the machine's record of
      received frames holds exactly those that had their turn while the connection was neither replaced nor failed, and
      that the machine accepted. */
  lemma {:induction false} ReceivedInOrder(name: string, moves: seq<Move>)
    requires Run(name, moves).Some?
    ensures var s := Run(name, moves).value;
            && Heard(name, moves) + Received(s.queue) == Arrivals(moves)
            && Inbound(s.log) == Accepted(name, moves)
  {
    hide Next;
    hide Inbound;
    hide Received;
    hide B.Applied;
    hide Inv;
    if moves == [] {
      NothingReceived();
    } else {
      var front := moves[..|moves| - 1];
      var last := moves[|moves| - 1];
      ReceivedInOrder(name, front);
      var s := Run(name, front).value;
      if HasTurn(s, last) {
        TurnRecorded(s, last);
        ReceivedHead(s.queue);
      } else {
        OtherMoves(s, last);
      }
    }
  }

  lemma TurnRecorded(s: State, move: Move)
    requires HasTurn(s, move) && Next(s, move).Some?
    ensures Next(s, move).value.queue == s.queue[1..]
    ensures Inbound(Next(s, move).value.log) == Inbound(s.log) +
            if s.live && !s.failed && B.Applied(s.machine, AgentToClient, s.queue[0].frame).outcome.Accepted?
            then [s.queue[0].frame] else []
  {
    hide Turned;
    hide B.Applied;
    InboundTurn(s);
    InboundMore(s.log, AgentToClient, s.queue[0].frame);
  }

  lemma NothingReceived()
    ensures Received([]) == [] && Inbound([]) == []
  {
  }

  // ---------- Sent frames ----------

  datatype Call = Call(payload: Payload, base: nat)

  /** The frames that were admitted; the position is the call's number. */
  function Calls(name: string, moves: seq<Move>): seq<Call>
    requires Run(name, moves).Some?
  {
    if moves == [] then []
    else
      var front := moves[..|moves| - 1];
      WithCall(Calls(name, front), Run(name, front).value, moves[|moves| - 1])
  }

  function WithCall(calls: seq<Call>, s: State, move: Move): seq<Call> {
    if move.Submit? && Submitted(s, move.payload, move.base).1 == Admitted then calls + [Call(move.payload, move.base)]
    else calls
  }

  /** In every reachable state a frame is admitted exactly when the connection is there, the socket open, and the frame
      with its longest number fits one frame and, with what the socket holds and what is reserved, the limit; it then
      waits last in the queue, and a refused frame leaves everything as it was. */
  lemma {:induction false} AdmittedExactly(name: string, moves: seq<Move>, payload: Payload, base: nat)
    requires Run(name, moves).Some?
    ensures Run(name, moves + [Submit(payload, base)]).Some?
    ensures var s, n := Run(name, moves).value, Run(name, moves + [Submit(payload, base)]).value;
            var fits := base + 16 <= 65_536 && s.buffered + Reserved(s.queue) + base + 16 <= 65_536;
            if s.live && s.open && fits then
              && n.queue == s.queue + [Send(s.calls, payload, base)] && n.calls == s.calls + 1
              && Calls(name, moves + [Submit(payload, base)]) == Calls(name, moves) + [Call(payload, base)]
            else n == s
    ensures var s := Run(name, moves).value;
            Submitted(s, payload, base).1 ==
              if !s.live then NoConnection
              else if !s.open then TransportClosed
              else if base + 16 > 65_536 then FrameTooLarge
              else if s.buffered + Reserved(s.queue) + base + 16 > 65_536 then Backpressure
              else Admitted
  {
    ReservationsHold(name, moves);
    LongestNumber();
    RunOne(name, moves, Submit(payload, base));
    assert (moves + [Submit(payload, base)])[..|moves|] == moves;
    hide Run;
    hide Reserved;
    hide Digits;
  }

  /** A task, and a frame on the wire, belong to an admitted call. */
  predicate CallOf(calls: seq<Call>, task: Task) {
    task.Send? ==> task.call < |calls| && calls[task.call] == Call(task.payload, task.base)
  }

  predicate WireOf(calls: seq<Call>, sent: Sent) {
    && sent.call < |calls| && sent.frame.payload == calls[sent.call].payload
    && sent.size == Encoded(calls[sent.call].base, sent.frame.sequence)
  }

  ghost predicate FromCalls(s: State, calls: seq<Call>) {
    && |calls| == s.calls
    && (forall i | 0 <= i < |s.queue| :: CallOf(calls, s.queue[i]))
    && (forall i | 0 <= i < |s.wire| :: WireOf(calls, s.wire[i]))
  }

  lemma CallsStep(s: State, move: Move, calls: seq<Call>)
    requires FromCalls(s, calls) && Numbered(s) && Next(s, move).Some?
    ensures FromCalls(Next(s, move).value, WithCall(calls, s, move))
  {
    hide B.Applied;
    hide Turned;
    hide Completed;
    hide Numbered;
    hide Digits;
    var n := Next(s, move).value;
    match move
    case TakeTurn => Turns(s);
    case Complete(taken) => CompletedCalls(s, taken, calls);
    case _ =>
  }

  lemma CompletedCalls(s: State, taken: bool, calls: seq<Call>)
    requires FromCalls(s, calls) && Numbered(s) && s.queue != [] && s.queue[0].Send? && s.pending.Some?
    ensures FromCalls(Completed(s, taken), calls)
  {
    hide B.Applied;
    hide Less;
    hide Digits;
    hide CountsUp;
    hide InOrder;
    assert CallOf(calls, s.queue[0]);
  }

  /** Over every run: what is on the wire are admitted frames, with the payload that was admitted and the length counted
      for it. */
  lemma {:induction false} WireIsCalls(name: string, moves: seq<Move>)
    requires Run(name, moves).Some?
    ensures FromCalls(Run(name, moves).value, Calls(name, moves))
  {
    hide Next;
    hide FromCalls;
    hide WithCall;
    hide Inv;
    if moves == [] {
      NoCalls(name);
    } else {
      var front := moves[..|moves| - 1];
      WireIsCalls(name, front);
      RunNumbered(name, front);
      CallsStep(Run(name, front).value, moves[|moves| - 1], Calls(name, front));
    }
  }

  lemma NoCalls(name: string)
    ensures FromCalls(Initial(name), [])
  {
  }

  lemma RunNumbered(name: string, moves: seq<Move>)
    requires Run(name, moves).Some?
    ensures Numbered(Run(name, moves).value) && Accounts(Run(name, moves).value)
  {
    RunKeeps(name, moves);
  }

  /** The connection lets an outbound frame go: a failed one still says what failed. */
  predicate MayGo(s: State, payload: Payload) {
    s.live && s.open && (!s.failed || payload.FatalError?)
  }

  /** In every reachable state, an admitted frame whose turn comes is held for the socket exactly when the connection
      lets it go and the machine accepts it under the next number; no other reason refuses it, and else nothing of it
      stays. */
  lemma OutboundTurn(name: string, moves: seq<Move>)
    requires Run(name, moves).Some?
    requires var s := Run(name, moves).value; s.queue != [] && s.queue[0].Send? && s.pending.None?
    ensures var s := Run(name, moves).value;
            var (next, turn) := Turned(s);
            var result := B.Applied(s.machine, ClientToAgent, NextFrame(s, s.queue[0].payload));
            && (turn == Held <==> MayGo(s, s.queue[0].payload) && result.outcome.Accepted?)
            && (turn.Refused? <==> MayGo(s, s.queue[0].payload) && result.outcome.Rejected?)
            && (turn == Held ==> next == s.(machine := result.state,
                                            pending := Some(Pending(s.machine, NextFrame(s, s.queue[0].payload)))))
            && (turn != Held ==> next.queue == s.queue[1..] && next.wire == s.wire && next.log == s.log)
            && (!MayGo(s, s.queue[0].payload) ==> next.machine == s.machine)
  {
    ReservationsHold(name, moves);
    hide Run;
    hide B.Applied;
    hide Reserved;
    hide Digits;
    hide Less;
  }

  /** An admitted frame whose turn comes on a connection that lets it go, that the machine accepts and the socket
      takes, is the next on the wire, the machine stands after it, and its reservation has ended. */
  lemma {:induction false} SendReachesWire(name: string, moves: seq<Move>)
    requires Run(name, moves).Some?
    requires var s := Run(name, moves).value;
             && s.queue != [] && s.queue[0].Send? && s.pending.None? && MayGo(s, s.queue[0].payload)
             && B.Applied(s.machine, ClientToAgent, NextFrame(s, s.queue[0].payload)).outcome.Accepted?
    ensures Run(name, moves + [TakeTurn, Complete(true)]).Some?
    ensures var s, n := Run(name, moves).value, Run(name, moves + [TakeTurn, Complete(true)]).value;
            var frame := NextFrame(s, s.queue[0].payload);
            && n.wire == s.wire + [Sent(s.queue[0].call, frame, Encoded(s.queue[0].base, frame.sequence))]
            && n.log == s.log + [Deliver(ClientToAgent, frame)]
            && n.machine == B.Applied(s.machine, ClientToAgent, frame).state
            && n.queue == s.queue[1..] && n.pending == None
            && n.outbound + Reservation(s.queue[0].base) == s.outbound
            && n.buffered == s.buffered + Encoded(s.queue[0].base, frame.sequence)
  {
    hide B.Applied;
    hide Run;
    OutboundTurn(name, moves);
    var s := Run(name, moves).value;
    RunTwo(name, moves, TakeTurn, Complete(true));
    HeadReserved(name, moves);
    hide Turned;
    hide Digits;
  }

  lemma HeadReserved(name: string, moves: seq<Move>)
    requires Run(name, moves).Some? && Run(name, moves).value.queue != []
    ensures Run(name, moves).value.outbound >= Share(Run(name, moves).value.queue[0])
  {
    hide Run;
    ReservationsHold(name, moves);
    SendPath.ReservedHead(Run(name, moves).value.queue);
    hide Reserved;
  }

  lemma RunOne(name: string, moves: seq<Move>, move: Move)
    requires Run(name, moves).Some?
    ensures Run(name, moves + [move]) == Next(Run(name, moves).value, move)
  {
    hide Next;
    assert (moves + [move])[..|moves|] == moves;
  }

  lemma RunTwo(name: string, moves: seq<Move>, first: Move, second: Move)
    requires Run(name, moves).Some? && Next(Run(name, moves).value, first).Some?
    ensures Run(name, moves + [first, second]) == Next(Next(Run(name, moves).value, first).value, second)
  {
    hide Next;
    RunOne(name, moves, first);
    RunOne(name, moves + [first], second);
    assert moves + [first] + [second] == moves + [first, second];
  }

  // ---------- Every frame gets its turn ----------

  predicate Works(more: seq<Move>) {
    forall i | 0 <= i < |more| :: more[i] == TakeTurn || more[i] == Complete(true)
  }

  /** One task is worked off. */
  lemma WorkOne(name: string, moves: seq<Move>) returns (more: seq<Move>)
    requires Run(name, moves).Some? && Run(name, moves).value.queue != []
    ensures Works(more) && Run(name, moves + more).Some?
    ensures Run(name, moves + more).value.queue == Run(name, moves).value.queue[1..]
    ensures Run(name, moves + more).value.pending.None?
  {
    hide Run;
    hide B.Applied;
    hide Digits;
    hide Less;
    hide Numbered;
    RunNumbered(name, moves);
    hide Accounts;
    hide Turned;
    hide Completed;
    var s := Run(name, moves).value;
    if s.pending.Some? {
      HeldIsSend(name, moves);
      Completes(s);
      RunOne(name, moves, Complete(true));
      more := [Complete(true)];
    } else {
      RunOne(name, moves, TakeTurn);
      Turns(s);
      var n := Run(name, moves + [TakeTurn]).value;
      if n.pending.Some? {
        Completes(n);
        RunTwo(name, moves, TakeTurn, Complete(true));
        more := [TakeTurn, Complete(true)];
      } else {
        more := [TakeTurn];
      }
    }
  }

  lemma Turns(s: State)
    requires s.queue != [] && s.pending.None?
    ensures var n := Turned(s).0;
            && n.wire == s.wire && n.calls == s.calls
            && if n.pending.Some? then n.queue == s.queue && s.queue[0].Send? else n.queue == s.queue[1..]
  {
    hide B.Applied;
    hide Less;
    hide Digits;
  }

  lemma Completes(s: State)
    requires s.queue != [] && s.queue[0].Send? && s.pending.Some?
    ensures Completed(s, true).queue == s.queue[1..] && Completed(s, true).pending.None?
  {
    hide Less;
    hide Digits;
  }

  lemma HeldIsSend(name: string, moves: seq<Move>)
    requires Run(name, moves).Some? && Run(name, moves).value.pending.Some?
    ensures Run(name, moves).value.queue != [] && Run(name, moves).value.queue[0].Send?
  {
    RunNumbered(name, moves);
  }

  /** From every reachable state the queue can be worked off by turns alone, and then nothing is reserved any more. */
  lemma {:induction false} QueueDrains(name: string, moves: seq<Move>) returns (more: seq<Move>)
    requires Run(name, moves).Some?
    ensures Works(more) && Run(name, moves + more).Some?
    ensures var n := Run(name, moves + more).value; n.queue == [] && n.outbound == 0 && n.pending.None?
    decreases |Run(name, moves).value.queue|
  {
    hide Run;
    if Run(name, moves).value.queue == [] {
      more := [];
      assert moves + more == moves;
      ReservationsHold(name, moves);
      if Run(name, moves).value.pending.Some? { HeldIsSend(name, moves); }
    } else {
      var first := WorkOne(name, moves);
      var rest := QueueDrains(name, moves + first);
      assert moves + first + rest == moves + (first + rest);
      more := first + rest;
    }
  }
}
