/** The agent's protocol machine: the fields of `Machine`, changed in place by Apply. */
module AgentMachine {
  import opened Protocol

  const TWO_TO_64: nat := 0x1_0000_0000_0000_0000

  /** The machine's fields as a value. */
  datatype State = State(
    connection: ConnectionState, session: SessionState, connectionId: string,
    nextClient: nat, nextAgent: nat, clientExhausted: bool, agentExhausted: bool,
    sessionId: string, nextOutput: nat,
    historyBegun: bool, historyCursor: nat, historyEnd: nat)
  {
    function Next(direction: Direction): nat {
      if direction == ClientToAgent then nextClient else nextAgent
    }

    predicate Exhausted(direction: Direction) {
      if direction == ClientToAgent then clientExhausted else agentExhausted
    }
  }

  const INITIAL := State(New, NoSession, "", 0, 0, false, false, "", 0, false, 0, 0)

  datatype Result = Result(state: State, outcome: Outcome)

  /** Subtraction of 64-bit unsigned words. */
  function Minus64(a: nat, b: nat): int {
    if b <= a then a - b else a - b + TWO_TO_64
  }

  /** The rows of the connection table, by message. */
  function ConnectionTransition(state: ConnectionState, direction: Direction,
                                message: MessageType): Option<ConnectionState> {
    match message
    case THello => if state == New && direction == ClientToAgent then Some(Negotiating) else None
    case THelloAck => if state == Negotiating && direction == AgentToClient then Some(Unauthenticated) else None
    case TPairingRequest => if state == Unauthenticated && direction == ClientToAgent then Some(Pairing) else None
    case TPairingResult => if state == Pairing && direction == AgentToClient then Some(Unauthenticated) else None
    case TAuthChallenge => if state == Unauthenticated && direction == AgentToClient then Some(Challenged) else None
    case TAuthResponse => if state == Challenged && direction == ClientToAgent then Some(Proving) else None
    case TAuthResult => if state == Proving && direction == AgentToClient then Some(Ready) else None
    case THeartbeat => if state == Ready then Some(Ready) else None
    case _ => None
  }

  /** The rows of the session table, by message. */
  function SessionTransition(connection: ConnectionState, state: SessionState, direction: Direction,
                             message: MessageType)
    : Option<SessionState>
  {
    if connection != Ready then None
    else if direction == ClientToAgent then
      match message
      case TOpenSession => if state == NoSession then Some(Opening) else None
      case TReopenSession => if state == NoSession then Some(Reopening) else None
      case TTerminalInput => if state == Open then Some(Open) else None
      case TResize => if state == Open then Some(Open) else None
      case TDetach => if state == Open then Some(Detaching) else None
      case TCloseSession => if state == Open then Some(SessionClosing) else None
      case _ => None
    else
      match message
      case TSessionOpened => if state == Opening then Some(Open) else None
      case TSessionReopened => if state == Reopening then Some(Replaying) else None
      case THistoryBegin => if state == Replaying then Some(Replaying) else None
      case THistoryChunk => if state == Replaying then Some(Replaying) else None
      case THistoryEnd => if state == Replaying then Some(Open) else None
      case TTerminalOutput => if state == Open then Some(Open) else None
      case TSessionDetached => if state == Detaching then Some(Detached) else None
      case TSessionClosed => if state == Open || state == SessionClosing then Some(SessionClosed) else None
      case _ => None
  }

  function Opposite(direction: Direction): Direction {
    if direction == ClientToAgent then AgentToClient else ClientToAgent
  }

  predicate HasTransition(connection: ConnectionState, session: SessionState, direction: Direction,
                          message: MessageType) {
    ConnectionTransition(connection, direction, message).Some? ||
    SessionTransition(connection, session, direction, message).Some?
  }

  /** The session-id check; a payload passed by value shows no id. */
  function CheckSessionId(m: State, payload: Payload): Result
    requires payload.HasSessionId()
  {
    if m.sessionId == "" then
      Result(m.(sessionId := payload.sessionId), Accepted)
    else if m.sessionId != payload.sessionId then
      if payload.HistoryBegin? || payload.HistoryChunk? || payload.HistoryEnd? || payload.TerminalOutput? then
        Result(m, Rejected(OutputOffsetInvalid, 1008))
      else
        Result(m, Rejected(SchemaInvalid, 1002))
    else
      Result(m, Accepted)
  }

  /** The offset bookkeeping of history and output payloads. */
  function TrackOffsets(m: State, payload: Payload): Result {
    var invalid := Result(m, Rejected(OutputOffsetInvalid, 1008));
    match payload
    case HistoryBegin(_, start, end, truncated) =>
      if m.historyBegun || start > end || end - start > MAX_SESSION_HISTORY || (!truncated && start != 0)
         || end != m.nextOutput
      then invalid
      else Result(m.(historyBegun := true, historyCursor := start, historyEnd := end), Accepted)
    case HistoryChunk(_, offset, data) =>
      if !m.historyBegun || offset != m.historyCursor || |data| > Minus64(m.historyEnd, m.historyCursor)
         || m.historyCursor > MAX_SEQUENCE - |data|
      then invalid
      else Result(m.(historyCursor := m.historyCursor + |data|), Accepted)
    case HistoryEnd(_, end) =>
      if !m.historyBegun || end != m.historyEnd || m.historyCursor != m.historyEnd
      then invalid
      else Result(m.(historyBegun := false), Accepted)
    case TerminalOutput(_, offset, data) =>
      if offset != m.nextOutput || m.nextOutput > MAX_SEQUENCE - |data|
      then invalid
      else Result(m.(nextOutput := m.nextOutput + |data|), Accepted)
    case _ => Result(m, Accepted)
  }

  function SessionSemantics(m: State, payload: Payload, byPointer: bool): Result {
    if !byPointer then Result(m, Accepted)
    else
      var checked := if payload.HasSessionId() then CheckSessionId(m, payload) else Result(m, Accepted);
      if checked.outcome.Rejected? then checked else TrackOffsets(checked.state, payload)
  }

  function TakeSequence(m: State, direction: Direction): State {
    match direction
    case ClientToAgent =>
      if m.nextClient == MAX_SEQUENCE then m.(clientExhausted := true) else m.(nextClient := m.nextClient + 1)
    case AgentToClient =>
      if m.nextAgent == MAX_SEQUENCE then m.(agentExhausted := true) else m.(nextAgent := m.nextAgent + 1)
  }

  function Transit(m: State, direction: Direction, message: MessageType): Result {
    match ConnectionTransition(m.connection, direction, message)
    case Some(next) => Result(m.(connection := next), Accepted)
    case None =>
      match SessionTransition(m.connection, m.session, direction, message)
      case Some(next) => Result(m.(session := next), Accepted)
      case None =>
        if HasTransition(m.connection, m.session, Opposite(direction), message)
        then Result(m, Rejected(DirectionViolation, 1008))
        else Result(m, Rejected(InvalidState, 1008))
  }

  /** What Apply does to the fields, as a function. */
  function Applied(m: State, direction: Direction, frame: Frame, byPointer: bool): Result {
    var named := if m.connectionId == "" then m.(connectionId := frame.connectionId) else m;
    if frame.connectionId != named.connectionId then Result(named, Rejected(SchemaInvalid, 1002))
    else if named.Exhausted(direction) then Result(named, Rejected(SequenceReplay, 1008))
    else if frame.sequence < named.Next(direction) then Result(named, Rejected(SequenceReplay, 1008))
    else if frame.sequence > named.Next(direction) then Result(named, Rejected(SequenceGap, 1008))
    else
      var taken := TakeSequence(named, direction);
      if frame.payload.FatalError? then
        if taken.connection == ConnectionClosed then Result(taken, Rejected(InvalidState, 1008))
        else Result(taken.(connection := ConnectionClosing), Accepted)
      else
        var tracked := SessionSemantics(taken, frame.payload, byPointer);
        if tracked.outcome.Rejected? then tracked
        else Transit(tracked.state, direction, frame.payload.Type())
  }

  class Machine {
    var connection: ConnectionState
    var session: SessionState
    var connectionId: string
    var nextClient: nat
    var nextAgent: nat
    var clientExhausted: bool
    var agentExhausted: bool
    var sessionId: string
    var nextOutput: nat
    var historyBegun: bool
    var historyCursor: nat
    var historyEnd: nat

    ghost function Fields(): State
      reads this
    {
      State(connection, session, connectionId, nextClient, nextAgent, clientExhausted, agentExhausted,
            sessionId, nextOutput, historyBegun, historyCursor, historyEnd)
    }

    constructor (connection: ConnectionState, session: SessionState, nextClient: nat, nextAgent: nat)
      ensures Fields() == INITIAL.(connection := connection, session := session, nextClient := nextClient,
                                   nextAgent := nextAgent)
    {
      this.connection, this.session := connection, session;
      this.nextClient, this.nextAgent := nextClient, nextAgent;
      connectionId, sessionId := "", "";
      clientExhausted, agentExhausted, historyBegun := false, false, false;
      nextOutput, historyCursor, historyEnd := 0, 0, 0;
    }

    method SetOutputOffset(offset: nat)
      modifies this`nextOutput
      ensures nextOutput == offset
    {
      nextOutput := offset;
    }

    method Apply(direction: Direction, frame: Frame, byPointer: bool) returns (outcome: Outcome)
      modifies this
      ensures Applied(old(Fields()), direction, frame, byPointer) == Result(Fields(), outcome)
    {
      if connectionId == "" { connectionId := frame.connectionId; }
      if frame.connectionId != connectionId { return Rejected(SchemaInvalid, 1002); }
      var exhausted := if direction == ClientToAgent then clientExhausted else agentExhausted;
      var expected := if direction == ClientToAgent then nextClient else nextAgent;
      if exhausted || frame.sequence < expected { return Rejected(SequenceReplay, 1008); }
      if frame.sequence > expected { return Rejected(SequenceGap, 1008); }
      ConsumeSequence(direction);
      if frame.payload.FatalError? {
        if connection == ConnectionClosed { return Rejected(InvalidState, 1008); }
        connection := ConnectionClosing;
        return Accepted;
      }
      outcome := ApplySessionSemantics(frame.payload, byPointer);
      if outcome.Rejected? { return; }
      var message := frame.payload.Type();
      var nextConnection := ConnectionTransition(connection, direction, message);
      if nextConnection.Some? {
        connection := nextConnection.value;
        return Accepted;
      }
      var nextSession := SessionTransition(connection, session, direction, message);
      if nextSession.Some? {
        session := nextSession.value;
        return Accepted;
      }
      if HasTransition(connection, session, Opposite(direction), message) {
        return Rejected(DirectionViolation, 1008);
      }
      return Rejected(InvalidState, 1008);
    }

    method ConsumeSequence(direction: Direction)
      modifies this
      ensures Fields() == TakeSequence(old(Fields()), direction)
    {
      if direction == ClientToAgent {
        if nextClient == MAX_SEQUENCE { clientExhausted := true; } else { nextClient := nextClient + 1; }
      } else {
        if nextAgent == MAX_SEQUENCE { agentExhausted := true; } else { nextAgent := nextAgent + 1; }
      }
    }

    method ApplySessionSemantics(payload: Payload, byPointer: bool) returns (outcome: Outcome)
      modifies this
      ensures SessionSemantics(old(Fields()), payload, byPointer) == Result(Fields(), outcome)
    {
      hide CheckSessionId;
      hide TrackOffsets;
      if !byPointer { return Accepted; }
      if payload.HasSessionId() {
        outcome := SeeSessionId(payload);
        if outcome.Rejected? { return; }
      }
      outcome := Track(payload);
    }

    method SeeSessionId(payload: Payload) returns (outcome: Outcome)
      requires payload.HasSessionId()
      modifies this`sessionId
      ensures CheckSessionId(old(Fields()), payload) == Result(Fields(), outcome)
    {
      if sessionId == "" {
        sessionId := payload.sessionId;
      } else if sessionId != payload.sessionId {
        if payload.HistoryBegin? || payload.HistoryChunk? || payload.HistoryEnd? || payload.TerminalOutput? {
          return Rejected(OutputOffsetInvalid, 1008);
        }
        return Rejected(SchemaInvalid, 1002);
      }
      return Accepted;
    }

    method Track(payload: Payload) returns (outcome: Outcome)
      modifies this
      ensures TrackOffsets(old(Fields()), payload) == Result(Fields(), outcome)
    {
      match payload {
        case HistoryBegin(_, start, end, truncated) =>
          if historyBegun || start > end || end - start > MAX_SESSION_HISTORY || (!truncated && start != 0)
             || end != nextOutput {
            return Rejected(OutputOffsetInvalid, 1008);
          }
          historyBegun, historyCursor, historyEnd := true, start, end;
        case HistoryChunk(_, offset, data) =>
          if !historyBegun || offset != historyCursor || |data| > Minus64(historyEnd, historyCursor)
             || historyCursor > MAX_SEQUENCE - |data| {
            return Rejected(OutputOffsetInvalid, 1008);
          }
          historyCursor := historyCursor + |data|;
        case HistoryEnd(_, end) =>
          if !historyBegun || end != historyEnd || historyCursor != historyEnd {
            return Rejected(OutputOffsetInvalid, 1008);
          }
          historyBegun := false;
        case TerminalOutput(_, offset, data) =>
          if offset != nextOutput || nextOutput > MAX_SEQUENCE - |data| {
            return Rejected(OutputOffsetInvalid, 1008);
          }
          nextOutput := nextOutput + |data|;
        case _ =>
      }
      return Accepted;
    }
  }

  /** The machine after a run, when every frame (decoded, so passed by pointer) is accepted and the
      output offset is set only while the session is being reopened. */
  function Run(m: State, events: seq<Event>): Option<State> {
    if events == [] then Some(m)
    else
      var last := events[|events| - 1];
      match Run(m, events[..|events| - 1])
      case None => None
      case Some(before) =>
        if last.SetOutput? then
          if before.session == Reopening then Some(before.(nextOutput := last.offset)) else None
        else
          var result := Applied(before, last.direction, last.frame, true);
          if result.outcome.Accepted? then Some(result.state) else None
  }
}
