/** The browser's protocol machine, `ProtocolContractMachine`. */
module BrowserMachine {
  import opened Protocol

  datatype History = History(begun: bool, cursor: nat, endOffset: nat)

  /** The snapshot together with the private flag that says whether its output offset means anything. */
  datatype State = State(
    connection: ConnectionState, session: SessionState, nextClient: nat, nextAgent: nat,
    connectionId: Option<string>, nextOutput: nat, history: Option<History>, sessionId: Option<string>,
    outputKnown: bool)
  {
    function Next(direction: Direction): nat {
      if direction == ClientToAgent then nextClient else nextAgent
    }
  }

  const INITIAL := State(New, NoSession, 0, 0, None, 0, None, None, false)

  /** A machine built from a snapshot: a snapshot always carries an output offset, so it counts as known. */
  function Restored(snapshot: State): State {
    snapshot.(outputKnown := true)
  }

  datatype Result = Result(state: State, outcome: Outcome)

  /** The fields a transition overwrites. */
  datatype Transition = Transition(connection: Option<ConnectionState>, session: Option<SessionState>)

  datatype Lookup = Found(transition: Transition) | Violation(code: ErrorCode)

  function ToConnection(next: ConnectionState): Option<Transition> { Some(Transition(Some(next), None)) }

  function ToSession(next: SessionState): Option<Transition> { Some(Transition(None, Some(next))) }

  /** The entries under the keys "connection|direction|message". */
  function ConnectionEntry(connection: ConnectionState, direction: Direction,
                           message: MessageType): Option<Transition> {
    match message
    case THello => if connection == New && direction == ClientToAgent then ToConnection(Negotiating) else None
    case THelloAck =>
      if connection == Negotiating && direction == AgentToClient then ToConnection(Unauthenticated) else None
    case TPairingRequest =>
      if connection == Unauthenticated && direction == ClientToAgent then ToConnection(Pairing) else None
    case TPairingResult =>
      if connection == Pairing && direction == AgentToClient then ToConnection(Unauthenticated) else None
    case TAuthChallenge =>
      if connection == Unauthenticated && direction == AgentToClient then ToConnection(Challenged) else None
    case TAuthResponse => if connection == Challenged && direction == ClientToAgent then ToConnection(Proving) else None
    case TAuthResult => if connection == Proving && direction == AgentToClient then ToConnection(Ready) else None
    case THeartbeat => if connection == Ready then ToConnection(Ready) else None
    case _ => None
  }

  /** The entries under the keys "connection|session|direction|message". */
  function SessionEntry(connection: ConnectionState, session: SessionState, direction: Direction, message: MessageType)
    : Option<Transition>
  {
    if connection != Ready then None
    else
      match message
      case TOpenSession => if session == NoSession && direction == ClientToAgent then ToSession(Opening) else None
      case TSessionOpened => if session == Opening && direction == AgentToClient then ToSession(Open) else None
      case TReopenSession => if session == NoSession && direction == ClientToAgent then ToSession(Reopening) else None
      case TSessionReopened => if session == Reopening && direction == AgentToClient then ToSession(Replaying) else None
      case THistoryBegin => if session == Replaying && direction == AgentToClient then ToSession(Replaying) else None
      case THistoryChunk => if session == Replaying && direction == AgentToClient then ToSession(Replaying) else None
      case THistoryEnd => if session == Replaying && direction == AgentToClient then ToSession(Open) else None
      case TTerminalInput => if session == Open && direction == ClientToAgent then ToSession(Open) else None
      case TTerminalOutput => if session == Open && direction == AgentToClient then ToSession(Open) else None
      case TResize => if session == Open && direction == ClientToAgent then ToSession(Open) else None
      case TDetach => if session == Open && direction == ClientToAgent then ToSession(Detaching) else None
      case TSessionDetached => if session == Detaching && direction == AgentToClient then ToSession(Detached) else None
      case TCloseSession => if session == Open && direction == ClientToAgent then ToSession(SessionClosing) else None
      case TSessionClosed =>
        if (session == SessionClosing || session == Open) && direction == AgentToClient then ToSession(SessionClosed)
        else None
      case _ => None
  }

  function FindTransition(connection: ConnectionState, session: SessionState, direction: Direction,
                          message: MessageType): Lookup {
    if message == TError && connection != ConnectionClosed then
      Found(Transition(Some(ConnectionClosing), None))
    else
      match ConnectionEntry(connection, direction, message)
      case Some(entry) => Found(entry)
      case None =>
        match SessionEntry(connection, session, direction, message)
        case Some(entry) => Found(entry)
        case None =>
          var opposite := if direction == ClientToAgent then AgentToClient else ClientToAgent;
          if ConnectionEntry(connection, opposite, message).Some?
             || SessionEntry(connection, session, opposite, message).Some?
          then Violation(DirectionViolation)
          else Violation(InvalidState)
  }

  /** The session id and offset checks, with the snapshot they leave. */
  function ValidateSessionData(t: State, payload: Payload): Result {
    var invalid := Result(t, Rejected(OutputOffsetInvalid, 1008));
    if t.sessionId.Some? && payload.HasSessionId() && !payload.ReopenSession? && payload.sessionId != t.sessionId.value
    then invalid
    else
      match payload
      case SessionOpened(id) => Result(t.(sessionId := Some(id), nextOutput := 0, outputKnown := true), Accepted)
      case SessionReopened(id) => Result(t.(sessionId := Some(id)), Accepted)
      case HistoryBegin(_, start, end, truncated) =>
        if end < start || end - start > MAX_SESSION_HISTORY || (!truncated && start != 0)
           || (t.outputKnown && end != t.nextOutput)
        then invalid
        else Result(t.(history := Some(History(true, start, end)), nextOutput := end, outputKnown := true), Accepted)
      case HistoryChunk(_, offset, data) =>
        if t.history.None? || !t.history.value.begun || offset != t.history.value.cursor
           || offset + |data| > t.history.value.endOffset || offset + |data| > MAX_SEQUENCE
        then invalid
        else Result(t.(history := Some(t.history.value.(cursor := t.history.value.cursor + |data|))), Accepted)
      case HistoryEnd(_, end) =>
        if t.history.None? || !t.history.value.begun || t.history.value.cursor != t.history.value.endOffset
           || end != t.history.value.endOffset
        then invalid
        else Result(t.(nextOutput := end, history := None), Accepted)
      case TerminalOutput(_, offset, data) =>
        if offset != t.nextOutput || offset + |data| > MAX_SEQUENCE
        then invalid
        else Result(t.(nextOutput := t.nextOutput + |data|), Accepted)
      case _ => Result(t, Accepted)
  }

  function Commit(t: State, direction: Direction, transition: Transition): State {
    var sequenced :=
        if direction == ClientToAgent then t.(nextClient := t.nextClient + 1) else t.(nextAgent := t.nextAgent + 1);
    sequenced.(
      connection := if transition.connection.Some? then transition.connection.value else t.connection,
      session := if transition.session.Some? then transition.session.value else t.session)
  }

  /** The checks on connection id, version and sequence, in that order. */
  function CheckEnvelope(t: State, direction: Direction, frame: Frame): Result {
    var named := if t.connectionId.None? then t.(connectionId := Some(frame.connectionId)) else t;
    if frame.connectionId != named.connectionId.value then Result(named, Rejected(SchemaInvalid, 1002))
    else if !frame.OffersVersion() then Result(named, Rejected(UnsupportedVersion, 1002))
    else if frame.sequence < named.Next(direction) then Result(named, Rejected(SequenceReplay, 1008))
    else if frame.sequence > named.Next(direction) then Result(named, Rejected(SequenceGap, 1008))
    else Result(named, Accepted)
  }

  /** What apply does to the machine, as a function. */
  function Applied(t: State, direction: Direction, frame: Frame): Result {
    var checked := CheckEnvelope(t, direction, frame);
    if checked.outcome.Rejected? then checked
    else
      var named := checked.state;
      match FindTransition(named.connection, named.session, direction, frame.payload.Type())
      case Violation(code) => Result(named, Rejected(code, 1008))
      case Found(transition) =>
        var validated := ValidateSessionData(named, frame.payload);
        if validated.outcome.Rejected? then validated
        else if frame.sequence >= MAX_SEQUENCE then Result(validated.state, Rejected(SequenceGap, 1008))
        else Result(Commit(validated.state, direction, transition), Accepted)
  }

  class ProtocolContractMachine {
    var connection: ConnectionState
    var session: SessionState
    var nextClient: nat
    var nextAgent: nat
    var connectionId: Option<string>
    var nextOutput: nat
    var history: Option<History>
    var sessionId: Option<string>
    var outputKnown: bool

    ghost function Fields(): State
      reads this
    {
      State(connection, session, nextClient, nextAgent, connectionId, nextOutput, history, sessionId, outputKnown)
    }

    constructor ()
      ensures Fields() == INITIAL
    {
      connection, session, nextClient, nextAgent := New, NoSession, 0, 0;
      connectionId, history, sessionId := None, None, None;
      nextOutput, outputKnown := 0, false;
    }

    constructor FromSnapshot(snapshot: State)
      ensures Fields() == Restored(snapshot)
    {
      connection, session, nextClient, nextAgent := snapshot.connection, snapshot.session, snapshot.nextClient,
          snapshot.nextAgent;
      connectionId, history, sessionId := snapshot.connectionId, snapshot.history, snapshot.sessionId;
      nextOutput, outputKnown := snapshot.nextOutput, true;
    }

    method Apply(direction: Direction, frame: Frame) returns (outcome: Outcome)
      modifies this
      ensures Applied(old(Fields()), direction, frame) == Result(Fields(), outcome)
    {
      outcome := Envelope(direction, frame);
      if outcome.Rejected? { return; }
      var lookup := FindTransition(connection, session, direction, frame.payload.Type());
      if lookup.Violation? { return Rejected(lookup.code, 1008); }
      outcome := ApplySessionData(frame.payload);
      if outcome.Rejected? { return; }
      if frame.sequence >= MAX_SEQUENCE { return Rejected(SequenceGap, 1008); }
      Advance(direction, lookup.transition);
      return Accepted;
    }

    method Envelope(direction: Direction, frame: Frame) returns (outcome: Outcome)
      modifies this
      ensures CheckEnvelope(old(Fields()), direction, frame) == Result(Fields(), outcome)
    {
      if connectionId.None? {
        connectionId := Some(frame.connectionId);
      } else if frame.connectionId != connectionId.value {
        return Rejected(SchemaInvalid, 1002);
      }
      if frame.payload.Hello? && VERSION !in frame.payload.supportedVersions {
        return Rejected(UnsupportedVersion, 1002);
      }
      var expected := if direction == ClientToAgent then nextClient else nextAgent;
      if frame.sequence < expected { return Rejected(SequenceReplay, 1008); }
      if frame.sequence > expected { return Rejected(SequenceGap, 1008); }
      return Accepted;
    }

    method Advance(direction: Direction, transition: Transition)
      modifies this
      ensures Fields() == Commit(old(Fields()), direction, transition)
    {
      if direction == ClientToAgent { nextClient := nextClient + 1; } else { nextAgent := nextAgent + 1; }
      if transition.connection.Some? { connection := transition.connection.value; }
      if transition.session.Some? { session := transition.session.value; }
    }

    method ApplySessionData(payload: Payload) returns (outcome: Outcome)
      modifies this
      ensures ValidateSessionData(old(Fields()), payload) == Result(Fields(), outcome)
    {
      if sessionId.Some? && payload.HasSessionId() && !payload.ReopenSession? && payload.sessionId != sessionId.value {
        return Rejected(OutputOffsetInvalid, 1008);
      }
      match payload {
        case SessionOpened(id) =>
          sessionId, nextOutput, outputKnown := Some(id), 0, true;
        case SessionReopened(id) =>
          sessionId := Some(id);
        case HistoryBegin(_, start, end, truncated) =>
          if end < start || end - start > MAX_SESSION_HISTORY || (!truncated && start != 0)
             || (outputKnown && end != nextOutput) {
            return Rejected(OutputOffsetInvalid, 1008);
          }
          history, nextOutput, outputKnown := Some(History(true, start, end)), end, true;
        case HistoryChunk(_, offset, data) =>
          if history.None? || !history.value.begun || offset != history.value.cursor
             || offset + |data| > history.value.endOffset || offset + |data| > MAX_SEQUENCE {
            return Rejected(OutputOffsetInvalid, 1008);
          }
          history := Some(history.value.(cursor := history.value.cursor + |data|));
        case HistoryEnd(_, end) =>
          if history.None? || !history.value.begun || history.value.cursor != history.value.endOffset
             || end != history.value.endOffset {
            return Rejected(OutputOffsetInvalid, 1008);
          }
          nextOutput, history := end, None;
        case TerminalOutput(_, offset, data) =>
          if offset != nextOutput || offset + |data| > MAX_SEQUENCE {
            return Rejected(OutputOffsetInvalid, 1008);
          }
          nextOutput := nextOutput + |data|;
        case _ =>
      }
      return Accepted;
    }
  }

  /** The machine after a run of frames, when it accepts them all; the agent's own events pass it by. */
  function Run(t: State, events: seq<Event>): Option<State> {
    if events == [] then Some(t)
    else
      var last := events[|events| - 1];
      match Run(t, events[..|events| - 1])
      case None => None
      case Some(before) =>
        if last.SetOutput? then Some(before)
        else
          var result := Applied(before, last.direction, last.frame);
          if result.outcome.Accepted? then Some(result.state) else None
  }
}
