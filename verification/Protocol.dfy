/** Frames of wire contract 0.2, already decoded, and the tables that both machines implement. */
module Protocol {

  const VERSION := "0.2"
  const MAX_SEQUENCE: nat := 9_007_199_254_740_991
  const MAX_TERMINAL_INPUT: nat := 16_384
  const MAX_TERMINAL_OUTPUT: nat := 32_768
  const MAX_SESSION_HISTORY: nat := 262_144
  const MAX_AGENT_HISTORY: nat := 16_777_216

  type Byte = b: int | 0 <= b < 256

  datatype Option<+T> = None | Some(value: T)

  datatype Direction = ClientToAgent | AgentToClient

  datatype ConnectionState =
    | New | Negotiating | Unauthenticated | Pairing | Challenged | Proving | Ready
    | ConnectionClosing | ConnectionClosed

  datatype SessionState =
    | NoSession | Opening | Open | Detaching | Detached | Reopening | Replaying
    | SessionClosing | SessionClosed

  datatype ErrorCode =
    | SchemaInvalid | UnsupportedVersion | SequenceReplay | SequenceGap
    | OutputOffsetInvalid | InvalidState | DirectionViolation

  datatype MessageType =
    | THello | THelloAck | TPairingRequest | TPairingResult | TAuthChallenge | TAuthResponse
    | TAuthResult | TOpenSession | TSessionOpened | TReopenSession | TSessionReopened
    | THistoryBegin | THistoryChunk | THistoryEnd | TTerminalInput | TTerminalOutput
    | TResize | THeartbeat | TDetach | TSessionDetached | TCloseSession | TSessionClosed
    | TError

  /** One constructor a message type. Members that neither machine reads are left out. */
  datatype Payload =
    | Hello(supportedVersions: seq<string>)
    | HelloAck
    | PairingRequest
    | PairingResult
    | AuthChallenge
    | AuthResponse
    | AuthResult
    | OpenSession
    | SessionOpened(sessionId: string)
    | ReopenSession(sessionId: string)
    | SessionReopened(sessionId: string)
    | HistoryBegin(sessionId: string, startOffset: nat, endOffset: nat, truncated: bool)
    | HistoryChunk(sessionId: string, offset: nat, data: seq<Byte>)
    | HistoryEnd(sessionId: string, endOffset: nat)
    | TerminalInput(sessionId: string, data: seq<Byte>)
    | TerminalOutput(sessionId: string, offset: nat, data: seq<Byte>)
    | Resize(sessionId: string)
    | Heartbeat
    | Detach(sessionId: string)
    | SessionDetached(sessionId: string)
    | CloseSession(sessionId: string)
    | SessionClosedBy(sessionId: string)
    | FatalError
  {
    function Type(): MessageType {
      match this
      case Hello(_) => THello
      case HelloAck => THelloAck
      case PairingRequest => TPairingRequest
      case PairingResult => TPairingResult
      case AuthChallenge => TAuthChallenge
      case AuthResponse => TAuthResponse
      case AuthResult => TAuthResult
      case OpenSession => TOpenSession
      case SessionOpened(_) => TSessionOpened
      case ReopenSession(_) => TReopenSession
      case SessionReopened(_) => TSessionReopened
      case HistoryBegin(_, _, _, _) => THistoryBegin
      case HistoryChunk(_, _, _) => THistoryChunk
      case HistoryEnd(_, _) => THistoryEnd
      case TerminalInput(_, _) => TTerminalInput
      case TerminalOutput(_, _, _) => TTerminalOutput
      case Resize(_) => TResize
      case Heartbeat => THeartbeat
      case Detach(_) => TDetach
      case SessionDetached(_) => TSessionDetached
      case CloseSession(_) => TCloseSession
      case SessionClosedBy(_) => TSessionClosed
      case FatalError => TError
    }

    predicate HasSessionId() {
      SessionOpened? || ReopenSession? || SessionReopened? || HistoryBegin? || HistoryChunk? ||
      HistoryEnd? || TerminalInput? || TerminalOutput? || Resize? || Detach? || SessionDetached? ||
      CloseSession? || SessionClosedBy?
    }

    /** What both decoders have checked before a machine sees the payload. */
    predicate WellFormed() {
      && (HasSessionId() ==> sessionId != "")
      && (HistoryBegin? ==> startOffset <= MAX_SEQUENCE && endOffset <= MAX_SEQUENCE)
      && (HistoryEnd? ==> endOffset <= MAX_SEQUENCE)
      && (HistoryChunk? || TerminalOutput? ==> offset <= MAX_SEQUENCE && 0 < |data| <= MAX_TERMINAL_OUTPUT)
      && (TerminalInput? ==> 0 < |data| <= MAX_TERMINAL_INPUT)
    }
  }

  datatype Frame = Frame(connectionId: string, sequence: nat, payload: Payload)
  {
    predicate WellFormed() {
      connectionId != "" && sequence <= MAX_SEQUENCE && payload.WellFormed()
    }

    predicate OffersVersion() {
      payload.Hello? ==> VERSION in payload.supportedVersions
    }
  }

  datatype Outcome = Accepted | Rejected(code: ErrorCode, closeCode: nat)

  /** One row of the contract's transition tables: who may say the message, and where it leads. */
  predicate Row(direction: Direction, from: (ConnectionState, SessionState), message: MessageType,
                to: (ConnectionState, SessionState)) {
    var (connection, session) := from;
    match message
    case TError => connection != ConnectionClosed && to == (ConnectionClosing, session)
    case THello => direction == ClientToAgent && connection == New && to == (Negotiating, session)
    case THelloAck => direction == AgentToClient && connection == Negotiating && to == (Unauthenticated, session)
    case TPairingRequest => direction == ClientToAgent && connection == Unauthenticated && to == (Pairing, session)
    case TPairingResult => direction == AgentToClient && connection == Pairing && to == (Unauthenticated, session)
    case TAuthChallenge => direction == AgentToClient && connection == Unauthenticated && to == (Challenged, session)
    case TAuthResponse => direction == ClientToAgent && connection == Challenged && to == (Proving, session)
    case TAuthResult => direction == AgentToClient && connection == Proving && to == (Ready, session)
    case THeartbeat => connection == Ready && to == from
    case TOpenSession => direction == ClientToAgent && from == (Ready, NoSession) && to == (Ready, Opening)
    case TSessionOpened => direction == AgentToClient && from == (Ready, Opening) && to == (Ready, Open)
    case TReopenSession => direction == ClientToAgent && from == (Ready, NoSession) && to == (Ready, Reopening)
    case TSessionReopened => direction == AgentToClient && from == (Ready, Reopening) && to == (Ready, Replaying)
    case THistoryBegin => direction == AgentToClient && from == to == (Ready, Replaying)
    case THistoryChunk => direction == AgentToClient && from == to == (Ready, Replaying)
    case THistoryEnd => direction == AgentToClient && from == (Ready, Replaying) && to == (Ready, Open)
    case TTerminalInput => direction == ClientToAgent && from == to == (Ready, Open)
    case TTerminalOutput => direction == AgentToClient && from == to == (Ready, Open)
    case TResize => direction == ClientToAgent && from == to == (Ready, Open)
    case TDetach => direction == ClientToAgent && from == (Ready, Open) && to == (Ready, Detaching)
    case TSessionDetached => direction == AgentToClient && from == (Ready, Detaching) && to == (Ready, Detached)
    case TCloseSession => direction == ClientToAgent && from == (Ready, Open) && to == (Ready, SessionClosing)
    case TSessionClosed =>
      direction == AgentToClient && (from == (Ready, Open) || from == (Ready, SessionClosing))
      && to == (Ready, SessionClosed)
  }

  /** One thing that happens to a machine: a frame arrives, or (agent only) the output offset is set. */
  datatype Event = Deliver(direction: Direction, frame: Frame) | SetOutput(offset: nat)

  /** The frames of a run, in order, as direction and type. */
  function Types(events: seq<Event>): seq<(Direction, MessageType)> {
    if events == [] then []
    else
      var last := events[|events| - 1];
      var rest := Types(events[..|events| - 1]);
      if last.Deliver? then rest + [(last.direction, last.frame.payload.Type())] else rest
  }
}
