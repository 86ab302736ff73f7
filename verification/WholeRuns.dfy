/** What every accepted run from NEW looks like, whichever machine accepted it. */
module WholeRuns {
  import opened Protocol
  import A = AgentMachine
  import B = BrowserMachine
  import opened MachineSteps
  import opened Tiling

  type Message = (Direction, MessageType)

  /** The events walk the contract's tables from (NEW, NONE) to the given states. */
  ghost predicate Follows(events: seq<Event>, connection: ConnectionState, session: SessionState) {
    if events == [] then connection == New && session == NoSession
    else
      var last := events[|events| - 1];
      var rest := events[..|events| - 1];
      if last.SetOutput? then Follows(rest, connection, session)
      else
        exists c, s ::
              Follows(rest, c, s) && Row(last.direction, (c, s), last.frame.payload.Type(), (connection, session))
  }

  lemma {:induction false} AgentRunFollows(events: seq<Event>)
    requires A.Run(A.INITIAL, events).Some?
    ensures var m := A.Run(A.INITIAL, events).value; Follows(events, m.connection, m.session)
  {
    if events != [] {
      hide A.Applied;
      var before := events[..|events| - 1];
      var last := events[|events| - 1];
      AgentRunFollows(before);
      if last.Deliver? {
        AgentStep(A.Run(A.INITIAL, before).value, last.direction, last.frame);
      }
    }
  }

  lemma {:induction false} BrowserRunFollows(events: seq<Event>)
    requires B.Run(B.INITIAL, events).Some?
    ensures var t := B.Run(B.INITIAL, events).value; Follows(events, t.connection, t.session)
  {
    if events != [] {
      hide B.Applied;
      var before := events[..|events| - 1];
      var last := events[|events| - 1];
      BrowserRunFollows(before);
      if last.Deliver? {
        BrowserStepFollowsRow(B.Run(B.INITIAL, before).value, last.direction, last.frame);
      }
    }
  }

  // ---------- The handshake ----------

  const GREETING: seq<Message> := [(ClientToAgent, THello), (AgentToClient, THelloAck)]
  const PROOF: seq<Message> := [(AgentToClient, TAuthChallenge), (ClientToAgent, TAuthResponse),
                                (AgentToClient, TAuthResult)]

  /** n pairing rounds. */
  function Rounds(n: nat): seq<Message> {
    if n == 0 then [] else Rounds(n - 1) + [(ClientToAgent, TPairingRequest), (AgentToClient, TPairingResult)]
  }

  predicate AfterHandshake(message: MessageType) {
    message == THeartbeat || message == TOpenSession || message == TSessionOpened || message == TReopenSession ||
    message == TSessionReopened || message == THistoryBegin || message == THistoryChunk || message == THistoryEnd ||
    message == TTerminalInput || message == TTerminalOutput || message == TResize || message == TDetach ||
    message == TSessionDetached || message == TCloseSession || message == TSessionClosed
  }

  predicate SessionTraffic(messages: seq<Message>) {
    forall i | 0 <= i < |messages| :: AfterHandshake(messages[i].1)
  }

  /** The messages exchanged by the time the connection is in the given state. */
  ghost predicate HandshakeShape(connection: ConnectionState, messages: seq<Message>) {
    match connection
    case New => messages == []
    case Negotiating => messages == GREETING[..1]
    case Unauthenticated => exists n: nat :: messages == GREETING + Rounds(n)
    case Pairing => exists n: nat :: messages == GREETING + Rounds(n) + [(ClientToAgent, TPairingRequest)]
    case Challenged => exists n: nat :: messages == GREETING + Rounds(n) + PROOF[..1]
    case Proving => exists n: nat :: messages == GREETING + Rounds(n) + PROOF[..2]
    case Ready => exists n: nat, rest :: messages == GREETING + Rounds(n) + PROOF + rest && SessionTraffic(rest)
    case ConnectionClosing => exists i :: 0 <= i < |messages| && messages[i].1 == TError
    case ConnectionClosed => false
  }

  lemma EarlyStep(messages: seq<Message>, direction: Direction, message: MessageType,
                  from: (ConnectionState, SessionState), to: (ConnectionState, SessionState))
    requires HandshakeShape(from.0, messages) && Row(direction, from, message, to) && message != TError
    requires from.0 == New || from.0 == Negotiating || from.0 == Unauthenticated || from.0 == Pairing
    ensures HandshakeShape(to.0, messages + [(direction, message)])
  {
    var next := messages + [(direction, message)];
    match from.0 {
      case New =>
        assert next == GREETING[..1];
      case Negotiating =>
        assert next == GREETING + Rounds(0);
      case Unauthenticated =>
        var n: nat :| messages == GREETING + Rounds(n);
        if message == TAuthChallenge { assert next == GREETING + Rounds(n) + PROOF[..1]; }
      case Pairing =>
        var n: nat :| messages == GREETING + Rounds(n) + [(ClientToAgent, TPairingRequest)];
        assert next == GREETING + Rounds(n + 1);
    }
  }

  lemma LateStep(messages: seq<Message>, direction: Direction, message: MessageType,
                 from: (ConnectionState, SessionState), to: (ConnectionState, SessionState))
    requires HandshakeShape(from.0, messages) && Row(direction, from, message, to) && message != TError
    requires from.0 == Challenged || from.0 == Proving || from.0 == Ready
    ensures HandshakeShape(to.0, messages + [(direction, message)])
  {
    hide Rounds;
    var next := messages + [(direction, message)];
    match from.0 {
      case Challenged =>
        var n: nat :| messages == GREETING + Rounds(n) + PROOF[..1];
        assert next == GREETING + Rounds(n) + PROOF[..2];
      case Proving =>
        var n: nat :| messages == GREETING + Rounds(n) + PROOF[..2];
        var rest: seq<Message> := [];
        assert next == GREETING + Rounds(n) + PROOF + rest && SessionTraffic(rest);
      case Ready =>
        var n: nat, rest :| messages == GREETING + Rounds(n) + PROOF + rest && SessionTraffic(rest);
        var more := rest + [(direction, message)];
        assert next == GREETING + Rounds(n) + PROOF + more && SessionTraffic(more);
    }
  }

  lemma HandshakeStep(messages: seq<Message>, direction: Direction, message: MessageType,
                      from: (ConnectionState, SessionState), to: (ConnectionState, SessionState))
    requires HandshakeShape(from.0, messages) && Row(direction, from, message, to)
    ensures HandshakeShape(to.0, messages + [(direction, message)])
  {
    var next := messages + [(direction, message)];
    if message == TError {
      assert next[|messages|].1 == TError;
    } else if from.0 == Challenged || from.0 == Proving || from.0 == Ready {
      LateStep(messages, direction, message, from, to);
    } else {
      EarlyStep(messages, direction, message, from, to);
    }
  }

  /** READY is reached only through hello, hello_ack, any number of pairing rounds, then challenge, response
      and result; afterwards come only session messages and heartbeats. */
  lemma {:induction false} HandshakeOrder(events: seq<Event>, connection: ConnectionState, session: SessionState)
    requires Follows(events, connection, session)
    ensures HandshakeShape(connection, Types(events))
  {
    if events != [] {
      var before := events[..|events| - 1];
      var last := events[|events| - 1];
      if last.SetOutput? {
        HandshakeOrder(before, connection, session);
      } else {
        var message := last.frame.payload.Type();
        var c, s :| Follows(before, c, s) && Row(last.direction, (c, s), message, (connection, session));
        HandshakeOrder(before, c, s);
        HandshakeStep(Types(before), last.direction, message, (c, s), (connection, session));
      }
    }
  }

  // ---------- The session never restarts ----------

  function Rank(session: SessionState): nat {
    match session
    case NoSession => 0
    case Opening => 1
    case Reopening => 1
    case Replaying => 2
    case Open => 3
    case Detaching => 4
    case SessionClosing => 4
    case Detached => 5
    case SessionClosed => 5
  }

  /** How many messages claim a session. */
  function Claims(messages: seq<Message>): nat {
    if messages == [] then 0
    else
      var last := messages[|messages| - 1].1;
      Claims(messages[..|messages| - 1]) + if last == TOpenSession || last == TReopenSession then 1 else 0
  }

  /** A row keeps the session state or climbs in rank. */
  lemma RankClimbs(direction: Direction, from: (ConnectionState, SessionState), message: MessageType,
                   to: (ConnectionState, SessionState))
    requires Row(direction, from, message, to)
    ensures from.1 == to.1 || Rank(from.1) < Rank(to.1)
    ensures message == TOpenSession || message == TReopenSession <==> from.1 == NoSession && to.1 != NoSession
  {
  }

  /** An accepted run claims a session at most once, and exactly when its session state has left NONE. */
  lemma {:induction false} ClaimsOnce(events: seq<Event>, connection: ConnectionState, session: SessionState)
    requires Follows(events, connection, session)
    ensures Claims(Types(events)) == if session == NoSession then 0 else 1
  {
    if events != [] {
      var before := events[..|events| - 1];
      var last := events[|events| - 1];
      if last.SetOutput? {
        ClaimsOnce(before, connection, session);
      } else {
        var message := last.frame.payload.Type();
        var c, s :| Follows(before, c, s) && Row(last.direction, (c, s), message, (connection, session));
        ClaimsOnce(before, c, s);
        RankClimbs(last.direction, (c, s), message, (connection, session));
        assert Types(events)[..|Types(events)| - 1] == Types(before);
      }
    }
  }

  // ---------- Sequences ----------

  /** The sequence numbers of one direction, in order. */
  function Sequences(events: seq<Event>, direction: Direction): seq<nat> {
    if events == [] then []
    else
      var last := events[|events| - 1];
      var rest := Sequences(events[..|events| - 1], direction);
      if last.Deliver? && last.direction == direction then rest + [last.frame.sequence] else rest
  }

  ghost predicate CountsUp(sequences: seq<nat>) {
    forall i | 0 <= i < |sequences| :: sequences[i] == i
  }

  lemma AgentStepSequences(m: A.State, direction: Direction, frame: Frame)
    requires A.Applied(m, direction, frame, true).outcome.Accepted?
    ensures var next := A.Applied(m, direction, frame, true).state;
            && frame.sequence == m.Next(direction) && !m.Exhausted(direction)
            && next.nextClient == A.TakeSequence(m, direction).nextClient
            && next.nextAgent == A.TakeSequence(m, direction).nextAgent
            && next.clientExhausted == A.TakeSequence(m, direction).clientExhausted
            && next.agentExhausted == A.TakeSequence(m, direction).agentExhausted
  {
    hide A.SessionSemantics;
    hide A.Applied;
    hide Row;
    AgentStep(m, direction, frame);
    var named := if m.connectionId == "" then m.(connectionId := frame.connectionId) else m;
    SemanticsKeep(A.TakeSequence(named, direction), frame.payload);
  }

  /** In each direction the agent machine accepts exactly 0, 1, 2, ... and stops for good after the last number. */
  lemma {:induction false} AgentSequences(events: seq<Event>, direction: Direction)
    requires A.Run(A.INITIAL, events).Some?
    ensures var m := A.Run(A.INITIAL, events).value;
            var count := |Sequences(events, direction)|;
            && CountsUp(Sequences(events, direction))
            && count <= MAX_SEQUENCE + 1
            && (m.Exhausted(direction) <==> count == MAX_SEQUENCE + 1)
            && m.Next(direction) == if count <= MAX_SEQUENCE then count else MAX_SEQUENCE
  {
    if events != [] {
      hide A.Applied;
      var before := events[..|events| - 1];
      var last := events[|events| - 1];
      AgentSequences(before, direction);
      if last.Deliver? {
        AgentStepSequences(A.Run(A.INITIAL, before).value, last.direction, last.frame);
      }
    }
  }

  lemma BrowserStepSequences(t: B.State, direction: Direction, frame: Frame)
    requires B.Applied(t, direction, frame).outcome.Accepted?
    ensures var next := B.Applied(t, direction, frame).state;
            && frame.sequence == t.Next(direction) < MAX_SEQUENCE
            && next.nextClient == (if direction == ClientToAgent then t.nextClient + 1 else t.nextClient)
            && next.nextAgent == (if direction == AgentToClient then t.nextAgent + 1 else t.nextAgent)
  {
    hide B.FindTransition;
    hide B.ValidateSessionData;
    ValidationKeeps(B.CheckEnvelope(t, direction, frame).state, frame.payload);
  }

  /** The browser machine accepts 0, 1, 2, ... too, and never the last number. */
  lemma {:induction false} BrowserSequences(events: seq<Event>, direction: Direction)
    requires B.Run(B.INITIAL, events).Some?
    ensures var t := B.Run(B.INITIAL, events).value;
            var count := |Sequences(events, direction)|;
            CountsUp(Sequences(events, direction)) && t.Next(direction) == count <= MAX_SEQUENCE
  {
    if events != [] {
      hide B.Applied;
      var before := events[..|events| - 1];
      var last := events[|events| - 1];
      BrowserSequences(before, direction);
      if last.Deliver? {
        BrowserStepSequences(B.Run(B.INITIAL, before).value, last.direction, last.frame);
      }
    }
  }

  // ---------- Output and history tile the offsets ----------

  /** The history chunks and outputs of a run. */
  function Pieces(events: seq<Event>): seq<Piece> {
    if events == [] then []
    else
      var last := events[|events| - 1];
      Pieces(events[..|events| - 1]) + if last.Deliver? then PieceOf(last.frame.payload) else []
  }

  /** What the agent machine's fields say about the pieces it has accepted. */
  ghost predicate PiecesTracked(m: A.State, pieces: seq<Piece>) {
    && (m.historyBegun ==> m.historyCursor <= m.historyEnd == m.nextOutput && m.session == Replaying)
    && (Rank(m.session) <= 1 ==> pieces == [])
    && (m.session == Replaying && !m.historyBegun ==> pieces == [])
    && (m.session == Replaying && m.historyBegun ==> exists start :: Tile(pieces, start, m.historyCursor))
    && (Rank(m.session) >= 3 ==> exists start :: Tile(pieces, start, m.nextOutput))
  }

  /** How the bookkeeping of an accepted frame moves the offsets. */
  ghost predicate OffsetsMove(m: A.State, payload: Payload, next: A.State) {
    match payload
    case HistoryBegin(_, start, end, _) =>
      !m.historyBegun && next.historyBegun
      && next.historyCursor == start <= end == next.historyEnd == next.nextOutput == m.nextOutput
    case HistoryChunk(_, offset, data) =>
      && m.historyBegun && next.historyBegun && offset == m.historyCursor && next.historyCursor == offset + |data|
      && next.historyEnd == m.historyEnd && next.nextOutput == m.nextOutput
      && (m.historyCursor <= m.historyEnd ==> next.historyCursor <= next.historyEnd)
    case HistoryEnd(_, end) =>
      m.historyBegun && !next.historyBegun && m.historyCursor == m.historyEnd == end && next.nextOutput == m.nextOutput
    case TerminalOutput(_, offset, data) =>
      && offset == m.nextOutput && next.nextOutput == offset + |data|
      && next.historyBegun == m.historyBegun && next.historyCursor == m.historyCursor && next.historyEnd == m.historyEnd
    case _ =>
      && next.nextOutput == m.nextOutput && next.historyBegun == m.historyBegun
      && next.historyCursor == m.historyCursor && next.historyEnd == m.historyEnd
  }

  lemma SemanticsMove(m: A.State, payload: Payload)
    requires A.SessionSemantics(m, payload, true).outcome.Accepted?
    ensures OffsetsMove(m, payload, A.SessionSemantics(m, payload, true).state)
  {
  }

  lemma AppliedOffsets(m: A.State, direction: Direction, frame: Frame)
    requires A.Applied(m, direction, frame, true).outcome.Accepted?
    ensures OffsetsMove(m, frame.payload, A.Applied(m, direction, frame, true).state)
  {
    hide A.SessionSemantics;
    hide A.Applied;
    hide Row;
    AgentStep(m, direction, frame);
    var named := if m.connectionId == "" then m.(connectionId := frame.connectionId) else m;
    if !frame.payload.FatalError? {
      SemanticsMove(A.TakeSequence(named, direction), frame.payload);
    }
  }

  lemma PiecesStep(m: A.State, pieces: seq<Piece>, direction: Direction, frame: Frame)
    requires PiecesTracked(m, pieces)
    requires A.Applied(m, direction, frame, true).outcome.Accepted?
    ensures PiecesTracked(A.Applied(m, direction, frame, true).state, pieces + PieceOf(frame.payload))
  {
    hide A.Applied;
    AppliedOffsets(m, direction, frame);
    AgentStep(m, direction, frame);
    PiecesMove(m, pieces, direction, frame.payload, A.Applied(m, direction, frame, true).state);
  }

  /** How a row moves the session state, by what the message carries. */
  lemma RowSessions(direction: Direction, from: (ConnectionState, SessionState), message: MessageType,
                    to: (ConnectionState, SessionState))
    requires Row(direction, from, message, to)
    ensures message == THistoryBegin || message == THistoryChunk ==> from.1 == to.1 == Replaying
    ensures message == THistoryEnd ==> from.1 == Replaying && to.1 == Open
    ensures message == TTerminalOutput ==> from.1 == to.1 == Open
    ensures message != THistoryEnd ==>
              && (from.1 == Replaying ==> to.1 == Replaying)
              && (to.1 == Replaying ==> from.1 == Replaying || from.1 == Reopening)
              && (Rank(to.1) >= 3 ==> Rank(from.1) >= 3 || from.1 == Opening)
    ensures Rank(from.1) <= Rank(to.1)
  {
  }

  lemma PiecesMove(m: A.State, pieces: seq<Piece>, direction: Direction, payload: Payload, next: A.State)
    requires PiecesTracked(m, pieces) && OffsetsMove(m, payload, next)
    requires Row(direction, (m.connection, m.session), payload.Type(), (next.connection, next.session))
    ensures PiecesTracked(next, pieces + PieceOf(payload))
  {
    hide Row;
    hide Tile;
    hide PiecesTracked;
    if payload.HistoryChunk? || payload.TerminalOutput? {
      PieceMoves(m, pieces, direction, payload, next);
    } else {
      assert pieces + [] == pieces;
      OthersMove(m, pieces, direction, payload, next);
    }
  }

  lemma PieceMoves(m: A.State, pieces: seq<Piece>, direction: Direction, payload: Payload, next: A.State)
    requires PiecesTracked(m, pieces) && OffsetsMove(m, payload, next)
    requires (payload.HistoryChunk? || payload.TerminalOutput?)
    requires Row(direction, (m.connection, m.session), payload.Type(), (next.connection, next.session))
    ensures PiecesTracked(next, pieces + PieceOf(payload))
  {
    hide Row;
    hide Tile;
    RowSessions(direction, (m.connection, m.session), payload.Type(), (next.connection, next.session));
    var end := if payload.HistoryChunk? then m.historyCursor else m.nextOutput;
    var start :| Tile(pieces, start, end);
    TileAppend(pieces, start, end, Piece(payload.offset, payload.data));
  }

  lemma OthersMove(m: A.State, pieces: seq<Piece>, direction: Direction, payload: Payload, next: A.State)
    requires PiecesTracked(m, pieces) && OffsetsMove(m, payload, next) && !payload.HistoryChunk?
    requires !payload.TerminalOutput?
    requires Row(direction, (m.connection, m.session), payload.Type(), (next.connection, next.session))
    ensures PiecesTracked(next, pieces)
  {
    hide Row;
    hide Tile;
    NoPieces(next.nextOutput);
    NoPieces(next.historyCursor);
    RowSessions(direction, (m.connection, m.session), payload.Type(), (next.connection, next.session));
  }

  lemma NoPieces(offset: nat)
    ensures Tile([], offset, offset)
  {
  }

  /** The history and output an accepted run carries cover one contiguous range of offsets, without gap or
      overlap; once the session is open the range ends at the next output offset. */
  lemma {:induction false} AgentPiecesTile(events: seq<Event>)
    requires A.Run(A.INITIAL, events).Some?
    ensures PiecesTracked(A.Run(A.INITIAL, events).value, Pieces(events))
  {
    if events != [] {
      var before := events[..|events| - 1];
      var last := events[|events| - 1];
      AgentPiecesTile(before);
      hide A.Applied;
      if last.Deliver? {
        PiecesStep(A.Run(A.INITIAL, before).value, Pieces(before), last.direction, last.frame);
      } else {
        assert Pieces(before) + [] == Pieces(before);
      }
    }
  }
}
