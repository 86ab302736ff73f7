/** Conversations the browser machine accepts and the agent machine refuses. */
module Leniency {
  import opened Protocol
  import A = AgentMachine
  import B = BrowserMachine
  import opened MachineSteps
  import opened Simulation
  import opened WholeRuns
  import opened Tiling

  /** One more frame of connection "c", with the next sequence number of its direction. */
  function Say(events: seq<Event>, direction: Direction, payload: Payload): seq<Event> {
    events + [Deliver(direction, Frame("c", |Sequences(events, direction)|, payload))]
  }

  /** A handshake with a known credential, then a request to reopen session "s". */
  function Requested(): seq<Event> {
    var greeted := Say(Say([], ClientToAgent, Hello([VERSION])), AgentToClient, HelloAck);
    var proved := Say(Say(Say(greeted, AgentToClient, AuthChallenge), ClientToAgent, AuthResponse), AgentToClient,
                      AuthResult);
    Say(proved, ClientToAgent, ReopenSession("s"))
  }

  /** The browser machine after Requested. */
  const REQUESTED := B.State(Ready, Reopening, 3, 3, Some("c"), 0, None, None, false)

  /** The browser machine after hello and hello_ack. */
  const GREETED := B.State(Unauthenticated, NoSession, 1, 1, Some("c"), 0, None, None, false)

  lemma GreetedRun() returns (events: seq<Event>)
    ensures events == Say(Say([], ClientToAgent, Hello([VERSION])), AgentToClient, HelloAck)
    ensures B.Run(B.INITIAL, events) == Some(GREETED) && Pieces(events) == []
    ensures |Sequences(events, ClientToAgent)| == |Sequences(events, AgentToClient)| == 1
  {
    hide B.Run;
    hide B.Applied;
    hide Sequences;
    hide Pieces;
    var e0 := Nothing();
    var t1 := B.INITIAL.(connection := Negotiating, nextClient := 1, connectionId := Some("c"));
    var e1 := Said(e0, ClientToAgent, Hello([VERSION]), B.INITIAL, (Negotiating, NoSession), t1);
    events := Said(e1, AgentToClient, HelloAck, t1, (Unauthenticated, NoSession), GREETED);
  }

  lemma RequestedRun()
    ensures B.Run(B.INITIAL, Requested()) == Some(REQUESTED)
    ensures |Sequences(Requested(), ClientToAgent)| == |Sequences(Requested(), AgentToClient)| == 3
    ensures Pieces(Requested()) == []
  {
    hide B.Run;
    hide B.Applied;
    hide Sequences;
    hide Pieces;
    var e2 := GreetedRun();
    var t3 := GREETED.(connection := Challenged, nextAgent := 2);
    var e3 := Said(e2, AgentToClient, AuthChallenge, GREETED, (Challenged, NoSession), t3);
    var t4 := t3.(connection := Proving, nextClient := 2);
    var e4 := Said(e3, ClientToAgent, AuthResponse, t3, (Proving, NoSession), t4);
    var t5 := t4.(connection := Ready, nextAgent := 3);
    var e5 := Said(e4, AgentToClient, AuthResult, t4, (Ready, NoSession), t5);
    var e6 := Said(e5, ClientToAgent, ReopenSession("s"), t5, (Ready, Reopening), REQUESTED);
  }

  lemma Nothing() returns (events: seq<Event>)
    ensures events == [] && B.Run(B.INITIAL, events) == Some(B.INITIAL)
    ensures |Sequences(events, ClientToAgent)| == |Sequences(events, AgentToClient)| == 0 && Pieces(events) == []
  {
    events := [];
  }

  /** One accepted frame of a scripted run. */
  lemma Said(events: seq<Event>, direction: Direction, payload: Payload, t: B.State,
             to: (ConnectionState, SessionState), next: B.State)
    returns (more: seq<Event>)
    requires B.Run(B.INITIAL, events) == Some(t)
    requires |Sequences(events, ClientToAgent)| == t.nextClient && |Sequences(events, AgentToClient)| == t.nextAgent
    requires (payload.Hello? ==> VERSION in payload.supportedVersions) && t.Next(direction) < MAX_SEQUENCE
    requires t.connectionId.None? || t.connectionId.value == "c"
    requires Row(direction, (t.connection, t.session), payload.Type(), to)
    requires var validated := B.ValidateSessionData(t.(connectionId := Some("c")), payload);
             && validated.outcome.Accepted?
             && next == validated.state.(connection := to.0, session := to.1,
                                         nextClient :=
                                             if direction == ClientToAgent then t.nextClient + 1 else t.nextClient,
                                         nextAgent :=
                                             if direction == AgentToClient then t.nextAgent + 1 else t.nextAgent)
    ensures more == Say(events, direction, payload) && B.Run(B.INITIAL, more) == Some(next)
    ensures |Sequences(more, ClientToAgent)| == next.nextClient && |Sequences(more, AgentToClient)| == next.nextAgent
    ensures Pieces(more) == Pieces(events) + PieceOf(payload)
  {
    more := Say(events, direction, payload);
    assert more[..|events|] == events;
    hide B.Applied;
    hide B.ValidateSessionData;
    hide Row;
    BrowserAccepts(t, direction, Frame("c", t.Next(direction), payload), to);
  }

  const ONE: seq<Byte> := [7]

  /** The first output byte, as history. */
  const CHUNK := HistoryChunk("s", 0, ONE)

  const BEGIN := HistoryBegin("s", 0, 1, false)

  /** The browser machine in the middle of the replay. */
  const BEGUN := B.State(Ready, Replaying, 3, 5, Some("c"), 1, Some(B.History(true, 0, 1)), Some("s"), true)

  lemma BegunRun() returns (events: seq<Event>)
    ensures B.Run(B.INITIAL, events) == Some(BEGUN) && Pieces(events) == []
    ensures |Sequences(events, ClientToAgent)| == 3 && |Sequences(events, AgentToClient)| == 5
  {
    hide B.Run;
    hide B.Applied;
    hide Sequences;
    hide Pieces;
    RequestedRun();
    var replaying := REQUESTED.(session := Replaying, nextAgent := 4, sessionId := Some("s"));
    var more := Said(Requested(), AgentToClient, SessionReopened("s"), REQUESTED, (Ready, Replaying), replaying);
    events := Said(more, AgentToClient, BEGIN, replaying, (Ready, Replaying), BEGUN);
  }

  lemma ChunkRepeatedRun() returns (events: seq<Event>)
    ensures B.Run(B.INITIAL, events).Some? && B.Run(B.INITIAL, events).value.session == Open
    ensures Pieces(events) == [Piece(0, ONE), Piece(0, ONE)]
  {
    hide B.Run;
    hide B.Applied;
    hide Sequences;
    hide Pieces;
    var e2 := BegunRun();
    var t3 := BEGUN.(nextAgent := 6, history := Some(B.History(true, 1, 1)));
    var e3 := Said(e2, AgentToClient, CHUNK, BEGUN, (Ready, Replaying), t3);
    var t4 := BEGUN.(nextAgent := 7);
    var e4 := Said(e3, AgentToClient, BEGIN, t3, (Ready, Replaying), t4);
    var t5 := t3.(nextAgent := 8);
    var e5 := Said(e4, AgentToClient, CHUNK, t4, (Ready, Replaying), t5);
    events := Said(e5, AgentToClient, HistoryEnd("s", 1), t5, (Ready, Open),
                   t5.(nextAgent := 9, session := Open, history := None));
  }

  /** The browser machine alone lets the agent repeat history: some run it accepts carries the same byte twice.
      The agent machine refuses that run. */
  lemma BrowserMayRepeatHistory()
    ensures exists events ::
              && B.Run(B.INITIAL, events).Some? && B.Run(B.INITIAL, events).value.session == Open
              && !(exists start, end :: Tile(Pieces(events), start, end))
              && A.Run(A.INITIAL, events).None?
  {
    var events := ChunkRepeatedRun();
    forall start, end ensures !Tile(Pieces(events), start, end) {
      assert Pieces(events)[..1] == [Piece(0, ONE)];
    }
    if A.Run(A.INITIAL, events).Some? {
      AgentPiecesTile(events);
      AgentRunFollows(events);
      BrowserRunFollows(events);
      FollowsAlone(events, A.Run(A.INITIAL, events).value.connection, A.Run(A.INITIAL, events).value.session,
                   B.Run(B.INITIAL, events).value.connection, B.Run(B.INITIAL, events).value.session);
    }
  }

  lemma RowAlone(direction: Direction, from: (ConnectionState, SessionState), message: MessageType,
                 to1: (ConnectionState, SessionState), to2: (ConnectionState, SessionState))
    requires Row(direction, from, message, to1) && Row(direction, from, message, to2)
    ensures to1 == to2
  {
  }

  lemma LastRow(events: seq<Event>, connection: ConnectionState, session: SessionState)
    returns (c: ConnectionState, s: SessionState)
    requires events != [] && events[|events| - 1].Deliver? && Follows(events, connection, session)
    ensures var last := events[|events| - 1];
            Follows(events[..|events| - 1], c, s)
            && Row(last.direction, (c, s), last.frame.payload.Type(), (connection, session))
  {
    var last := events[|events| - 1];
    c, s :| Follows(events[..|events| - 1], c, s)
    && Row(last.direction, (c, s), last.frame.payload.Type(), (connection, session));
  }

  /** Events determine the states they lead to. */
  lemma {:induction false} FollowsAlone(events: seq<Event>, c1: ConnectionState, s1: SessionState, c2: ConnectionState,
                                        s2: SessionState)
    requires Follows(events, c1, s1) && Follows(events, c2, s2)
    ensures c1 == c2 && s1 == s2
  {
    if events != [] {
      var before := events[..|events| - 1];
      var last := events[|events| - 1];
      if last.SetOutput? {
        FollowsAlone(before, c1, s1, c2, s2);
      } else {
        var d1, r1 := LastRow(events, c1, s1);
        var d2, r2 := LastRow(events, c2, s2);
        FollowsAlone(before, d1, r1, d2, r2);
        RowAlone(last.direction, (d1, r1), last.frame.payload.Type(), (c1, s1), (c2, s2));
      }
    }
  }

  /** A reply about another session than the one requested passes the browser machine and not the agent's. */
  lemma ReopenedElsewhere(events: seq<Event>, t: B.State, g: A.State, frame: Frame)
    requires B.Run(B.INITIAL, events) == Some(t) && t.session == Reopening && t.connection == Ready && t.sessionId.None?
    requires t.connectionId == Some(frame.connectionId) && frame.sequence == t.nextAgent < MAX_SEQUENCE
    requires frame.payload.SessionReopened? && g.sessionId != "" && frame.payload.sessionId != g.sessionId
    ensures B.Run(B.INITIAL, events + [Deliver(AgentToClient, frame)]).Some?
    ensures A.Applied(g, AgentToClient, frame, true).outcome.Rejected?
  {
    hide B.Applied;
    hide A.Applied;
    assert (events + [Deliver(AgentToClient, frame)])[..|events|] == events;
    BrowserAccepts(t, AgentToClient, frame, (Ready, Replaying));
    OtherSessionRefused(g, frame);
  }

  lemma OtherSessionRefused(g: A.State, frame: Frame)
    requires frame.payload.SessionReopened? && g.sessionId != "" && frame.payload.sessionId != g.sessionId
    ensures A.Applied(g, AgentToClient, frame, true).outcome.Rejected?
  {
    hide A.Transit;
  }

  // ---------- The agent's own sends ----------

  lemma ByValueExact(m: A.State, payload: Payload)
    requires !payload.FatalError?
    ensures A.Transit(m, AgentToClient, payload.Type()).outcome.Accepted? <==>
            exists to :: Row(AgentToClient, (m.connection, m.session), payload.Type(), to)
  {
    var found := B.FindTransition(m.connection, m.session, AgentToClient, payload.Type());
    LookupsAgree(m, AgentToClient, payload.Type());
    LookupFollowsRow(m.connection, m.session, AgentToClient, payload.Type());
    if exists to :: Row(AgentToClient, (m.connection, m.session), payload.Type(), to) {
      var to :| Row(AgentToClient, (m.connection, m.session), payload.Type(), to);
      RowFound(m.connection, m.session, AgentToClient, payload.Type(), to);
    }
  }

  /** The agent's send checks its payload, passed by value, only against the tables, and takes the sequence number
      first. So a frame that has no row is refused and its number is gone: whatever the agent sends next, the
      browser machine refuses for the gap. */
  lemma RefusedSendLeavesGap(g: A.State, t: B.State, refused: Frame, next: Frame)
    requires Related(g, t) && !refused.payload.FatalError? && g.connectionId != ""
    requires refused.connectionId == next.connectionId == g.connectionId
    requires refused.sequence == g.nextAgent < MAX_SEQUENCE
    requires next.sequence == A.Applied(g, AgentToClient, refused, false).state.nextAgent && next.OffersVersion()
    ensures A.Applied(g, AgentToClient, refused, false).outcome.Accepted? <==>
            exists to :: Row(AgentToClient, (g.connection, g.session), refused.payload.Type(), to)
    ensures B.Applied(t, AgentToClient, next).outcome == Rejected(SequenceGap, 1008)
  {
    var taken := A.TakeSequence(g, AgentToClient);
    hide Row;
    hide B.FindTransition;
    hide A.Transit;
    hide A.HasTransition;
    ByValueExact(taken, refused.payload);
    TransitKeepsSequence(taken, AgentToClient, refused.payload.Type());
  }

  lemma TransitKeepsSequence(m: A.State, direction: Direction, message: MessageType)
    ensures A.Transit(m, direction, message).state.nextAgent == m.nextAgent
  {
  }

  /** A shell that speaks before session_opened is sent meets exactly that: its output has no row yet. */
  lemma EarlyOutputRefused(g: A.State, frame: Frame)
    requires g.connection == Ready && g.session == Opening && frame.payload.TerminalOutput?
    requires frame.connectionId == g.connectionId != "" && frame.sequence == g.nextAgent && !g.agentExhausted
    ensures A.Applied(g, AgentToClient, frame, false).outcome == Rejected(InvalidState, 1008)
  {
  }
}
