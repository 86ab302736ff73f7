/** The browser machine accepts whatever the agent machine accepts, frame by frame. */
module Simulation {
  import opened Protocol
  import A = AgentMachine
  import B = BrowserMachine
  import opened MachineSteps

  /** Before a replay the browser machine does not know the output offset and the agent holds no history. */
  predicate BeforeReplay(session: SessionState) {
    session == NoSession || session == Opening || session == Reopening
  }

  /** Agent state g and browser state t describe the same conversation. */
  ghost predicate Related(g: A.State, t: B.State) {
    && g.connection == t.connection && g.session == t.session
    && g.nextClient == t.nextClient && g.nextAgent == t.nextAgent
    && !g.clientExhausted && !g.agentExhausted
    && (t.connectionId == if g.connectionId == "" then None else Some(g.connectionId))
    && (t.sessionId.Some? ==> t.sessionId.value == g.sessionId && g.sessionId != "")
    && (BeforeReplay(g.session) ==> !t.outputKnown && !g.historyBegun)
    && (g.session == NoSession || g.session == Opening ==> g.nextOutput == 0)
    && (g.session == NoSession || g.session == Opening || g.session == Reopening ==> t.sessionId.None?)
    && (!BeforeReplay(g.session) ==> t.sessionId.Some?)
    && (g.session == NoSession || g.session == Opening ==> g.sessionId == "")
    && (t.outputKnown ==> t.nextOutput == g.nextOutput)
    && (g.session != Replaying && !BeforeReplay(g.session) ==> t.outputKnown && !g.historyBegun)
    && (t.history == if g.historyBegun then Some(B.History(true, g.historyCursor, g.historyEnd)) else None)
    && (g.historyBegun ==> t.outputKnown && g.historyCursor <= g.historyEnd == g.nextOutput)
    && (g.session == Replaying && t.outputKnown ==> g.historyBegun)
  }

  /** What the agent machine demands beyond the browser machine: one history_begin, matching the offset it
      was told, and the session id it has seen first, in the request or in the reply. */
  predicate Strict(g: A.State, payload: Payload) {
    && (payload.HistoryBegin? ==> !g.historyBegun && payload.endOffset == g.nextOutput)
    && (payload.HasSessionId() && g.sessionId != "" ==> payload.sessionId == g.sessionId)
  }

  lemma ConnectionTablesAgree(connection: ConnectionState, direction: Direction, message: MessageType)
    ensures B.ConnectionEntry(connection, direction, message) ==
            match A.ConnectionTransition(connection, direction, message)
            case Some(next) => Some(B.Transition(Some(next), None))
            case None => None
  {
  }

  lemma SessionTablesAgree(connection: ConnectionState, session: SessionState, direction: Direction,
                           message: MessageType)
    ensures B.SessionEntry(connection, session, direction, message) ==
            match A.SessionTransition(connection, session, direction, message)
            case Some(next) => Some(B.Transition(None, Some(next)))
            case None => None
  {
  }

  /** Both machines find the same row, or none. */
  lemma LookupsAgree(m: A.State, direction: Direction, message: MessageType)
    requires message != TError
    ensures var found := B.FindTransition(m.connection, m.session, direction, message);
            var moved := A.Transit(m, direction, message);
            && (found.Found? <==> moved.outcome.Accepted?)
            && (found.Found? ==>
                && moved.state.connection == (if found.transition.connection.Some?
                                              then found.transition.connection.value else m.connection)
                && moved.state.session == (if found.transition.session.Some? then found.transition.session.value
                                           else m.session)
                && moved.state == m.(connection := moved.state.connection, session := moved.state.session))
  {
    ConnectionTablesAgree(m.connection, direction, message);
    SessionTablesAgree(m.connection, m.session, direction, message);
  }

  /** The bookkeeping of one payload, and the row that follows, keep the machines related; the agent's check
      accepts exactly what the browser's accepts and Strict. */
  ghost predicate Exact(g: A.State, t: B.State, payload: Payload, connection: ConnectionState, session: SessionState) {
    var a := A.SessionSemantics(g, payload, true);
    var b := B.ValidateSessionData(t, payload);
    && (a.outcome.Accepted? <==> b.outcome.Accepted? && Strict(g, payload))
    && (a.outcome.Accepted? ==>
        Related(a.state.(connection := connection, session := session),
                b.state.(connection := connection, session := session)))
  }

  lemma HistoryBeginExact(g: A.State, t: B.State, payload: Payload)
    requires Related(g, t) && payload.HistoryBegin? && payload.WellFormed() && g.session == Replaying
    ensures Exact(g, t, payload, g.connection, Replaying)
  {
  }

  lemma HistoryChunkExact(g: A.State, t: B.State, payload: Payload)
    requires Related(g, t) && payload.HistoryChunk? && payload.WellFormed() && g.session == Replaying
    ensures Exact(g, t, payload, g.connection, Replaying)
  {
  }

  lemma HistoryEndExact(g: A.State, t: B.State, payload: Payload)
    requires Related(g, t) && payload.HistoryEnd? && payload.WellFormed() && g.session == Replaying
    ensures Exact(g, t, payload, g.connection, Open)
  {
  }

  lemma TerminalOutputExact(g: A.State, t: B.State, payload: Payload)
    requires Related(g, t) && payload.TerminalOutput? && payload.WellFormed() && g.session == Open
    ensures Exact(g, t, payload, g.connection, Open)
  {
  }

  lemma OpenedExact(g: A.State, t: B.State, payload: Payload)
    requires Related(g, t) && payload.WellFormed()
    requires payload.SessionOpened? && g.session == Opening
    ensures Exact(g, t, payload, g.connection, Open)
  {
  }

  lemma ReopenExact(g: A.State, t: B.State, payload: Payload)
    requires Related(g, t) && payload.WellFormed()
    requires (payload.ReopenSession? && g.session == NoSession) || (payload.SessionReopened? && g.session == Reopening)
    ensures Exact(g, t, payload, g.connection, if payload.ReopenSession? then Reopening else Replaying)
  {
  }

  /** Payloads without a session id: the handshake, heartbeats and open_session. */
  lemma UnaddressedExact(g: A.State, t: B.State, payload: Payload, connection: ConnectionState, session: SessionState)
    requires Related(g, t) && !payload.HasSessionId() && !payload.FatalError?
    requires session == g.session || (payload.OpenSession? && g.session == NoSession && session == Opening)
    ensures Exact(g, t, payload, connection, session)
  {
  }

  predicate Late(session: SessionState) {
    !BeforeReplay(session) && session != Replaying
  }

  /** Payloads of an open session that carry no offset. */
  lemma AddressedExact(g: A.State, t: B.State, payload: Payload, session: SessionState)
    requires Related(g, t) && payload.WellFormed() && Late(g.session) && Late(session)
    requires payload.TerminalInput? || payload.Resize? || payload.Detach? || payload.SessionDetached? ||
             payload.CloseSession? || payload.SessionClosedBy?
    ensures Exact(g, t, payload, g.connection, session)
  {
  }

  /** Every row keeps the machines related and equally strict. */
  lemma RowExact(g: A.State, t: B.State, direction: Direction, payload: Payload, connection: ConnectionState,
                 session: SessionState)
    requires Related(g, t) && payload.WellFormed() && !payload.FatalError?
    requires Row(direction, (g.connection, g.session), payload.Type(), (connection, session))
    ensures Exact(g, t, payload, connection, session)
  {
    hide Exact;
    hide Related;
    if payload.HistoryBegin? || payload.HistoryChunk? || payload.HistoryEnd? || payload.TerminalOutput? {
      OffsetRowExact(g, t, direction, payload, connection, session);
    } else {
      PlainRowExact(g, t, direction, payload, connection, session);
    }
  }

  lemma OffsetRowExact(g: A.State, t: B.State, direction: Direction, payload: Payload, connection: ConnectionState,
                       session: SessionState)
    requires Related(g, t) && payload.WellFormed()
    requires payload.HistoryBegin? || payload.HistoryChunk? || payload.HistoryEnd? || payload.TerminalOutput?
    requires Row(direction, (g.connection, g.session), payload.Type(), (connection, session))
    ensures Exact(g, t, payload, connection, session)
  {
    hide Exact;
    hide Related;
    match payload {
      case HistoryBegin(_, _, _, _) => HistoryBeginExact(g, t, payload);
      case HistoryChunk(_, _, _) => HistoryChunkExact(g, t, payload);
      case HistoryEnd(_, _) => HistoryEndExact(g, t, payload);
      case TerminalOutput(_, _, _) => TerminalOutputExact(g, t, payload);
    }
  }

  lemma PlainRowExact(g: A.State, t: B.State, direction: Direction, payload: Payload, connection: ConnectionState,
                      session: SessionState)
    requires Related(g, t) && payload.WellFormed() && !payload.FatalError?
    requires !payload.HistoryBegin? && !payload.HistoryChunk? && !payload.HistoryEnd? && !payload.TerminalOutput?
    requires Row(direction, (g.connection, g.session), payload.Type(), (connection, session))
    ensures Exact(g, t, payload, connection, session)
  {
    hide Exact;
    hide Related;
    if payload.SessionOpened? {
      OpenedExact(g, t, payload);
    } else if payload.ReopenSession? || payload.SessionReopened? {
      ReopenExact(g, t, payload);
    } else if payload.HasSessionId() {
      AddressedExact(g, t, payload, session);
    } else {
      UnaddressedExact(g, t, payload, connection, session);
    }
  }

  /** The browser's data checks neither read nor write the sequence numbers. */
  lemma ValidationIgnoresSequences(t: B.State, payload: Payload, client: nat, agent: nat)
    ensures var moved := B.ValidateSessionData(t.(nextClient := client, nextAgent := agent), payload);
            var plain := B.ValidateSessionData(t, payload);
            moved == B.Result(plain.state.(nextClient := client, nextAgent := agent), plain.outcome)
  {
  }

  /** Both machines name the connection and check the sequence alike. */
  lemma EnvelopesAgree(g: A.State, t: B.State, direction: Direction, frame: Frame)
    requires Related(g, t) && frame.WellFormed() && frame.sequence < MAX_SEQUENCE && frame.OffersVersion()
    ensures var b := B.CheckEnvelope(t, direction, frame);
            var named := if g.connectionId == "" then g.(connectionId := frame.connectionId) else g;
            var passes := frame.connectionId == named.connectionId && frame.sequence == g.Next(direction);
            && (b.outcome.Accepted? <==> passes)
            && (b.outcome.Accepted? ==> Related(named, b.state) && b.state.connectionId.Some?)
  {
  }

  lemma TakenRelated(g: A.State, t: B.State, direction: Direction)
    requires Related(g, t) && g.Next(direction) < MAX_SEQUENCE
    ensures var g1 := A.TakeSequence(g, direction);
            && Related(g1, t.(nextClient := g1.nextClient, nextAgent := g1.nextAgent))
            && g1.connection == t.connection && g1.session == t.session
            && g1.nextClient == (if direction == ClientToAgent then t.nextClient + 1 else t.nextClient)
            && g1.nextAgent == (if direction == ClientToAgent then t.nextAgent else t.nextAgent + 1)
            && g1.historyBegun == g.historyBegun && g1.nextOutput == g.nextOutput && g1.sessionId == g.sessionId
  {
  }

  /** Once the sequence is taken, bookkeeping and row together accept exactly what the browser accepts and Strict. */
  lemma TakenExact(g: A.State, t: B.State, direction: Direction, payload: Payload)
    requires Related(g, t) && payload.WellFormed() && !payload.FatalError? && g.Next(direction) < MAX_SEQUENCE
    ensures var tracked := A.SessionSemantics(A.TakeSequence(g, direction), payload, true);
            var moved := A.Transit(tracked.state, direction, payload.Type());
            var lookup := B.FindTransition(t.connection, t.session, direction, payload.Type());
            var validated := B.ValidateSessionData(t, payload);
            && (tracked.outcome.Accepted? && moved.outcome.Accepted? <==>
                lookup.Found? && validated.outcome.Accepted? && Strict(g, payload))
            && (tracked.outcome.Accepted? && moved.outcome.Accepted? ==>
                Related(moved.state, B.Commit(validated.state, direction, lookup.transition)))
  {
    hide A.SessionSemantics;
    hide A.Transit;
    hide A.TakeSequence;
    hide B.FindTransition;
    hide B.ValidateSessionData;
    hide Related;
    hide Row;
    var g1 := A.TakeSequence(g, direction);
    var t1 := t.(nextClient := g1.nextClient, nextAgent := g1.nextAgent);
    var tracked := A.SessionSemantics(g1, payload, true);
    TakenRelated(g, t, direction);
    SemanticsKeep(g1, payload);
    LookupsAgree(tracked.state, direction, payload.Type());
    TransitFollowsRow(tracked.state, direction, payload.Type());
    ValidationIgnoresSequences(t, payload, g1.nextClient, g1.nextAgent);
    ValidationKeeps(t, payload);
    var moved := A.Transit(tracked.state, direction, payload.Type());
    if moved.outcome.Accepted? {
      RowExact(g1, t1, direction, payload, moved.state.connection, moved.state.session);
    }
  }

  /** A fatal error moves both machines to the closing state, or neither. */
  lemma ErrorExact(g: A.State, t: B.State, direction: Direction)
    requires Related(g, t) && g.Next(direction) < MAX_SEQUENCE
    ensures var lookup := B.FindTransition(t.connection, t.session, direction, TError);
            && (lookup.Found? <==> g.connection != ConnectionClosed)
            && (lookup.Found? ==>
                Related(A.TakeSequence(g, direction).(connection := ConnectionClosing),
                        B.Commit(t, direction, lookup.transition)))
  {
    ConnectionTablesAgree(t.connection, direction, TError);
    SessionTablesAgree(t.connection, t.session, direction, TError);
  }

  /** From related states, the agent machine accepts a frame exactly when the browser machine does and the
      frame is Strict; then the states stay related. */
  lemma StepExact(g: A.State, t: B.State, direction: Direction, frame: Frame)
    requires Related(g, t)
    requires frame.WellFormed() && frame.sequence < MAX_SEQUENCE && frame.OffersVersion()
    ensures var a := A.Applied(g, direction, frame, true);
            var b := B.Applied(t, direction, frame);
            && (a.outcome.Accepted? <==> b.outcome.Accepted? && (frame.payload.FatalError? || Strict(g, frame.payload)))
            && (a.outcome.Accepted? ==> Related(a.state, b.state))
  {
    hide A.SessionSemantics;
    hide A.Transit;
    hide A.TakeSequence;
    hide B.FindTransition;
    hide B.ValidateSessionData;
    hide B.CheckEnvelope;
    hide Strict;
    EnvelopesAgree(g, t, direction, frame);
    var envelope := B.CheckEnvelope(t, direction, frame);
    var named := if g.connectionId == "" then g.(connectionId := frame.connectionId) else g;
    if envelope.outcome.Accepted? {
      if frame.payload.FatalError? {
        ErrorExact(named, envelope.state, direction);
        TakenRelated(named, envelope.state, direction);
        assert B.ValidateSessionData(envelope.state, FatalError) == B.Result(envelope.state,
                                                                             Accepted) by { NoData(envelope.state); }
      } else {
        TakenExact(named, envelope.state, direction, frame.payload);
        StrictIgnoresName(g, frame.connectionId, frame.payload);
      }
    }
  }

  lemma NoData(t: B.State)
    ensures B.ValidateSessionData(t, FatalError) == B.Result(t, Accepted)
  {
  }

  lemma StrictIgnoresName(g: A.State, name: string, payload: Payload)
    ensures Strict(g.(connectionId := name), payload) <==> Strict(g, payload)
  {
  }

  /** Decoded frames below the last sequence number, whose hello offers the contract's version. */
  ghost predicate Eligible(events: seq<Event>) {
    forall event | event in events && event.Deliver? ::
      event.frame.WellFormed() && event.frame.sequence < MAX_SEQUENCE && event.frame.OffersVersion()
  }

  /** Every run the agent machine accepts from NEW, the browser machine accepts frame by frame, and the two
      states agree on everything they share. */
  lemma {:induction false} Simulates(events: seq<Event>)
    requires Eligible(events) && A.Run(A.INITIAL, events).Some?
    ensures B.Run(B.INITIAL, events).Some?
    ensures Related(A.Run(A.INITIAL, events).value, B.Run(B.INITIAL, events).value)
  {
    if events != [] {
      hide A.Applied;
      hide B.Applied;
      var before := events[..|events| - 1];
      var last := events[|events| - 1];
      Simulates(before);
      if last.Deliver? {
        StepExact(A.Run(A.INITIAL, before).value, B.Run(B.INITIAL, before).value, last.direction, last.frame);
      }
    }
  }

  /** At its n-th event the run asks nothing of the agent machine that it would refuse: the frame is Strict when it
      comes, and the output offset is set only while the session is being reopened. */
  ghost predicate StrictAt(events: seq<Event>, n: nat)
    requires n < |events|
  {
    A.Run(A.INITIAL, events[..n]).Some? ==>
      var g := A.Run(A.INITIAL, events[..n]).value;
      if events[n].SetOutput? then g.session == Reopening
      else events[n].frame.payload.FatalError? || Strict(g, events[n].frame.payload)
  }

  lemma StrictFront(events: seq<Event>)
    requires events != []
    ensures var front := events[..|events| - 1];
            (forall n | 0 <= n < |events| :: StrictAt(events, n)) <==>
            (forall n | 0 <= n < |front| :: StrictAt(front, n)) && StrictAt(events, |front|)
  {
    hide Strict;
    hide A.Run;
    var front := events[..|events| - 1];
    forall n | 0 <= n < |front| ensures StrictAt(front, n) == StrictAt(events, n) {
      assert front[..n] == events[..n];
    }
  }

  /** Of the runs the browser machine accepts, the agent machine accepts exactly those in which every frame is Strict
      when it comes. */
  lemma {:induction false} RunExact(events: seq<Event>)
    requires Eligible(events) && B.Run(B.INITIAL, events).Some?
    ensures A.Run(A.INITIAL, events).Some? <==> forall n | 0 <= n < |events| :: StrictAt(events, n)
  {
    if events != [] {
      hide A.Applied;
      hide B.Applied;
      hide Strict;
      hide Related;
      var before := events[..|events| - 1];
      var last := events[|events| - 1];
      RunExact(before);
      StrictFront(events);
      if A.Run(A.INITIAL, before).Some? && last.Deliver? {
        Simulates(before);
        StepExact(A.Run(A.INITIAL, before).value, B.Run(B.INITIAL, before).value, last.direction, last.frame);
      }
    }
  }

  /** The agent's send hands its own machine payloads by value, which no offset check looks at: in an open session
      that machine lets every output frame pass, where the browser machine insists on the offset. */
  lemma OutgoingOutputUnchecked(g: A.State, t: B.State, frame: Frame)
    requires Related(g, t) && g.connection == Ready && g.session == Open
    requires frame.WellFormed() && frame.payload.TerminalOutput? && frame.sequence == g.nextAgent < MAX_SEQUENCE
    requires frame.connectionId == g.connectionId && frame.payload.sessionId == g.sessionId
    ensures A.Applied(g, AgentToClient, frame, false).outcome.Accepted?
    ensures B.Applied(t, AgentToClient, frame).outcome.Accepted? <==>
            frame.payload.offset == g.nextOutput && frame.payload.offset + |frame.payload.data| <= MAX_SEQUENCE
  {
    hide B.FindTransition;
    LookupsAgree(g, AgentToClient, TTerminalOutput);
  }
}
