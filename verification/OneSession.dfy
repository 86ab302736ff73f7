/** A connection speaks under one name, in one version, of one session. */
module OneSession {
  import opened Protocol
  import opened MachineSteps
  import opened Simulation
  import A = AgentMachine
  import B = BrowserMachine

  /** The frame names a session that it speaks of; reopen_session names the one it asks for. */
  predicate Speaks(payload: Payload) {
    payload.HasSessionId() && !payload.ReopenSession?
  }

  predicate Waits(session: SessionState) {
    session == NoSession || session == Opening || session == Reopening
  }

  /** Once the wait is over the session is known. */
  predicate Told(t: B.State) {
    !Waits(t.session) ==> t.sessionId.Some?
  }

  /** While the session is awaited only its own answer may speak of one. */
  lemma WaitingRow(direction: Direction, from: (ConnectionState, SessionState), payload: Payload,
                   to: (ConnectionState, SessionState))
    requires Row(direction, from, payload.Type(), to) && Waits(from.1)
    ensures Speaks(payload) ==> payload.SessionOpened? || payload.SessionReopened?
    ensures !Waits(to.1) ==> payload.SessionOpened? || payload.SessionReopened?
  {
  }

  lemma BrowserStepSpeaks(t: B.State, direction: Direction, frame: Frame)
    requires Told(t) && B.Applied(t, direction, frame).outcome.Accepted?
    ensures var next := B.Applied(t, direction, frame).state;
            && Told(next) && next.connectionId == Some(frame.connectionId)
            && (t.connectionId.Some? ==> next.connectionId == t.connectionId)
            && (t.sessionId.Some? ==> next.sessionId == t.sessionId)
            && (Speaks(frame.payload) ==> next.sessionId == Some(frame.payload.sessionId))
            && frame.OffersVersion()
  {
    hide B.FindTransition;
    BrowserStepFollowsRow(t, direction, frame);
    hide Row;
    var next := B.Applied(t, direction, frame).state;
    if Waits(t.session) {
      WaitingRow(direction, (t.connection, t.session), frame.payload, (next.connection, next.session));
    }
  }

  /** Every frame of the run carries this name and offers the version, and every one that speaks of a session speaks of
      this one. */
  ghost predicate AllSpeak(events: seq<Event>, name: Option<string>, session: Option<string>) {
    forall i | 0 <= i < |events| && events[i].Deliver? ::
      && name == Some(events[i].frame.connectionId) && events[i].frame.OffersVersion()
      && (Speaks(events[i].frame.payload) ==> session == Some(events[i].frame.payload.sessionId))
  }

  /** Every run the browser machine accepts is one connection's, in a version both speak, about one session: that of the
      agent's answer. */
  lemma {:induction false} BrowserSpeaksOfOne(events: seq<Event>)
    requires B.Run(B.INITIAL, events).Some?
    ensures var t := B.Run(B.INITIAL, events).value;
            Told(t) && AllSpeak(events, t.connectionId, t.sessionId)
  {
    hide B.Applied;
    if events != [] {
      var front, last := events[..|events| - 1], events[|events| - 1];
      BrowserSpeaksOfOne(front);
      if last.Deliver? {
        BrowserStepSpeaks(B.Run(B.INITIAL, front).value, last.direction, last.frame);
      }
      forall i | 0 <= i < |events| && events[i].Deliver?
        ensures var t := B.Run(B.INITIAL, events).value;
                && t.connectionId == Some(events[i].frame.connectionId) && events[i].frame.OffersVersion()
                && (Speaks(events[i].frame.payload) ==> t.sessionId == Some(events[i].frame.payload.sessionId))
      {
        assert i < |front| ==> front[i] == events[i];
      }
    }
  }

  /** What the browser machine answers to another name, version or session. */
  lemma OthersRefused(t: B.State, direction: Direction, frame: Frame, to: (ConnectionState, SessionState))
    requires t.connectionId.Some?
    ensures frame.connectionId != t.connectionId.value ==>
              B.Applied(t, direction, frame).outcome == Rejected(SchemaInvalid, 1002)
    ensures frame.connectionId == t.connectionId.value && !frame.OffersVersion() ==>
              B.Applied(t, direction, frame).outcome == Rejected(UnsupportedVersion, 1002)
    ensures frame.connectionId == t.connectionId.value && frame.OffersVersion() && frame.sequence == t.Next(direction)
            && t.sessionId.Some? && Speaks(frame.payload) && frame.payload.sessionId != t.sessionId.value
            && Row(direction, (t.connection, t.session), frame.payload.Type(), to) ==>
              B.Applied(t, direction, frame).outcome == Rejected(OutputOffsetInvalid, 1008)
  {
    if Row(direction, (t.connection, t.session), frame.payload.Type(), to) && Speaks(frame.payload) {
      RowFound(t.connection, t.session, direction, frame.payload.Type(), to);
      hide B.FindTransition;
      hide Row;
    }
  }

  // ---------- The agent's machine ----------

  lemma AgentStepSpeaks(m: A.State, direction: Direction, frame: Frame)
    requires frame.WellFormed() && A.Applied(m, direction, frame, true).outcome.Accepted?
    ensures var next := A.Applied(m, direction, frame, true).state;
            && next.connectionId == frame.connectionId && (m.connectionId != "" ==> next.connectionId == m.connectionId)
            && (m.sessionId != "" ==> next.sessionId == m.sessionId)
            && (frame.payload.HasSessionId() ==> next.sessionId == frame.payload.sessionId)
  {
    hide A.Transit;
    hide A.SessionSemantics;
    hide A.TakeSequence;
    var named := if m.connectionId == "" then m.(connectionId := frame.connectionId) else m;
    var taken := A.TakeSequence(named, direction);
    TakenNames(named, direction);
    SemanticsSpeak(taken, frame.payload);
    var told := if frame.payload.FatalError? then taken else A.SessionSemantics(taken, frame.payload, true).state;
    TransitNames(told, direction, frame.payload.Type());
  }

  lemma SemanticsSpeak(m: A.State, payload: Payload)
    requires payload.WellFormed()
    ensures var next := A.SessionSemantics(m, payload, true);
            && next.state.connectionId == m.connectionId
            && (m.sessionId != "" ==> next.state.sessionId == m.sessionId)
            && (next.outcome.Accepted? && payload.HasSessionId() ==> next.state.sessionId == payload.sessionId)
  {
    hide A.TrackOffsets;
    OffsetsNames(m, payload);
    if payload.HasSessionId() { OffsetsNames(A.CheckSessionId(m, payload).state, payload); }
  }

  lemma OffsetsNames(m: A.State, payload: Payload)
    ensures var next := A.TrackOffsets(m, payload).state;
            next.connectionId == m.connectionId && next.sessionId == m.sessionId
  {
  }

  lemma TakenNames(m: A.State, direction: Direction)
    ensures var next := A.TakeSequence(m, direction);
            next.connectionId == m.connectionId && next.sessionId == m.sessionId
  {
  }

  lemma TransitNames(m: A.State, direction: Direction, message: MessageType)
    ensures var next := A.Transit(m, direction, message).state;
            next.connectionId == m.connectionId && next.sessionId == m.sessionId
  {
    hide A.ConnectionTransition;
    hide A.SessionTransition;
    hide A.HasTransition;
  }

  /** Every run of decoded frames the agent machine accepts is one connection's about one session, the one asked for
      included. */
  lemma {:induction false} AgentSpeaksOfOne(events: seq<Event>)
    requires A.Run(A.INITIAL, events).Some?
    requires forall i | 0 <= i < |events| && events[i].Deliver? :: events[i].frame.WellFormed()
    ensures var m := A.Run(A.INITIAL, events).value;
            forall i | 0 <= i < |events| && events[i].Deliver? ::
              && events[i].frame.connectionId == m.connectionId
              && (events[i].frame.payload.HasSessionId() ==> events[i].frame.payload.sessionId == m.sessionId)
  {
    hide A.Applied;
    if events != [] {
      var front, last := events[..|events| - 1], events[|events| - 1];
      AgentSpeaksOfOne(front);
      if last.Deliver? {
        AgentStepSpeaks(A.Run(A.INITIAL, front).value, last.direction, last.frame);
      }
      forall i | 0 <= i < |events| && events[i].Deliver?
        ensures var m := A.Run(A.INITIAL, events).value;
                && events[i].frame.connectionId == m.connectionId
                && (events[i].frame.payload.HasSessionId() ==> events[i].frame.payload.sessionId == m.sessionId)
      {
        assert i < |front| ==> front[i] == events[i] && front[i].frame.WellFormed();
      }
    }
  }

  // ---------- Messages without a row ----------

  ghost predicate HasRow(direction: Direction, from: (ConnectionState, SessionState), message: MessageType) {
    exists to :: Row(direction, from, message, to)
  }

  lemma RowIsFound(from: (ConnectionState, SessionState), direction: Direction, message: MessageType)
    ensures B.FindTransition(from.0, from.1, direction, message).Found? <==> HasRow(direction, from, message)
  {
    LookupFollowsRow(from.0, from.1, direction, message);
    if HasRow(direction, from, message) {
      var to :| Row(direction, from, message, to);
      RowFound(from.0, from.1, direction, message, to);
    }
    hide Row;
    hide B.FindTransition;
  }

  /** In every state both machines answer a message that has no row alike: as a violation of direction exactly if the
      other side might have said it, and else as one of state. */
  lemma NoRowRefused(m: A.State, direction: Direction, message: MessageType)
    requires message != TError && !HasRow(direction, (m.connection, m.session), message)
    ensures var code := if HasRow(A.Opposite(direction), (m.connection, m.session), message) then DirectionViolation
                        else InvalidState;
            && B.FindTransition(m.connection, m.session, direction, message) == B.Violation(code)
            && A.Transit(m, direction, message).outcome == Rejected(code, 1008)
  {
    var other := A.Opposite(direction);
    var from := (m.connection, m.session);
    RowIsFound(from, direction, message);
    RowIsFound(from, other, message);
    LookupsAgree(m, direction, message);
    LookupsAgree(m, other, message);
    hide HasRow;
    hide B.ConnectionEntry;
    hide B.SessionEntry;
    hide A.ConnectionTransition;
    hide A.SessionTransition;
  }
}
