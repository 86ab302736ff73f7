/** What one accepted frame does to either machine. */
module MachineSteps {
  import opened Protocol
  import A = AgentMachine
  import B = BrowserMachine

  lemma SemanticsKeep(m: A.State, payload: Payload)
    ensures var tracked := A.SessionSemantics(m, payload, true).state;
            && tracked.connection == m.connection && tracked.session == m.session
            && tracked.nextClient == m.nextClient && tracked.nextAgent == m.nextAgent
            && tracked.clientExhausted == m.clientExhausted && tracked.agentExhausted == m.agentExhausted
  {
    hide A.TrackOffsets;
    var checked := if payload.HasSessionId() then A.CheckSessionId(m, payload).state else m;
    OffsetsKeep(checked, payload);
  }

  lemma OffsetsKeep(m: A.State, payload: Payload)
    ensures var tracked := A.TrackOffsets(m, payload).state;
            && tracked.connection == m.connection && tracked.session == m.session
            && tracked.nextClient == m.nextClient && tracked.nextAgent == m.nextAgent
            && tracked.clientExhausted == m.clientExhausted && tracked.agentExhausted == m.agentExhausted
  {
  }

  lemma TransitFollowsRow(m: A.State, direction: Direction, message: MessageType)
    requires message != TError
    ensures var moved := A.Transit(m, direction, message);
            && moved.state == m.(connection := moved.state.connection, session := moved.state.session)
            && (moved.outcome.Accepted? ==>
                Row(direction, (m.connection, m.session), message, (moved.state.connection, moved.state.session)))
  {
  }

  /** An accepted frame took its sequence number, passed the bookkeeping and followed a row. */
  lemma AgentStep(m: A.State, direction: Direction, frame: Frame)
    requires A.Applied(m, direction, frame, true).outcome.Accepted?
    ensures var next := A.Applied(m, direction, frame, true).state;
            var named := if m.connectionId == "" then m.(connectionId := frame.connectionId) else m;
            var taken := A.TakeSequence(named, direction);
            var tracked :=
                if frame.payload.FatalError? then A.Result(taken, Accepted)
                else A.SessionSemantics(taken, frame.payload, true);
            && frame.sequence == m.Next(direction) && !m.Exhausted(direction)
            && tracked.outcome.Accepted?
            && next == tracked.state.(connection := next.connection, session := next.session)
            && Row(direction, (m.connection, m.session), frame.payload.Type(), (next.connection, next.session))
  {
    hide A.SessionSemantics;
    hide A.Transit;
    hide Row;
    var named := if m.connectionId == "" then m.(connectionId := frame.connectionId) else m;
    var taken := A.TakeSequence(named, direction);
    if frame.payload.FatalError? {
      ErrorRow(m, direction);
    } else {
      SemanticsKeep(taken, frame.payload);
      TransitFollowsRow(A.SessionSemantics(taken, frame.payload, true).state, direction, frame.payload.Type());
    }
  }

  lemma ErrorRow(m: A.State, direction: Direction)
    requires m.connection != ConnectionClosed
    ensures Row(direction, (m.connection, m.session), TError, (ConnectionClosing, m.session))
  {
  }

  lemma BrowserStepFollowsRow(t: B.State, direction: Direction, frame: Frame)
    ensures var result := B.Applied(t, direction, frame);
            result.outcome.Accepted? ==>
              Row(direction, (t.connection, t.session), frame.payload.Type(),
                  (result.state.connection, result.state.session))
  {
    hide B.ValidateSessionData;
    hide B.FindTransition;
    hide Row;
    ValidationKeeps(B.CheckEnvelope(t, direction, frame).state, frame.payload);
    LookupFollowsRow(t.connection, t.session, direction, frame.payload.Type());
  }

  lemma ValidationKeeps(t: B.State, payload: Payload)
    ensures var validated := B.ValidateSessionData(t, payload).state;
            && validated.connection == t.connection && validated.session == t.session
            && validated.nextClient == t.nextClient && validated.nextAgent == t.nextAgent
  {
  }

  lemma LookupFollowsRow(connection: ConnectionState, session: SessionState, direction: Direction, message: MessageType)
    ensures var lookup := B.FindTransition(connection, session, direction, message);
            lookup.Found? ==>
              Row(direction, (connection, session), message,
                  (if lookup.transition.connection.Some? then lookup.transition.connection.value else connection,
                   if lookup.transition.session.Some? then lookup.transition.session.value else session))
  {
  }

  lemma RowFound(connection: ConnectionState, session: SessionState, direction: Direction, message: MessageType,
                 to: (ConnectionState, SessionState))
    requires Row(direction, (connection, session), message, to)
    ensures var lookup := B.FindTransition(connection, session, direction, message);
            && lookup.Found?
            && to == (if lookup.transition.connection.Some? then lookup.transition.connection.value else connection,
                      if lookup.transition.session.Some? then lookup.transition.session.value else session)
  {
  }

  /** A frame with the right name and sequence, a row and sound data is accepted by the browser machine. */
  lemma BrowserAccepts(t: B.State, direction: Direction, frame: Frame, to: (ConnectionState, SessionState))
    requires t.connectionId == None || t.connectionId == Some(frame.connectionId)
    requires frame.OffersVersion() && frame.sequence == t.Next(direction) < MAX_SEQUENCE
    requires Row(direction, (t.connection, t.session), frame.payload.Type(), to)
    requires B.ValidateSessionData(t.(connectionId := Some(frame.connectionId)), frame.payload).outcome.Accepted?
    ensures var validated := B.ValidateSessionData(t.(connectionId := Some(frame.connectionId)), frame.payload).state;
            B.Applied(t, direction, frame) ==
              B.Result(validated.(connection := to.0, session := to.1,
                                  nextClient := if direction == ClientToAgent then t.nextClient + 1 else t.nextClient,
                                  nextAgent := if direction == AgentToClient then t.nextAgent + 1 else t.nextAgent),
                       Accepted)
  {
    hide B.FindTransition;
    hide B.ValidateSessionData;
    hide Row;
    RowFound(t.connection, t.session, direction, frame.payload.Type(), to);
    ValidationKeeps(t.(connectionId := Some(frame.connectionId)), frame.payload);
  }
}
