/** What the agent sends a connection, played to the browser machine at its other end. */
module ReplayAccepted {
  import opened Protocol
  import opened Tiling
  import opened Delivery
  import opened DeliveryInvariant
  import opened DeliveryRuns
  import opened MachineSteps
  import A = AgentMachine
  import B = BrowserMachine

  /** The events deliver the given payloads from the agent, in order, mixed with heartbeats in both directions; the
      frames carry the connection's name and, in each direction, consecutive numbers from the given ones on. */
  ghost predicate Carries(events: seq<Event>, name: string, client: nat, agent: nat, payloads: seq<Payload>) {
    if events == [] then payloads == []
    else
      var last := events[|events| - 1];
      var rest := events[..|events| - 1];
      && last.Deliver? && last.frame.connectionId == name
      && last.frame.sequence == (if last.direction == ClientToAgent then client
                                 else agent) + Frames(rest, last.direction)
      && if last.frame.payload == Heartbeat then Carries(rest, name, client, agent, payloads)
         else last.direction == AgentToClient && payloads != [] && last.frame.payload == payloads[|payloads| - 1]
              && Carries(rest, name, client, agent, payloads[..|payloads| - 1])
  }

  /** How many frames went in one direction. */
  function Frames(events: seq<Event>, direction: Direction): nat {
    if events == [] then 0
    else
      var last := events[|events| - 1];
      Frames(events[..|events| - 1], direction) + if last.Deliver? && last.direction == direction then 1 else 0
  }

  /** No sequence number runs out. */
  predicate Room(t: B.State, events: seq<Event>) {
    t.nextClient + Frames(events, ClientToAgent) <= MAX_SEQUENCE
    && t.nextAgent + Frames(events, AgentToClient) <= MAX_SEQUENCE
  }

  /** The browser machine after the first i payloads of a replay whose history_end is at n. */
  ghost predicate At(t: B.State, queued: seq<Payload>, i: nat, id: string, start: nat, end: nat, n: nat)
    requires i <= |queued|
  {
    && t.connection == Ready
    && (t.outputKnown ==> i > n || t.nextOutput == end)
    && (t.sessionId.Some? ==> t.sessionId.value == id)
    && if i == 0 then t.session == Reopening && t.history.None?
       else if i == 1 then t.session == Replaying && t.history.None?
       else if i <= n then
         && t.session == Replaying && t.nextOutput == end
         && t.history.Some? && t.history.value.begun && t.history.value.endOffset == end
         && Tile(PiecesIn(queued[..i]), start, t.history.value.cursor)
       else
         t.session == Open && t.history.None? && Tile(PiecesIn(queued[..i]), start, t.nextOutput)
  }

  /** One tiling has one end. */
  lemma TileEnds(pieces: seq<Piece>, start: nat, end: nat, other: nat)
    requires Tile(pieces, start, end) && Tile(pieces, start, other)
    ensures end == other
  {
  }

  lemma NextPieces(queued: seq<Payload>, i: nat)
    requires i < |queued|
    ensures PiecesIn(queued[..i + 1]) == PiecesIn(queued[..i]) + PieceOf(queued[i])
  {
    assert queued[..i + 1][..i] == queued[..i];
  }

  /** In a tiled list of payloads, the next piece begins where the earlier ones end. */
  lemma NextOffset(queued: seq<Payload>, i: nat, m: nat, start: nat, end: nat, cursor: nat)
    requires i < m <= |queued| && Tile(PiecesIn(queued[..m]), start, end) && Tile(PiecesIn(queued[..i]), start, cursor)
    ensures PieceOf(queued[i]) == [] ==> Tile(PiecesIn(queued[..i + 1]), start, cursor)
    ensures |PieceOf(queued[i])| == 1 ==>
              var piece := PieceOf(queued[i])[0];
              && piece.offset == cursor && cursor + |piece.data| <= end
              && Tile(PiecesIn(queued[..i + 1]), start, cursor + |piece.data|)
  {
    hide PiecesIn;
    NextPieces(queued, i);
    var early := PiecesIn(queued[..i + 1]);
    var rest := queued[i + 1..m];
    assert queued[..m] == queued[..i + 1] + rest;
    PiecesInJoin(queued[..i + 1], rest);
    assert PiecesIn(queued[..m])[..|early|] == early;
    var middle := TilePrefix(PiecesIn(queued[..m]), start, end, |early|);
    if |PieceOf(queued[i])| == 1 {
      var piece := PieceOf(queued[i])[0];
      assert early[..|early| - 1] == PiecesIn(queued[..i]);
      TileEnds(PiecesIn(queued[..i]), start, cursor, piece.offset);
    } else {
      assert PieceOf(queued[i]) == [] ==> early == PiecesIn(queued[..i]);
    }
  }

  /** Where the i-th payload of a replay leads. */
  function Target(i: nat, n: nat): (ConnectionState, SessionState) {
    (Ready, if i < n then Replaying else Open)
  }

  lemma PayloadRow(queued: seq<Payload>, i: nat, id: string, start: nat, end: nat, n: nat, session: SessionState)
    requires Scripted(queued, id, start, end, n) && i < |queued|
    requires session == if i == 0 then Reopening else if i <= n then Replaying else Open
    ensures Row(AgentToClient, (Ready, session), queued[i].Type(), Target(i, n)) && !queued[i].Hello?
    ensures queued[i] != Heartbeat
  {
    if 2 <= i < n {
      assert ChunkOf(queued[i], id);
    } else if i > n {
      assert OutputOf(queued[i], id);
    }
  }

  lemma OpeningData(t: B.State, queued: seq<Payload>, i: nat, id: string, start: nat, end: nat, n: nat)
    requires Scripted(queued, id, start, end, n) && i < 2 && At(t, queued, i, id, start, end, n) && start <= end
    ensures var validated := B.ValidateSessionData(t, queued[i]);
            validated.outcome.Accepted? && At(validated.state.(session := Replaying), queued, i + 1, id, start, end, n)
  {
    hide Tile;
    hide PiecesIn;
    if i == 1 {
      SilentOpening(queued, id, start, end, n);
    }
  }

  lemma SilentOpening(queued: seq<Payload>, id: string, start: nat, end: nat, n: nat)
    requires Scripted(queued, id, start, end, n)
    ensures Tile(PiecesIn(queued[..2]), start, start)
  {
    NextPieces(queued, 0);
    NextPieces(queued, 1);
    assert queued[..0] == [];
  }

  lemma ChunkData(t: B.State, queued: seq<Payload>, i: nat, id: string, start: nat, end: nat, n: nat)
    requires Scripted(queued, id, start, end, n) && 2 <= i < n && At(t, queued, i, id, start, end, n)
    requires end <= MAX_SEQUENCE
    ensures var validated := B.ValidateSessionData(t, queued[i]);
            validated.outcome.Accepted? && At(validated.state, queued, i + 1, id, start, end, n)
  {
    hide Tile;
    hide PiecesIn;
    assert ChunkOf(queued[i], id);
    NextOffset(queued, i, n, start, end, t.history.value.cursor);
  }

  lemma EndData(t: B.State, queued: seq<Payload>, id: string, start: nat, end: nat, n: nat)
    requires Scripted(queued, id, start, end, n) && At(t, queued, n, id, start, end, n)
    ensures var validated := B.ValidateSessionData(t, queued[n]);
            && validated.outcome.Accepted? && validated.state.nextOutput == end
            && At(validated.state.(session := Open), queued, n + 1, id, start, end, n)
  {
    hide Tile;
    hide PiecesIn;
    TileEnds(PiecesIn(queued[..n]), start, end, t.history.value.cursor);
    NextPieces(queued, n);
    assert PiecesIn(queued[..n]) + [] == PiecesIn(queued[..n]);
  }

  lemma OutputData(t: B.State, queued: seq<Payload>, i: nat, id: string, start: nat, end: nat, n: nat, reach: nat)
    requires Scripted(queued, id, start, end, n) && n < i < |queued| && At(t, queued, i, id, start, end, n)
    requires Tile(PiecesIn(queued), start, reach) && reach <= MAX_SEQUENCE
    ensures var validated := B.ValidateSessionData(t, queued[i]);
            validated.outcome.Accepted? && At(validated.state, queued, i + 1, id, start, end, n)
  {
    hide Tile;
    hide PiecesIn;
    assert OutputOf(queued[i], id);
    assert queued[..|queued|] == queued;
    NextOffset(queued, i, |queued|, start, reach, t.nextOutput);
  }

  /** The data of the next payload is sound. */
  lemma PayloadData(t: B.State, queued: seq<Payload>, i: nat, id: string, start: nat, end: nat, n: nat, reach: nat)
    requires Scripted(queued, id, start, end, n) && i < |queued| && At(t, queued, i, id, start, end, n)
    requires Tile(PiecesIn(queued), start, reach) && reach <= MAX_SEQUENCE && start <= end <= MAX_SEQUENCE
    ensures var validated := B.ValidateSessionData(t, queued[i]);
            validated.outcome.Accepted?
            && At(validated.state.(session := Target(i, n).1), queued, i + 1, id, start, end, n)
  {
    hide Scripted;
    hide At;
    hide B.ValidateSessionData;
    if i < 2 {
      OpeningData(t, queued, i, id, start, end, n);
      ScriptedBounds(queued, id, start, end, n);
    } else if i < n {
      ChunkData(t, queued, i, id, start, end, n);
      KeepsReplaying(t, queued, i, id, start, end, n);
    } else if i == n {
      EndData(t, queued, id, start, end, n);
    } else {
      OutputData(t, queued, i, id, start, end, n, reach);
      KeepsReplaying(t, queued, i, id, start, end, n);
    }
  }

  lemma ScriptedBounds(queued: seq<Payload>, id: string, start: nat, end: nat, n: nat)
    requires Scripted(queued, id, start, end, n)
    ensures 2 <= n < |queued|
  {
  }

  lemma KeepsReplaying(t: B.State, queued: seq<Payload>, i: nat, id: string, start: nat, end: nat, n: nat)
    requires 2 <= i < |queued| && i != n && At(t, queued, i, id, start, end, n)
    ensures var validated := B.ValidateSessionData(t, queued[i]).state;
            validated == validated.(session := Target(i, n).1)
  {
    hide Tile;
    hide PiecesIn;
    ValidationKeeps(t, queued[i]);
  }

  /** At says nothing about names and numbers. */
  lemma AtIgnores(t: B.State, queued: seq<Payload>, i: nat, id: string, start: nat, end: nat, n: nat,
                  name: Option<string>, client: nat, agent: nat)
    requires i <= |queued| && At(t, queued, i, id, start, end, n)
    ensures At(t.(connectionId := name, nextClient := client, nextAgent := agent), queued, i, id, start, end, n)
  {
    hide Tile;
    hide PiecesIn;
  }

  /** The browser machine's part in a replay: its name and numbers, and where the replay stands. */
  ghost predicate Listens(t: B.State, name: string, client: nat, agent: nat) {
    (t.connectionId == None || t.connectionId == Some(name)) && t.nextClient == client && t.nextAgent == agent
  }

  lemma PayloadStep(t: B.State, frame: Frame, queued: seq<Payload>, i: nat, id: string, start: nat, end: nat, n: nat,
                    reach: nat)
    requires Scripted(queued, id, start, end, n) && i < |queued| && At(t, queued, i, id, start, end, n)
    requires Tile(PiecesIn(queued), start, reach) && reach <= MAX_SEQUENCE && start <= end <= MAX_SEQUENCE
    requires frame.payload == queued[i] && frame.sequence == t.nextAgent
    requires Listens(t, frame.connectionId, t.nextClient, t.nextAgent)
    ensures var result := B.Applied(t, AgentToClient, frame);
            && (result.outcome.Accepted? <==> frame.sequence < MAX_SEQUENCE)
            && (result.outcome.Accepted? ==>
                && At(result.state, queued, i + 1, id, start, end, n)
                && Listens(result.state, frame.connectionId, t.nextClient, t.nextAgent + 1))
  {
    hide Scripted;
    hide Tile;
    hide PiecesIn;
    hide B.ValidateSessionData;
    hide B.FindTransition;
    hide Row;
    var named := t.(connectionId := Some(frame.connectionId));
    ScriptedBounds(queued, id, start, end, n);
    AtSession(t, queued, i, id, start, end, n);
    AtIgnores(t, queued, i, id, start, end, n, named.connectionId, t.nextClient, t.nextAgent);
    hide At;
    PayloadRow(queued, i, id, start, end, n, t.session);
    PayloadData(named, queued, i, id, start, end, n, reach);
    ValidationKeeps(named, frame.payload);
    if frame.sequence < MAX_SEQUENCE {
      BrowserAccepts(t, AgentToClient, frame, Target(i, n));
      var validated := B.ValidateSessionData(named, frame.payload).state;
      ValidationNames(named, frame.payload);
      AtIgnores(validated.(session := Target(i, n).1), queued, i + 1, id, start, end, n, validated.connectionId,
                t.nextClient, t.nextAgent + 1);
    }
  }

  lemma ValidationNames(t: B.State, payload: Payload)
    ensures B.ValidateSessionData(t, payload).state.connectionId == t.connectionId
  {
  }

  lemma AtSession(t: B.State, queued: seq<Payload>, i: nat, id: string, start: nat, end: nat, n: nat)
    requires i <= |queued| && At(t, queued, i, id, start, end, n)
    ensures t.connection == Ready && t.session ==
            if i == 0 then Reopening else if i <= n || i == 1 then Replaying else Open
  {
  }

  lemma HeartbeatStep(t: B.State, direction: Direction, frame: Frame, queued: seq<Payload>, i: nat, id: string,
                      start: nat, end: nat, n: nat)
    requires i <= |queued| && At(t, queued, i, id, start, end, n)
    requires frame.payload == Heartbeat && frame.sequence == t.Next(direction)
    requires Listens(t, frame.connectionId, t.nextClient, t.nextAgent)
    ensures var result := B.Applied(t, direction, frame);
            && (result.outcome.Accepted? <==> frame.sequence < MAX_SEQUENCE)
            && (result.outcome.Accepted? ==>
                && At(result.state, queued, i, id, start, end, n)
                && Listens(result.state, frame.connectionId,
                           t.nextClient + (if direction == ClientToAgent then 1 else 0),
                           t.nextAgent + (if direction == AgentToClient then 1 else 0)))
  {
    hide Tile;
    hide PiecesIn;
  }

  /** The first i payloads of a replay, with any heartbeats among them, are accepted exactly when no sequence number
      runs out, and leave the browser machine where the replay stands. */
  lemma {:induction false} ReplayRuns(t: B.State, events: seq<Event>, name: string, queued: seq<Payload>, i: nat,
                                      id: string, start: nat, end: nat, n: nat, reach: nat)
    requires Scripted(queued, id, start, end, n) && i <= |queued| && At(t, queued, 0, id, start, end, n)
    requires Tile(PiecesIn(queued), start, reach) && reach <= MAX_SEQUENCE && start <= end <= MAX_SEQUENCE
    requires Listens(t, name, t.nextClient, t.nextAgent) && t.nextClient <= MAX_SEQUENCE && t.nextAgent <= MAX_SEQUENCE
    requires Carries(events, name, t.nextClient, t.nextAgent, queued[..i])
    ensures var client, agent := t.nextClient + Frames(events, ClientToAgent),
            t.nextAgent + Frames(events, AgentToClient);
            && (B.Run(t, events).Some? <==> client <= MAX_SEQUENCE && agent <= MAX_SEQUENCE)
            && (B.Run(t, events).Some? ==>
                At(B.Run(t, events).value, queued, i, id, start, end, n)
                && Listens(B.Run(t, events).value, name, client, agent))
  {
    hide Scripted;
    hide At;
    hide Tile;
    hide PiecesIn;
    hide B.Applied;
    if events != [] {
      var last := events[|events| - 1];
      var rest := events[..|events| - 1];
      if last.frame.payload == Heartbeat {
        ReplayRuns(t, rest, name, queued, i, id, start, end, n, reach);
        if B.Run(t, rest).Some? {
          HeartbeatStep(B.Run(t, rest).value, last.direction, last.frame, queued, i, id, start, end, n);
        }
      } else {
        assert queued[..i][..i - 1] == queued[..i - 1];
        ReplayRuns(t, rest, name, queued, i - 1, id, start, end, n, reach);
        if B.Run(t, rest).Some? {
          PayloadStep(B.Run(t, rest).value, last.frame, queued, i - 1, id, start, end, n, reach);
        }
      }
    }
  }

  // ---------- Every connection the agent serves ----------

  predicate Waiting(session: SessionState) {
    session == NoSession || session == Opening || session == Reopening
  }

  lemma WaitingStep(t: B.State, direction: Direction, frame: Frame)
    requires Waiting(t.session) ==> !t.outputKnown && t.nextOutput == 0 && t.sessionId.None? && t.history.None?
    requires B.Applied(t, direction, frame).outcome.Accepted?
    ensures var next := B.Applied(t, direction, frame).state;
            && next.connectionId.Some?
            && (Waiting(next.session) ==>
                  !next.outputKnown && next.nextOutput == 0 && next.sessionId.None? && next.history.None?)
  {
    hide B.FindTransition;
    BrowserStepFollowsRow(t, direction, frame);
  }

  /** A browser machine that waits for its session knows neither offset nor session id. */
  lemma {:induction false} WaitingIsFresh(events: seq<Event>)
    requires B.Run(B.INITIAL, events).Some?
    ensures var t := B.Run(B.INITIAL, events).value;
            && (Waiting(t.session) ==> !t.outputKnown && t.nextOutput == 0 && t.sessionId.None? && t.history.None?)
            && (t.session != NoSession ==> t.connectionId.Some?)
  {
    if events != [] {
      hide B.Applied;
      var before := events[..|events| - 1];
      WaitingIsFresh(before);
      if events[|events| - 1].Deliver? {
        WaitingStep(B.Run(B.INITIAL, before).value, events[|events| - 1].direction, events[|events| - 1].frame);
      }
    }
  }

  lemma StreamBounds(a: Agent, c: nat)
    requires Inv(a) && c in a.conns && a.conns[c].session.Some?
    ensures var k := a.conns[c];
            && k.session.value in a.produced && k.session.value in a.reg.sessions
            && k.wire <= k.queued && Tile(PiecesIn(k.queued), k.start, k.reach)
            && k.reach <= |a.produced[k.session.value]| <= MAX_SEQUENCE
            && Shape(k, a.reg.sessions[k.session.value].id) && (k.historyEnd.None? ==> k.start == 0)
  {
    hide Tile;
    hide PiecesIn;
    hide Shape;
    hide Shows;
    hide Link;
    ConnOf(a, c);
    assert SessionOk(a, a.conns[c].session.value);
  }

  lemma EndOfScript(queued: seq<Payload>, i: nat, id: string, start: nat, end: nat, n: nat)
    requires Scripted(queued, id, start, end, n) && i <= |queued|
    ensures i > n <==> exists j :: 0 <= j < i && queued[j].HistoryEnd?
    ensures start <= end
  {
    TileOrder(PiecesIn(queued[..n]), start, end);
    forall j | 0 <= j < |queued| && j != n ensures !queued[j].HistoryEnd? {
      if 2 <= j < n { assert ChunkOf(queued[j], id); }
      if j > n { assert OutputOf(queued[j], id); }
    }
  }

  /** In every reachable state of the agent, what a reopened connection was sent so far is accepted in order by any
      browser machine that waits for its session to reopen, unless sequence numbers run out. Once history_end is
      among it the machine is OPEN, and its output offset is the end of exactly the bytes it was sent: when nothing
      is under way, the agent's own cursor. */
  lemma {:induction false} ReopenedConnectionAccepted(steps: seq<Step>, c: nat, before: seq<Event>, name: string,
                                                      events: seq<Event>)
    requires After(steps).Some? && c in After(steps).value.conns
    requires After(steps).value.conns[c].session.Some? && After(steps).value.conns[c].historyEnd.Some?
    requires B.Run(B.INITIAL, before).Some?
    requires var t := B.Run(B.INITIAL, before).value;
             && t.connection == Ready && t.session == Reopening && t.connectionId == Some(name)
             && t.nextClient <= MAX_SEQUENCE && t.nextAgent <= MAX_SEQUENCE
             && Carries(events, name, t.nextClient, t.nextAgent, After(steps).value.conns[c].wire)
    ensures var t := B.Run(B.INITIAL, before).value;
            var a := After(steps).value;
            var k := a.conns[c];
            var run := B.Run(t, events);
            && (run.Some? <==> Room(t, events))
            && (run.Some? ==>
                && (run.value.session == Open <==> exists j :: 0 <= j < |k.wire| && k.wire[j].HistoryEnd?)
                && (run.value.session == Open ==>
                    && k.session.value in a.produced && k.start <= run.value.nextOutput <= |a.produced[k.session.value]|
                    && Delivered(k) == a.produced[k.session.value][k.start..run.value.nextOutput]
                    && (k.wire == k.queued ==> run.value.nextOutput == k.reach)))
  {
    var a := After(steps).value;
    var k := a.conns[c];
    var t := B.Run(B.INITIAL, before).value;
    WaitingIsFresh(before);
    Reachable(steps);
    StreamBounds(a, c);
    hide After;
    hide B.Run;
    hide Tile;
    hide Inv;
    hide PiecesIn;
    hide Delivered;
    var middle := DeliveredIsOneSlice(steps, c);
    ReplayOutcome(k, a.reg.sessions[k.session.value].id, t, name, events, middle);
  }

  lemma ReplayOutcome(k: Conn, id: string, t: B.State, name: string, events: seq<Event>, middle: nat)
    requires k.historyEnd.Some? && Shape(k, id) && k.wire <= k.queued
    requires Tile(PiecesIn(k.queued), k.start, k.reach) && k.reach <= MAX_SEQUENCE
    requires Tile(PiecesIn(k.wire), k.start, middle)
    requires t.connection == Ready && t.session == Reopening && !t.outputKnown && t.sessionId.None? && t.history.None?
    requires t.connectionId == Some(name) && t.nextClient <= MAX_SEQUENCE && t.nextAgent <= MAX_SEQUENCE
    requires Carries(events, name, t.nextClient, t.nextAgent, k.wire)
    ensures var run := B.Run(t, events);
            && (run.Some? <==> Room(t, events))
            && (run.Some? ==>
                && (run.value.session == Open <==> exists j :: 0 <= j < |k.wire| && k.wire[j].HistoryEnd?)
                && (run.value.session == Open ==>
                    run.value.nextOutput == middle && (k.wire == k.queued ==> run.value.nextOutput == k.reach)))
  {
    hide Scripted;
    hide B.Run;
    hide Tile;
    hide PiecesIn;
    hide Carries;
    var end := k.historyEnd.value;
    var n :| Scripted(k.queued, id, k.start, end, n);
    EndOfScript(k.queued, |k.wire|, id, k.start, end, n);
    EndWithin(k.queued, id, k.start, end, n, k.reach);
    assert k.queued[..|k.wire|] == k.wire;
    ReplayRuns(t, events, name, k.queued, |k.wire|, id, k.start, end, n, k.reach);
    if B.Run(t, events).Some? {
      ScriptedBounds(k.queued, id, k.start, end, n);
      AtSession(B.Run(t, events).value, k.queued, |k.wire|, id, k.start, end, n);
      if |k.wire| > n {
        TileEnds(PiecesIn(k.wire), k.start, middle, B.Run(t, events).value.nextOutput);
        if k.wire == k.queued {
          TileEnds(PiecesIn(k.wire), k.start, middle, k.reach);
        }
      }
    }
  }

  lemma EndWithin(queued: seq<Payload>, id: string, start: nat, end: nat, n: nat, reach: nat)
    requires Scripted(queued, id, start, end, n) && Tile(PiecesIn(queued), start, reach)
    ensures end <= reach
  {
    hide PiecesIn;
    hide Tile;
    var early := PiecesIn(queued[..n]);
    assert queued == queued[..n] + queued[n..];
    PiecesInJoin(queued[..n], queued[n..]);
    var middle := TilePrefix(PiecesIn(queued), start, reach, |early|);
    assert PiecesIn(queued)[..|early|] == early;
    TileEnds(early, start, end, middle);
  }

  // ---------- Opened connections ----------

  /** The browser machine after the first i outputs of a session it opened. */
  ghost predicate OpenAt(t: B.State, outputs: seq<Payload>, i: nat, id: string)
    requires i <= |outputs|
  {
    t.connection == Ready && t.session == Open && t.sessionId == Some(id)
    && Tile(PiecesIn(outputs[..i]), 0, t.nextOutput)
  }

  lemma OutputStep(t: B.State, frame: Frame, outputs: seq<Payload>, i: nat, id: string, reach: nat)
    requires i < |outputs| && OpenAt(t, outputs, i, id) && OutputOf(outputs[i], id)
    requires Tile(PiecesIn(outputs), 0, reach) && reach <= MAX_SEQUENCE
    requires frame.payload == outputs[i] && frame.sequence == t.nextAgent
    requires Listens(t, frame.connectionId, t.nextClient, t.nextAgent)
    ensures var result := B.Applied(t, AgentToClient, frame);
            && (result.outcome.Accepted? <==> frame.sequence < MAX_SEQUENCE)
            && (result.outcome.Accepted? ==>
                && OpenAt(result.state, outputs, i + 1, id)
                && Listens(result.state, frame.connectionId, t.nextClient, t.nextAgent + 1))
  {
    hide Tile;
    hide PiecesIn;
    hide B.FindTransition;
    assert outputs[..|outputs|] == outputs;
    NextOffset(outputs, i, |outputs|, 0, reach, t.nextOutput);
    if frame.sequence < MAX_SEQUENCE {
      BrowserAccepts(t, AgentToClient, frame, (Ready, Open));
    }
  }

  lemma OpenHeartbeatStep(t: B.State, direction: Direction, frame: Frame, outputs: seq<Payload>, i: nat, id: string)
    requires i <= |outputs| && OpenAt(t, outputs, i, id)
    requires frame.payload == Heartbeat && frame.sequence == t.Next(direction)
    requires Listens(t, frame.connectionId, t.nextClient, t.nextAgent)
    ensures var result := B.Applied(t, direction, frame);
            && (result.outcome.Accepted? <==> frame.sequence < MAX_SEQUENCE)
            && (result.outcome.Accepted? ==>
                && OpenAt(result.state, outputs, i, id)
                && Listens(result.state, frame.connectionId,
                           t.nextClient + (if direction == ClientToAgent then 1 else 0),
                           t.nextAgent + (if direction == AgentToClient then 1 else 0)))
  {
    hide Tile;
    hide PiecesIn;
  }

  /** The browser machine after the first i of session_opened and the outputs that follow it. */
  ghost predicate OpenedAt(t: B.State, outputs: seq<Payload>, i: nat, id: string)
    requires i <= |outputs| + 1
  {
    if i == 0 then
      && t.connection == Ready && t.session == Opening
      && t.sessionId.None? && t.nextOutput == 0 && !t.outputKnown && t.history.None?
    else OpenAt(t, outputs, i - 1, id)
  }

  lemma OpenedHeartbeatStep(t: B.State, direction: Direction, frame: Frame, outputs: seq<Payload>, i: nat, id: string)
    requires i <= |outputs| + 1 && OpenedAt(t, outputs, i, id) && frame.payload == Heartbeat
    requires frame.sequence == t.Next(direction) && Listens(t, frame.connectionId, t.nextClient, t.nextAgent)
    ensures var result := B.Applied(t, direction, frame);
            && (result.outcome.Accepted? <==> frame.sequence < MAX_SEQUENCE)
            && (result.outcome.Accepted? ==>
                && OpenedAt(result.state, outputs, i, id)
                && Listens(result.state, frame.connectionId,
                           t.nextClient + (if direction == ClientToAgent then 1 else 0),
                           t.nextAgent + (if direction == AgentToClient then 1 else 0)))
  {
    hide Tile;
    hide PiecesIn;
    if i > 0 {
      hide OpenAt;
      OpenHeartbeatStep(t, direction, frame, outputs, i - 1, id);
    }
  }

  lemma OpenedStep(t: B.State, frame: Frame, outputs: seq<Payload>, id: string)
    requires OpenedAt(t, outputs, 0, id) && frame.payload == SessionOpened(id)
    requires frame.sequence == t.nextAgent && Listens(t, frame.connectionId, t.nextClient, t.nextAgent)
    ensures var result := B.Applied(t, AgentToClient, frame);
            && (result.outcome.Accepted? <==> frame.sequence < MAX_SEQUENCE)
            && (result.outcome.Accepted? ==>
                && OpenedAt(result.state, outputs, 1, id)
                && Listens(result.state, frame.connectionId, t.nextClient, t.nextAgent + 1))
  {
    hide B.FindTransition;
    assert outputs[..0] == [] && Tile(PiecesIn([]), 0, 0);
    hide Tile;
    hide PiecesIn;
    if frame.sequence < MAX_SEQUENCE {
      BrowserAccepts(t, AgentToClient, frame, (Ready, Open));
    }
  }

  lemma {:induction false} OpenedRuns(t: B.State, events: seq<Event>, name: string, outputs: seq<Payload>, i: nat,
                                      id: string,
                                      reach: nat)
    requires i <= |outputs| + 1 && OpenedAt(t, outputs, 0, id)
    requires forall j | 0 <= j < |outputs| :: OutputOf(outputs[j], id)
    requires Tile(PiecesIn(outputs), 0, reach) && reach <= MAX_SEQUENCE
    requires Listens(t, name, t.nextClient, t.nextAgent) && t.nextClient <= MAX_SEQUENCE && t.nextAgent <= MAX_SEQUENCE
    requires Carries(events, name, t.nextClient, t.nextAgent, ([SessionOpened(id)] + outputs)[..i])
    ensures var client, agent := t.nextClient + Frames(events, ClientToAgent),
            t.nextAgent + Frames(events, AgentToClient);
            && (B.Run(t, events).Some? <==> client <= MAX_SEQUENCE && agent <= MAX_SEQUENCE)
            && (B.Run(t, events).Some? ==>
                OpenedAt(B.Run(t, events).value, outputs, i, id)
                && Listens(B.Run(t, events).value, name, client, agent))
  {
    hide OpenedAt;
    hide OpenAt;
    hide Tile;
    hide PiecesIn;
    hide B.Applied;
    hide OutputOf;
    if events != [] {
      var payloads := [SessionOpened(id)] + outputs;
      var last := events[|events| - 1];
      var rest := events[..|events| - 1];
      if last.frame.payload == Heartbeat {
        OpenedRuns(t, rest, name, outputs, i, id, reach);
        if B.Run(t, rest).Some? {
          OpenedHeartbeatStep(B.Run(t, rest).value, last.direction, last.frame, outputs, i, id);
        }
      } else {
        assert payloads[..i][..i - 1] == payloads[..i - 1];
        OpenedRuns(t, rest, name, outputs, i - 1, id, reach);
        if B.Run(t, rest).Some? {
          if i == 1 {
            OpenedStep(B.Run(t, rest).value, last.frame, outputs, id);
          } else {
            OneOutput(B.Run(t, rest).value, last.frame, outputs, i, id, reach);
          }
        }
      }
    }
  }

  lemma OneOutput(t: B.State, frame: Frame, outputs: seq<Payload>, i: nat, id: string, reach: nat)
    requires 2 <= i <= |outputs| + 1 && OpenedAt(t, outputs, i - 1, id) && OutputOf(outputs[i - 2], id)
    requires Tile(PiecesIn(outputs), 0, reach) && reach <= MAX_SEQUENCE
    requires frame.payload == outputs[i - 2] && frame.sequence == t.nextAgent
    requires Listens(t, frame.connectionId, t.nextClient, t.nextAgent)
    ensures var result := B.Applied(t, AgentToClient, frame);
            && (result.outcome.Accepted? <==> frame.sequence < MAX_SEQUENCE)
            && (result.outcome.Accepted? ==>
                && OpenedAt(result.state, outputs, i, id)
                && Listens(result.state, frame.connectionId, t.nextClient, t.nextAgent + 1))
  {
    hide OpenAt;
    hide Tile;
    hide PiecesIn;
    hide OutputOf;
    hide B.Applied;
    OutputStep(t, frame, outputs, i - 2, id, reach);
  }

  // ---------- Numbers lost before session_opened ----------

  /** The agent's machine after it tried to send these frames, by value; Refusals says it refused each. */
  function Tried(g: A.State, frames: seq<Frame>): A.State {
    if frames == [] then g
    else A.Applied(Tried(g, frames[..|frames| - 1]), AgentToClient, frames[|frames| - 1], false).state
  }

  /** Output tried while the session is still opening: the frames carry the next numbers. */
  ghost predicate EarlyOutput(g: A.State, frames: seq<Frame>) {
    forall i | 0 <= i < |frames| ::
      frames[i].payload.TerminalOutput? && frames[i].connectionId == g.connectionId
      && frames[i].sequence == g.nextAgent + i
  }

  /** All of it is refused, and each frame takes a number with it. */
  lemma {:induction false} EarlyOutputSkips(g: A.State, frames: seq<Frame>)
    requires g.connection == Ready && g.session == Opening && g.connectionId != "" && !g.agentExhausted
    requires EarlyOutput(g, frames) && g.nextAgent + |frames| <= MAX_SEQUENCE
    ensures Tried(g, frames) == g.(nextAgent := g.nextAgent + |frames|)
    ensures forall i | 0 <= i < |frames| ::
              A.Applied(Tried(g, frames[..i]), AgentToClient, frames[i], false).outcome.Rejected?
  {
    hide A.Applied;
    if frames != [] {
      var front := frames[..|frames| - 1];
      EarlyOutputSkips(g, front);
      EarlyFrame(Tried(g, front), frames[|frames| - 1]);
      forall i | 0 <= i < |frames|
        ensures A.Applied(Tried(g, frames[..i]), AgentToClient, frames[i], false).outcome.Rejected?
      {
        if i < |front| { assert front[..i] == frames[..i] && front[i] == frames[i]; }
      }
    }
  }

  lemma EarlyFrame(g: A.State, frame: Frame)
    requires g.connection == Ready && g.session == Opening && g.connectionId != "" && !g.agentExhausted
    requires frame.payload.TerminalOutput? && frame.connectionId == g.connectionId
    requires frame.sequence == g.nextAgent < MAX_SEQUENCE
    ensures A.Applied(g, AgentToClient, frame, false).outcome.Rejected?
    ensures A.Applied(g, AgentToClient, frame, false).state == g.(nextAgent := g.nextAgent + 1)
  {
  }

  lemma {:induction false} CarriedFrames(events: seq<Event>, name: string, client: nat, agent: nat,
                                         payloads: seq<Payload>)
    requires Carries(events, name, client, agent, payloads)
    ensures |payloads| <= Frames(events, AgentToClient)
  {
    if events != [] {
      var rest := events[..|events| - 1];
      if events[|events| - 1].frame.payload == Heartbeat {
        CarriedFrames(rest, name, client, agent, payloads);
      } else {
        CarriedFrames(rest, name, client, agent, payloads[..|payloads| - 1]);
      }
    }
  }

  /** After a lost number the browser machine accepts no frame of the agent. */
  lemma {:induction false} GapRefused(t: B.State, events: seq<Event>, name: string, skipped: nat,
                                      payloads: seq<Payload>)
    requires skipped > 0 && Carries(events, name, t.nextClient, t.nextAgent + skipped, payloads)
    requires B.Run(t, events).Some?
    ensures Frames(events, AgentToClient) == 0 && B.Run(t, events).value.nextAgent == t.nextAgent
  {
    if events != [] {
      var last := events[|events| - 1];
      var rest := events[..|events| - 1];
      GapRefused(t, rest, name, skipped, if last.frame.payload == Heartbeat then payloads
                 else payloads[..|payloads| - 1]);
      NumberTaken(B.Run(t, rest).value, last.direction, last.frame);
    }
  }

  lemma NumberTaken(t: B.State, direction: Direction, frame: Frame)
    requires B.Applied(t, direction, frame).outcome.Accepted?
    ensures frame.sequence == t.Next(direction)
    ensures direction == ClientToAgent ==> B.Applied(t, direction, frame).state.nextAgent == t.nextAgent
  {
  }

  /** The connection has the session it asked to open. */
  ghost predicate OpenedHere(a: Agent, c: nat) {
    && c in a.conns && a.conns[c].session.Some? && a.conns[c].historyEnd.None?
    && a.conns[c].session.value in a.reg.sessions
  }

  /** The agent's reply and what was sent after it. */
  ghost function ReplyAndWire(a: Agent, c: nat): seq<Payload>
    requires OpenedHere(a, c)
  {
    [SessionOpened(a.reg.sessions[a.conns[c].session.value].id)] + a.conns[c].wire
  }

  /** Both machines of a connection wait for session_opened. */
  ghost predicate BothOpening(t: B.State, g: A.State, name: string) {
    && t.connection == Ready && t.session == Opening && t.connectionId == Some(name) && t.nextClient <= MAX_SEQUENCE
    && g.connection == Ready && g.session == Opening && g.connectionId == name != "" && !g.agentExhausted
    && g.nextAgent == t.nextAgent
  }

  /** What the connection was handed is what its shell produced, from the start to this offset. */
  ghost predicate DeliveredUpTo(a: Agent, c: nat, offset: nat)
    requires OpenedHere(a, c)
  {
    var k := a.conns[c];
    k.session.value in a.produced && offset <= |a.produced[k.session.value]|
    && Delivered(k) == a.produced[k.session.value][..offset]
  }

  /** A connection that opened its session, from the request on. The agent may have tried to send output before
      session_opened; then it is sent session_opened and what its wire says. The browser machine accepts it all exactly
      when no output was tried too early and no sequence number runs out; its output offset then counts exactly the
      bytes the connection was sent from the very first on. */
  lemma {:induction false} OpenedConnectionAccepted(steps: seq<Step>, c: nat, before: seq<Event>, name: string,
                                                    g: A.State, early: seq<Frame>, events: seq<Event>)
    requires After(steps).Some? && OpenedHere(After(steps).value, c)
    requires B.Run(B.INITIAL, before).Some? && BothOpening(B.Run(B.INITIAL, before).value, g, name)
    requires EarlyOutput(g, early) && g.nextAgent + |early| <= MAX_SEQUENCE
    requires Carries(events, name, B.Run(B.INITIAL, before).value.nextClient, Tried(g, early).nextAgent,
                     ReplyAndWire(After(steps).value, c))
    ensures var t := B.Run(B.INITIAL, before).value;
            var run := B.Run(t, events);
            && (run.Some? <==> early == [] && Room(t, events))
            && (run.Some? ==> run.value.session == Open && DeliveredUpTo(After(steps).value, c, run.value.nextOutput))
  {
    hide After;
    hide B.Run;
    hide Inv;
    hide Tile;
    hide PiecesIn;
    hide Carries;
    hide Delivered;
    hide B.Applied;
    hide A.Applied;
    var a := After(steps).value;
    var k := a.conns[c];
    var t := B.Run(B.INITIAL, before).value;
    var id := a.reg.sessions[k.session.value].id;
    WaitingIsFresh(before);
    Reachable(steps);
    StreamBounds(a, c);
    EarlyOutputSkips(g, early);
    if early != [] {
      CarriedFrames(events, name, t.nextClient, t.nextAgent + |early|, [SessionOpened(id)] + k.wire);
      if B.Run(t, events).Some? {
        GapRefused(t, events, name, |early|, [SessionOpened(id)] + k.wire);
        assert false;
      }
    } else {
      OpenedOutcome(k, id, t, name, events);
      if B.Run(t, events).Some? {
        var middle := DeliveredIsOneSlice(steps, c);
        TileEnds(PiecesIn(k.wire), 0, middle, B.Run(t, events).value.nextOutput);
      }
    }
  }

  lemma OpenedOutcome(k: Conn, id: string, t: B.State, name: string, events: seq<Event>)
    requires k.historyEnd.None? && Shape(k, id) && k.wire <= k.queued && Tile(PiecesIn(k.queued), 0, k.reach)
    requires k.reach <= MAX_SEQUENCE
    requires t.connection == Ready && t.session == Opening && !t.outputKnown && t.nextOutput == 0 && t.sessionId.None?
    requires t.history.None?
    requires t.connectionId == Some(name) && t.nextClient <= MAX_SEQUENCE && t.nextAgent <= MAX_SEQUENCE
    requires Carries(events, name, t.nextClient, t.nextAgent, [SessionOpened(id)] + k.wire)
    ensures var run := B.Run(t, events);
            && (run.Some? <==> Room(t, events))
            && (run.Some? ==> run.value.session == Open && Tile(PiecesIn(k.wire), 0, run.value.nextOutput))
  {
    hide B.Run;
    hide Tile;
    hide PiecesIn;
    hide Carries;
    assert ([SessionOpened(id)] + k.queued)[..|k.wire| + 1] == [SessionOpened(id)] + k.wire;
    assert k.queued[..|k.wire|] == k.wire;
    OpenedRuns(t, events, name, k.queued, |k.wire| + 1, id, k.reach);
  }
}
