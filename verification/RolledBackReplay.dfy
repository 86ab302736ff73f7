/** A send that fails while a session is being reopened, and the replay that follows. */
module RolledBackReplay {
  import opened Protocol
  import opened Tiling
  import opened Delivery
  import opened DeliveryInvariant
  import opened DeliveryRuns
  import opened MachineSteps
  import opened ReplayAccepted
  import B = BrowserMachine
  import S = SendPath

  /** Before history_begin the machine keeps the offset it had, known or not. */
  ghost predicate Waits(run: B.State, t: B.State, i: nat) {
    i <= 1 ==> !run.outputKnown && run.nextOutput == t.nextOutput
  }

  lemma WaitsStep(run: B.State, t: B.State, direction: Direction, frame: Frame, i: nat)
    requires Waits(run, t, i) && B.Applied(run, direction, frame).outcome.Accepted?
    ensures frame.payload == Heartbeat ==> Waits(B.Applied(run, direction, frame).state, t, i)
    ensures frame.payload.SessionReopened? && i == 0 ==> Waits(B.Applied(run, direction, frame).state, t, 1)
  {
    hide B.FindTransition;
  }

  lemma ScriptedFrames(queued: seq<Payload>, id: string, start: nat, end: nat, n: nat, i: nat)
    requires Scripted(queued, id, start, end, n) && i < |queued|
    ensures i == 0 ==> queued[i].SessionReopened?
    ensures queued[i].HistoryBegin? <==> i == 1
    ensures i == 1 ==> queued[i].endOffset == end
  {
    if 2 <= i < n { assert ChunkOf(queued[i], id); }
    if i > n { assert OutputOf(queued[i], id); }
  }

  /** Of a replay, only history_begin can come Untold, and it does unless it ends at the machine's offset. */
  lemma {:induction false} ReplayTold(t: B.State, events: seq<Event>, name: string, queued: seq<Payload>, i: nat,
                                      id: string, start: nat, end: nat, n: nat)
    requires Scripted(queued, id, start, end, n) && i <= |queued| && !t.outputKnown
    requires Carries(events, name, t.nextClient, t.nextAgent, queued[..i]) && B.Run(t, events).Some?
    ensures S.AllTold(t, events) <==> (i >= 2 ==> end == t.nextOutput)
    ensures Waits(B.Run(t, events).value, t, i)
  {
    hide Scripted;
    hide B.Applied;
    hide S.AllTold;
    if events == [] {
      S.NothingToTell(t);
    } else {
      var last := events[|events| - 1];
      var rest := events[..|events| - 1];
      S.AllToldFront(t, events);
      var j := if last.frame.payload == Heartbeat then i else i - 1;
      assert j < i ==> queued[..i][..j] == queued[..j];
      ReplayTold(t, rest, name, queued, j, id, start, end, n);
      if j < i { ScriptedFrames(queued, id, start, end, n, j); }
      WaitsStep(B.Run(t, rest).value, t, last.direction, last.frame, j);
    }
  }

  // ---------- From the rollback to the replay ----------

  lemma {:induction false} RunJoin(t: B.State, left: seq<Event>, right: seq<Event>)
    requires B.Run(t, left).Some?
    ensures B.Run(t, left + right) == B.Run(B.Run(t, left).value, right)
  {
    hide B.Applied;
    if right == [] {
      assert left + right == left;
    } else {
      RunJoin(t, left, right[..|right| - 1]);
      assert (left + right)[..|left + right| - 1] == left + right[..|right| - 1];
    }
  }

  lemma WaitingBefore(direction: Direction, from: (ConnectionState, SessionState), message: MessageType,
                      to: (ConnectionState, SessionState))
    requires Row(direction, from, message, to) && Waiting(to.1)
    ensures Waiting(from.1) && message != THistoryBegin
  {
  }

  /** Up to where its session is still waited for, a run brings no history_begin. */
  lemma {:induction false} WaitingTold(t: B.State, events: seq<Event>)
    requires B.Run(t, events).Some? && Waiting(B.Run(t, events).value.session)
    ensures S.AllTold(t, events)
  {
    hide B.Applied;
    hide S.AllTold;
    hide Row;
    if events == [] {
      S.NothingToTell(t);
    } else {
      var front := events[..|events| - 1];
      var last := events[|events| - 1];
      S.AllToldFront(t, events);
      if last.Deliver? {
        var before := B.Run(t, front).value;
        var next := B.Run(t, events).value;
        BrowserStepFollowsRow(before, last.direction, last.frame);
        WaitingBefore(last.direction, (before.connection, before.session), last.frame.payload.Type(),
                      (next.connection, next.session));
      }
      WaitingTold(t, front);
    }
  }

  /** A machine rolled back at any point before its session is reopened, such as the handshake's pairing_request, goes
      on through the handshake and the request and follows the replay as far as history_begin; on from there it follows
      exactly when the shell had produced nothing by the time of the snapshot. */
  lemma ReopenAfterRollback(steps: seq<Step>, c: nat, before: seq<Event>, middle: seq<Event>, name: string,
                            events: seq<Event>)
    requires After(steps).Some? && c in After(steps).value.conns
    requires After(steps).value.conns[c].session.Some? && After(steps).value.conns[c].historyEnd.Some?
    requires B.Run(B.INITIAL, before).Some? && B.Run(B.Run(B.INITIAL, before).value, middle).Some?
    requires var t := B.Run(B.Run(B.INITIAL, before).value, middle).value;
             && t.connection == Ready && t.session == Reopening
             && Carries(events, name, t.nextClient, t.nextAgent, After(steps).value.conns[c].wire)
             && B.Run(t, events).Some?
    ensures var rolledBack := B.Restored(B.Run(B.INITIAL, before).value);
            var k := After(steps).value.conns[c];
            && B.Run(rolledBack, middle).Some?
            && (B.Run(rolledBack, middle + events).Some? <==> (|k.wire| >= 2 ==> k.historyEnd.value == 0))
  {
    hide After;
    hide B.Run;
    hide Inv;
    hide S.AllTold;
    hide B.Restored;
    var start := B.Run(B.INITIAL, before).value;
    var t := B.Run(start, middle).value;
    RunJoin(B.INITIAL, before, middle);
    WaitingTold(start, middle);
    S.RolledBackRun(start, middle);
    RunJoin(B.Restored(start), middle, events);
    ReplayAfterRollback(steps, c, before + middle, name, events);
  }

  /** The last leg: the replay itself. */
  lemma ReplayAfterRollback(steps: seq<Step>, c: nat, before: seq<Event>, name: string, events: seq<Event>)
    requires After(steps).Some? && c in After(steps).value.conns
    requires After(steps).value.conns[c].session.Some? && After(steps).value.conns[c].historyEnd.Some?
    requires B.Run(B.INITIAL, before).Some?
    requires var t := B.Run(B.INITIAL, before).value;
             && t.connection == Ready && t.session == Reopening
             && Carries(events, name, t.nextClient, t.nextAgent, After(steps).value.conns[c].wire)
             && B.Run(t, events).Some?
    ensures var t := B.Run(B.INITIAL, before).value;
            var k := After(steps).value.conns[c];
            B.Run(B.Restored(t), events).Some? <==> (|k.wire| >= 2 ==> k.historyEnd.value == 0)
  {
    var a := After(steps).value;
    var k := a.conns[c];
    var t := B.Run(B.INITIAL, before).value;
    WaitingIsFresh(before);
    Reachable(steps);
    StreamBounds(a, c);
    var id := a.reg.sessions[k.session.value].id;
    var n :| Scripted(k.queued, id, k.start, k.historyEnd.value, n);
    hide Scripted;
    hide After;
    hide B.Run;
    hide Tile;
    hide Inv;
    hide S.AllTold;
    assert k.queued[..|k.wire|] == k.wire;
    ReplayTold(t, events, name, k.queued, |k.wire|, id, k.start, k.historyEnd.value, n);
    S.RolledBackRun(t, events);
  }
}
