/** What holds in every state the agent can reach, whatever the order of its steps. */
module DeliveryRuns {
  import opened Protocol
  import opened Tiling
  import opened OutputLog
  import opened HistoryFrames
  import opened RegistrySteps
  import opened Delivery
  import opened DeliveryInvariant

  /** The agent after a run of steps from its start, or None when some step cannot happen. */
  ghost function After(steps: seq<Step>): Option<Agent> {
    if steps == [] then Some(Delivery.INITIAL)
    else
      match After(steps[..|steps| - 1])
      case None => None
      case Some(before) => if Known(before) then Next(before, steps[|steps| - 1]) else None
  }

  /** Every reachable state satisfies the invariant. */
  lemma {:induction false} Reachable(steps: seq<Step>)
    requires After(steps).Some?
    ensures Inv(After(steps).value) && Known(After(steps).value)
  {
    hide Inv;
    hide Next;
    if steps == [] {
      InitialInv();
    } else {
      Reachable(steps[..|steps| - 1]);
      StepKeeps(After(steps[..|steps| - 1]).value, steps[|steps| - 1]);
    }
    Owners(After(steps).value);
  }

  // ---------- Delivery ----------

  /** The bytes a connection's socket was handed, in order. */
  ghost function Delivered(k: Conn): seq<Byte> {
    Joined(PiecesIn(k.wire))
  }

  lemma {:induction false} PrefixShows(pieces: seq<Piece>, n: nat, produced: seq<Byte>)
    requires Shows(pieces, produced) && n <= |pieces|
    ensures Shows(pieces[..n], produced)
  {
  }

  /** A sent prefix of a stream is a slice from its start. */
  lemma StreamSlice(k: Conn, id: string, produced: seq<Byte>) returns (middle: nat)
    requires Stream(k, id, produced)
    ensures k.start <= middle <= k.reach <= |produced|
    ensures Tile(PiecesIn(k.wire), k.start, middle) && Delivered(k) == produced[k.start..middle]
  {
    hide Shape;
    var rest := k.queued[|k.wire|..];
    assert k.queued == k.wire + rest;
    PiecesInJoin(k.wire, rest);
    var n := |PiecesIn(k.wire)|;
    assert PiecesIn(k.queued)[..n] == PiecesIn(k.wire);
    middle := TilePrefix(PiecesIn(k.queued), k.start, k.reach, n);
    PrefixShows(PiecesIn(k.queued), n, produced);
    hide Shows;
    TiledSlice(PiecesIn(k.wire), k.start, middle, produced);
  }

  lemma StreamOf(a: Agent, c: nat)
    requires Inv(a) && c in a.conns && a.conns[c].session.Some?
    ensures var s := a.conns[c].session.value;
            s in a.reg.sessions && s in a.produced && Stream(a.conns[c], a.reg.sessions[s].id, a.produced[s])
  {
    hide Stream;
    assert ConnOk(a.conns[c], a.reg.sessions, a.produced);
  }

  /** In every reachable state, what any connection was handed is one contiguous slice of what its shell produced:
      no gap, no duplicate, no reordering, under every interleaving. */
  lemma DeliveredIsOneSlice(steps: seq<Step>, c: nat) returns (middle: nat)
    requires After(steps).Some? && c in After(steps).value.conns && After(steps).value.conns[c].session.Some?
    ensures var a := After(steps).value;
            var k := a.conns[c];
            && k.session.value in a.produced
            && k.start <= middle <= |a.produced[k.session.value]|
            && Tile(PiecesIn(k.wire), k.start, middle)
            && Delivered(k) == a.produced[k.session.value][k.start..middle]
  {
    hide Stream;
    hide Inv;
    hide After;
    Reachable(steps);
    var a := After(steps).value;
    StreamOf(a, c);
    middle := StreamSlice(a.conns[c], a.reg.sessions[a.conns[c].session.value].id,
                          a.produced[a.conns[c].session.value]);
  }

  /** While a connection is attached and no send is under way or has failed, nothing is missing: it was handed
      everything its shell has produced from the slice's start on. */
  lemma AttachedHasEverything(steps: seq<Step>, s: nat)
    requires After(steps).Some? && s in After(steps).value.reg.sessions
    requires var a := After(steps).value;
             a.reg.sessions[s].owner.Some? && !a.reg.sessions[s].replaying && s in a.copiers && a.copiers[s] == Reading
    ensures var a := After(steps).value;
            var c := a.reg.sessions[s].owner.value;
            && c in a.conns && a.conns[c].session == Some(s) && s in a.produced
            && a.conns[c].start <= |a.produced[s]|
            && Delivered(a.conns[c]) == a.produced[s][a.conns[c].start..]
  {
    hide Stream;
    hide Base;
    hide After;
    Reachable(steps);
    var a := After(steps).value;
    var c := a.reg.sessions[s].owner.value;
    AttachedConn(a, s, c);
    EverythingSent(a.conns[c], a.reg.sessions[s].id, a.produced[s]);
  }

  lemma EverythingSent(k: Conn, id: string, produced: seq<Byte>)
    requires Stream(k, id, produced) && k.wire == k.queued && k.reach == |produced|
    ensures k.start <= |produced| && Delivered(k) == produced[k.start..]
  {
    hide Shape;
    TileOrder(PiecesIn(k.queued), k.start, k.reach);
    TiledSlice(PiecesIn(k.queued), k.start, k.reach, produced);
    assert produced[k.start..k.reach] == produced[k.start..];
  }

  // ---------- Nothing is taken back ----------

  ghost predicate ConnExtends(k: Conn, l: Conn) {
    && k.device == l.device && k.credential == l.credential
    && (k.asked ==> l.asked) && (k.done ==> l.done) && (k.gone ==> l.gone)
    && k.wire <= l.wire && k.queued <= l.queued
    && (k.session.Some? ==> l.session == k.session && l.start == k.start && l.historyEnd == k.historyEnd)
  }

  ghost predicate SessionExtends(m: Session<nat>, n: Session<nat>) {
    && n.id == m.id && n.credential == m.credential && n.device == m.device && m.nextOffset <= n.nextOffset
    && (m.closed ==> n.closed)
  }

  /** b is later than a: connections keep their session and everything they were handed, shells keep what they
      produced, and closed, revoked and shut down stay so. */
  ghost predicate Extends(a: Agent, b: Agent) {
    && (forall c | c in a.conns :: c in b.conns && ConnExtends(a.conns[c], b.conns[c]))
    && (forall s | s in a.reg.sessions :: s in b.reg.sessions && SessionExtends(a.reg.sessions[s], b.reg.sessions[s]))
    && (forall s | s in a.produced :: s in b.produced && a.produced[s] <= b.produced[s])
    && a.reg.revoked <= b.reg.revoked && (a.reg.shuttingDown ==> b.reg.shuttingDown)
  }

  lemma ExtendsTransitive(a: Agent, b: Agent, d: Agent)
    requires Extends(a, b) && Extends(b, d)
    ensures Extends(a, d)
  {
  }

  /** A step that changes one connection and control fields of sessions. */
  lemma ConnStepExtends(a: Agent, b: Agent, c: nat)
    requires c in a.conns ==> c in b.conns && ConnExtends(a.conns[c], b.conns[c])
    requires forall d | d in a.conns && d != c :: d in b.conns && b.conns[d] == a.conns[d]
    requires forall s | s in a.reg.sessions ::
               s in b.reg.sessions && SessionExtends(a.reg.sessions[s], b.reg.sessions[s])
    requires forall s | s in a.produced :: s in b.produced && b.produced[s] == a.produced[s]
    requires b.reg.revoked == a.reg.revoked && b.reg.shuttingDown == a.reg.shuttingDown
    ensures Extends(a, b)
  {
  }

  lemma TurnSessions(r: Reg, s: nat, c: nat, cursor: nat)
    requires s in r.sessions
    ensures var b := CaughtUp(r, s, c, cursor).0;
            && b.revoked == r.revoked && b.shuttingDown == r.shuttingDown
            && forall t | t in r.sessions :: t in b.sessions && SessionExtends(r.sessions[t], b.sessions[t])
  {
    hide RangeOf;
    hide Of;
  }

  lemma ReplayTurnExtends(a: Agent, c: nat)
    requires Known(a) && AfterReplayTurn(a, c).Some?
    ensures Extends(a, AfterReplayTurn(a, c).value)
  {
    hide CaughtUp;
    hide OutputPayloads;
    hide Extends;
    hide SessionExtends;
    TurnSessions(a.reg, a.conns[c].session.value, c, a.conns[c].replay.cursor);
    ConnStepExtends(a, AfterReplayTurn(a, c).value, c);
  }

  lemma ReplayEndExtends(a: Agent, c: nat)
    requires Known(a)
    ensures AfterResizeFailed(a, c).Some? ==> Extends(a, AfterResizeFailed(a, c).value)
    ensures AfterReplayRelease(a, c).Some? ==> Extends(a, AfterReplayRelease(a, c).value)
  {
    hide Extends;
    if AfterResizeFailed(a, c).Some? { ConnStepExtends(a, AfterResizeFailed(a, c).value, c); }
    if AfterReplayRelease(a, c).Some? { ConnStepExtends(a, AfterReplayRelease(a, c).value, c); }
  }

  lemma ReplaySendExtends(a: Agent, c: nat, sent: Sent)
    requires Known(a)
    ensures AfterReplayCheck(a, c).Some? ==> Extends(a, AfterReplayCheck(a, c).value)
    ensures AfterReplaySend(a, c, sent).Some? ==> Extends(a, AfterReplaySend(a, c, sent).value)
  {
    hide Extends;
    if AfterReplayCheck(a, c).Some? { ConnStepExtends(a, AfterReplayCheck(a, c).value, c); }
    if AfterReplaySend(a, c, sent).Some? { ConnStepExtends(a, AfterReplaySend(a, c, sent).value, c); }
  }

  lemma ComingExtends(a: Agent, c: nat, device: string, credential: string)
    requires Known(a)
    ensures AfterConnect(a, c, device, credential).Some? ==> Extends(a, AfterConnect(a, c, device, credential).value)
    ensures AfterMarkDone(a, c).Some? ==> Extends(a, AfterMarkDone(a, c).value)
    ensures AfterDisconnect(a, c).Some? ==> Extends(a, AfterDisconnect(a, c).value)
  {
    hide Extends;
    if AfterConnect(a, c, device, credential).Some? {
      ConnStepExtends(a, AfterConnect(a, c, device, credential).value, c);
    }
    if AfterMarkDone(a, c).Some? { ConnStepExtends(a, AfterMarkDone(a, c).value, c); }
    if AfterDisconnect(a, c).Some? { ConnStepExtends(a, AfterDisconnect(a, c).value, c); }
  }

  lemma OpenExtends(a: Agent, c: nat, p: nat, id: string)
    requires Known(a)
    ensures AfterStartOpen(a, c, p, id).Some? ==> Extends(a, AfterStartOpen(a, c, p, id).value)
    ensures AfterAbortOpen(a, p).Some? ==> Extends(a, AfterAbortOpen(a, p).value)
    ensures AfterDetachBy(a, c, id).Some? ==> Extends(a, AfterDetachBy(a, c, id).value)
  {
    hide Extends;
    if AfterStartOpen(a, c, p, id).Some? { ConnStepExtends(a, AfterStartOpen(a, c, p, id).value, c); }
    if AfterAbortOpen(a, p).Some? { ConnStepExtends(a, AfterAbortOpen(a, p).value, c); }
    if AfterDetachBy(a, c, id).Some? { ConnStepExtends(a, AfterDetachBy(a, c, id).value, c); }
  }

  lemma Unasked(a: Agent, c: nat)
    requires Inv(a) && c in a.conns
    ensures !a.conns[c].asked ==> a.conns[c].session.None?
    ensures a.conns[c].session.None? ==> a.conns[c].queued == [] && a.conns[c].wire == []
  {
    hide Stream;
    assert ConnOk(a.conns[c], a.reg.sessions, a.produced);
  }

  lemma FinishOpenExtends(a: Agent, p: nat, s: nat)
    requires Inv(a) && Known(a) && AfterFinishOpen(a, p, s).Some?
    ensures Extends(a, AfterFinishOpen(a, p, s).value)
  {
    hide Base;
    hide Extends;
    var c := a.reg.pending[p].owner;
    PendingConn(a, p);
    ConnStepExtends(a, AfterFinishOpen(a, p, s).value, c);
  }

  lemma PendingConn(a: Agent, p: nat)
    requires Inv(a) && p in a.reg.pending
    ensures a.reg.pending[p].owner in a.conns && a.conns[a.reg.pending[p].owner].session.None?
  {
    hide ConnOk;
    hide SessionOk;
    hide LogOk;
  }

  lemma BeginReopenExtends(a: Agent, c: nat, id: string)
    requires Inv(a) && Known(a) && AfterBeginReopen(a, c, id).Some?
    ensures Extends(a, AfterBeginReopen(a, c, id).value)
  {
    hide Base;
    hide Extends;
    hide Script;
    hide SnapshotOf;
    Unasked(a, c);
    ConnStepExtends(a, AfterBeginReopen(a, c, id).value, c);
  }

  lemma CopyReadExtends(a: Agent, s: nat, data: seq<Byte>)
    requires Known(a) && AfterCopyRead(a, s, data).Some?
    ensures Extends(a, AfterCopyRead(a, s, data).value)
  {
    hide Appended;
  }

  lemma CopySendExtends(a: Agent, s: nat, sent: Sent)
    requires Known(a)
    ensures AfterCopySend(a, s, sent).Some? ==> Extends(a, AfterCopySend(a, s, sent).value)
    ensures AfterCopyDetach(a, s).Some? ==> Extends(a, AfterCopyDetach(a, s).value)
  {
  }

  lemma FenceExtends(a: Agent, s: nat)
    requires Known(a)
    ensures AfterFence(a, s).Some? ==> Extends(a, AfterFence(a, s).value)
    ensures AfterUnlist(a, s).Some? ==> Extends(a, AfterUnlist(a, s).value)
  {
    hide Without;
  }

  lemma RevokeExtends(a: Agent, credential: string, sessions: seq<nat>)
    requires Known(a) && AfterRevoke(a, credential, sessions).Some?
    ensures Extends(a, AfterRevoke(a, credential, sessions).value)
  {
    hide AllFenced;
    hide SessionExtends;
    BatchExtends(Revoked(a.reg, credential), sessions);
  }

  lemma ShutdownExtends(a: Agent, sessions: seq<nat>)
    requires Known(a) && AfterShutdown(a, sessions).Some?
    ensures Extends(a, AfterShutdown(a, sessions).value)
  {
    hide AllFenced;
    hide SessionExtends;
    BatchExtends(ShuttingDown(a.reg), sessions);
  }

  lemma {:induction false} BatchExtends(r: Reg, sessions: seq<nat>)
    requires forall s | s in sessions :: s in r.sessions
    ensures var f := AllFenced(r, sessions);
            && f.revoked == r.revoked && f.shuttingDown == r.shuttingDown
            && forall s | s in r.sessions :: SessionExtends(r.sessions[s], f.sessions[s])
  {
    if sessions != [] {
      BatchExtends(r, sessions[..|sessions| - 1]);
    }
  }

  lemma StepExtends(a: Agent, step: Step)
    requires Inv(a) && Known(a) && Next(a, step).Some?
    ensures Extends(a, Next(a, step).value)
  {
    hide Inv;
    hide Extends;
    match step
    case Connect(c, device, credential) => ComingExtends(a, c, device, credential);
    case MarkDone(c) => ComingExtends(a, c, "", "");
    case Disconnect(c) => ComingExtends(a, c, "", "");
    case StartOpen(c, p, id) => OpenExtends(a, c, p, id);
    case AbortOpen(p) => OpenExtends(a, 0, p, "");
    case FinishOpen(p, s) => FinishOpenExtends(a, p, s);
    case DetachBy(c, id) => OpenExtends(a, c, 0, id);
    case BeginReopen(c, id) => BeginReopenExtends(a, c, id);
    case ResizeFailed(c) => ReplayEndExtends(a, c);
    case ReplayCheck(c) => ReplaySendExtends(a, c, Sent(false, false, false));
    case ReplaySend(c, sent) => ReplaySendExtends(a, c, sent);
    case ReplayTurn(c) => ReplayTurnExtends(a, c);
    case ReplayRelease(c) => ReplayEndExtends(a, c);
    case CopyRead(s, data) => CopyReadExtends(a, s, data);
    case CopySend(s, sent) => CopySendExtends(a, s, sent);
    case CopyDetach(s) => CopySendExtends(a, s, Sent(false, false, false));
    case Fence(s) => FenceExtends(a, s);
    case Revoke(credential, sessions) => RevokeExtends(a, credential, sessions);
    case Shutdown(sessions) => ShutdownExtends(a, sessions);
    case Unlist(s) => FenceExtends(a, s);
  }

  /** A run only ever extends the states it passes through. */
  lemma {:induction false} RunExtends(steps: seq<Step>, n: nat)
    requires n <= |steps| && After(steps).Some?
    ensures After(steps[..n]).Some? && Extends(After(steps[..n]).value, After(steps).value)
  {
    if n == |steps| {
      assert steps[..n] == steps;
    } else {
      var front := steps[..|steps| - 1];
      assert front[..n] == steps[..n];
      RunExtends(front, n);
      Reachable(front);
      var before := After(front).value;
      StepExtends(before, steps[|steps| - 1]);
      ExtendsTransitive(After(steps[..n]).value, before, After(steps).value);
    }
  }

  // ---------- The output history ----------

  /** In every reachable state an open session retains exactly the newest bytes it produced, in non-empty pieces
      that follow one another, and both limits hold. */
  lemma HistoryIsSuffix(steps: seq<Step>, s: nat)
    requires After(steps).Some? && s in After(steps).value.reg.sessions
    ensures var a := After(steps).value;
            var mine := Of(a.reg.log, s);
            && s in a.produced && a.reg.sessions[s].nextOffset == |a.produced[s]|
            && NonEmpty(mine) && Size(mine) <= MAX_SESSION_HISTORY && Size(a.reg.log) <= MAX_AGENT_HISTORY
            && (a.reg.sessions[s].closed ==> mine == [])
            && (!a.reg.sessions[s].closed ==>
                && Contiguous(mine, |a.produced[s]|) && Size(mine) <= |a.produced[s]|
                && Content(mine) == a.produced[s][|a.produced[s]| - Size(mine)..])
  {
    hide Base;
    hide After;
    Reachable(steps);
    KeptSession(After(steps).value, s);
  }

  // ---------- Ownership and fences ----------

  /** In every reachable state: a session of a revoked credential, and every session once the agent shuts down, is
      closed and ownerless; an open session is detached exactly when it has no owner and replays only when owned;
      nobody owns a session through a connection that is gone; ids are unique and reserved ids free. */
  lemma FencesHold(steps: seq<Step>)
    requires After(steps).Some?
    ensures var r := After(steps).value.reg;
            && (forall id | id in r.active ::
                  && r.active[id] in r.sessions && r.sessions[r.active[id]].id == id
                  && (r.shuttingDown || r.sessions[r.active[id]].credential in r.revoked ==>
                        r.sessions[r.active[id]].closed))
            && (forall s | s in r.sessions ::
                  var m := r.sessions[s];
                  && (m.closed ==> m.owner.None?)
                  && (!m.closed ==> r.Listed(s) && (m.detached <==> m.owner.None?) && (m.replaying ==> m.owner.Some?))
                  && (m.owner.Some? ==>
                      m.owner.value in After(steps).value.conns && !After(steps).value.conns[m.owner.value].gone))
            && (forall p | p in r.pending :: r.pending[p].id !in r.active)
            && (forall p, q | p in r.pending && q in r.pending && p != q :: r.pending[p].id != r.pending[q].id)
  {
    hide ConnOk;
    hide Suffix;
    hide LogOk;
    hide After;
    Reachable(steps);
    var a := After(steps).value;
    forall s | s in a.reg.sessions
      ensures var m := a.reg.sessions[s];
              && (m.closed ==> m.owner.None?)
              && (!m.closed ==> a.reg.Listed(s) && (m.detached <==> m.owner.None?) && (m.replaying ==> m.owner.Some?))
              && (m.owner.Some? ==> m.owner.value in a.conns && !a.conns[m.owner.value].gone)
    {
      assert SessionOk(a, s);
    }
  }

  /** A shell whose creation outlasted a revocation, the shutdown or its connection is closed and not registered,
      any other is registered, and no id ever collides. */
  lemma LateShellRefused(steps: seq<Step>, p: nat, s: nat)
    requires After(steps).Some? && p in After(steps).value.reg.pending
    requires s !in After(steps).value.reg.sessions && s !in After(steps).value.discarded
    ensures var a := After(steps).value;
            var pending := a.reg.pending[p];
            && pending.owner in a.conns
            && var refused := a.reg.shuttingDown || pending.credential in a.reg.revoked || a.conns[pending.owner].done;
               var (r, result) := OpenFinished(a.reg, p, s, a.conns[pending.owner].device, a.conns[pending.owner].done);
               && result == (if refused then Refused else Registered)
               && After(steps + [FinishOpen(p, s)]).Some?
               && var b := After(steps + [FinishOpen(p, s)]).value;
                  && b.discarded == (if refused then a.discarded + {s} else a.discarded)
                  && b.reg.sessions.Keys == (if refused then a.reg.sessions.Keys else a.reg.sessions.Keys + {s})
                  && (refused ==> b.reg.active == a.reg.active && b.reg.sessions == a.reg.sessions)
  {
    hide ConnOk;
    hide SessionOk;
    hide LogOk;
    Reachable(steps);
    var a := After(steps).value;
    NoCollision(a, p, s, a.conns[a.reg.pending[p].owner].device, a.conns[a.reg.pending[p].owner].done);
    assert (steps + [FinishOpen(p, s)])[..|steps|] == steps;
  }

  /** A connection's claim on a session is its only one: whatever happens later, it never gets another session. */
  lemma OneClaim(steps: seq<Step>, n: nat, c: nat)
    requires n <= |steps| && After(steps).Some? && After(steps[..n]).Some? && c in After(steps[..n]).value.conns
    requires After(steps[..n]).value.conns[c].session.Some?
    ensures c in After(steps).value.conns
    ensures After(steps).value.conns[c].session == After(steps[..n]).value.conns[c].session
    ensures Delivered(After(steps[..n]).value.conns[c]) <= Delivered(After(steps).value.conns[c])
  {
    hide After;
    RunExtends(steps, n);
    JoinedGrows(After(steps[..n]).value.conns[c].wire, After(steps).value.conns[c].wire);
  }

  lemma {:induction false} JoinedAppend(left: seq<Piece>, right: seq<Piece>)
    ensures Joined(left + right) == Joined(left) + Joined(right)
  {
    hide PiecesIn;
    if right == [] {
      assert left + right == left;
    } else {
      JoinedAppend(left, right[..|right| - 1]);
      var last := right[|right| - 1].data;
      assert (left + right)[..|left + right| - 1] == left + right[..|right| - 1];
      assert Joined(left) + (Joined(right[..|right| - 1]) + last) == Joined(left) + Joined(right[..|right| - 1]) + last;
    }
  }

  lemma JoinedGrows(early: seq<Payload>, late: seq<Payload>)
    requires early <= late
    ensures Joined(PiecesIn(early)) <= Joined(PiecesIn(late))
  {
    var rest := late[|early|..];
    assert late == early + rest;
    PiecesInJoin(early, rest);
    JoinedAppend(PiecesIn(early), PiecesIn(rest));
  }
}
