/** What every step of the agent keeps. */
module DeliveryInvariant {
  import opened Protocol
  import opened Tiling
  import opened OutputLog
  import opened HistoryFrames
  import opened RegistrySteps
  import opened Delivery

  predicate OutputOf(payload: Payload, id: string) {
    payload.TerminalOutput? && payload.sessionId == id && 0 < |payload.data| <= MAX_TERMINAL_OUTPUT
  }

  predicate ChunkOf(payload: Payload, id: string) {
    payload.HistoryChunk? && payload.sessionId == id && 0 < |payload.data| <= MAX_TERMINAL_OUTPUT
  }

  /** The queue is one replay whose history_end is at n, then output. */
  ghost predicate Scripted(queued: seq<Payload>, id: string, start: nat, end: nat, n: nat) {
    && 2 <= n < |queued|
    && queued[0] == SessionReopened(id)
    && queued[1] == HistoryBegin(id, start, end, start > 0)
    && (forall i | 2 <= i < n :: ChunkOf(queued[i], id))
    && queued[n] == HistoryEnd(id, end)
    && (forall i | n < i < |queued| :: OutputOf(queued[i], id))
    && Tile(PiecesIn(queued[..n]), start, end)
    && end - start <= MAX_SESSION_HISTORY
  }

  ghost predicate Shape(k: Conn, id: string) {
    match k.historyEnd
    case None => forall i | 0 <= i < |k.queued| :: OutputOf(k.queued[i], id)
    case Some(end) => exists n :: Scripted(k.queued, id, k.start, end, n)
  }

  /** What a connection was sent is a prefix of what was meant for it, which is one contiguous slice of what the
      shell produced. */
  ghost predicate Stream(k: Conn, id: string, produced: seq<Byte>) {
    && |k.wire| <= |k.queued| && k.wire == k.queued[..|k.wire|]
    && Tile(PiecesIn(k.queued), k.start, k.reach) && k.reach <= |produced|
    && Shows(PiecesIn(k.queued), produced)
    && Shape(k, id)
  }

  ghost predicate ConnOk(k: Conn, sessions: map<nat, Session<nat>>, produced: map<nat, seq<Byte>>) {
    && (k.gone ==> k.done)
    && (!k.asked ==> k.session.None?)
    && (k.historyEnd.None? ==> k.start == 0)
    && (k.session.None? ==>
        k.queued == [] && k.wire == [] && k.replay == Idle && k.start == k.reach == 0 && k.historyEnd.None?)
    && (k.session.Some? ==>
        && k.session.value in sessions && k.session.value in produced
        && Stream(k, sessions[k.session.value].id, produced[k.session.value]))
    && (k.replay.InReplay? ==> k.wire + k.replay.todo == k.queued && k.replay.cursor == k.reach)
  }

  /** A session's own record, its part of the log and what it produced. */
  ghost predicate Core(m: Session<nat>, listed: bool, mine: seq<Entry<nat>>, produced: seq<Byte>) {
    && m.nextOffset == |produced| <= MAX_SEQUENCE
    && Size(mine) <= MAX_SESSION_HISTORY
    && (m.closed ==> m.owner.None? && mine == [])
    && (!m.closed ==>
          listed && Suffix(mine, produced) && (m.detached <==> m.owner.None?) && (m.replaying ==> m.owner.Some?))
  }

  /** How a session's owner and its copier stand to the connections. */
  ghost predicate Link(s: nat, m: Session<nat>, copier: Copier, conns: map<nat, Conn>) {
    && (m.owner.Some? ==>
        && m.owner.value in conns && !conns[m.owner.value].gone
        && conns[m.owner.value].session == Some(s))
    && (copier.Sending? ==>
        && copier.to in conns
        && var k := conns[copier.to];
           && k.session == Some(s) && k.replay == Idle
           && k.queued == k.wire + [TerminalOutput(m.id, copier.offset, copier.data)])
    && (m.owner.Some? && !m.replaying && !copier.Stopped? && !(copier.SendBroke? && copier.to == m.owner.value) ==>
        var k := conns[m.owner.value];
        && k.replay == Idle && k.reach == m.nextOffset
        && (!(copier.Sending? && copier.to == m.owner.value) ==> k.wire == k.queued))
  }

  ghost predicate SessionOk(a: Agent, s: nat)
    requires s in a.reg.sessions && s in a.produced && s in a.copiers
  {
    && Core(a.reg.sessions[s], a.reg.Listed(s), Of(a.reg.log, s), a.produced[s])
    && Link(s, a.reg.sessions[s], a.copiers[s], a.conns)
  }

  ghost predicate LogOk(r: Reg) {
    && NonEmpty(r.log) && Size(r.log) <= MAX_AGENT_HISTORY
    && forall i | 0 <= i < |r.log| :: r.log[i].session in r.sessions
  }

  /** Revocation and shutdown have caught every active session. */
  ghost predicate TableOk(r: Reg) {
    && WellListed(r)
    && forall id | id in r.active ::
         r.shuttingDown || r.sessions[r.active[id]].credential in r.revoked ==> r.sessions[r.active[id]].closed
  }

  ghost predicate PendingOk(r: Reg, conns: map<nat, Conn>) {
    && (forall p | p in r.pending ::
          && r.pending[p].id !in r.active
          && r.pending[p].owner in conns && conns[r.pending[p].owner].asked && conns[r.pending[p].owner].session.None?)
    && (forall p, q | p in r.pending && q in r.pending && p != q ::
          r.pending[p].owner != r.pending[q].owner && r.pending[p].id != r.pending[q].id)
  }

  /** The invariant without what revocation and shutdown promise. */
  ghost predicate Base(a: Agent) {
    && Known(a)
    && LogOk(a.reg) && WellListed(a.reg) && PendingOk(a.reg, a.conns)
    && (forall s | s in a.reg.sessions :: SessionOk(a, s))
    && (forall c | c in a.conns :: ConnOk(a.conns[c], a.reg.sessions, a.produced))
  }

  ghost predicate Inv(a: Agent) {
    Base(a) && TableOk(a.reg)
  }

  lemma InitialInv()
    ensures Inv(Delivery.INITIAL)
  {
  }

  // ---------- Connections come and go ----------

  lemma ConnectKeeps(a: Agent, c: nat, device: string, credential: string)
    requires Inv(a) && AfterConnect(a, c, device, credential).Some?
    ensures Inv(AfterConnect(a, c, device, credential).value)
  {
    var b := AfterConnect(a, c, device, credential).value;
    forall s | s in b.reg.sessions ensures SessionOk(b, s) {
      assert SessionOk(a, s);
    }
    forall d | d in b.conns ensures ConnOk(b.conns[d], b.reg.sessions, b.produced) {
      assert d != c ==> ConnOk(a.conns[d], a.reg.sessions, a.produced);
    }
  }

  lemma MarkDoneKeeps(a: Agent, c: nat)
    requires Inv(a) && AfterMarkDone(a, c).Some?
    ensures Inv(AfterMarkDone(a, c).value)
  {
    hide Core;
    hide LogOk;
    hide TableOk;
    hide Tile;
    hide Shows;
    hide Scripted;
    var b := AfterMarkDone(a, c).value;
    forall s | s in b.reg.sessions ensures SessionOk(b, s) {
      assert SessionOk(a, s);
    }
    forall d | d in b.conns ensures ConnOk(b.conns[d], b.reg.sessions, b.produced) {
      assert ConnOk(a.conns[d], a.reg.sessions, a.produced);
    }
  }

  // ---------- Ownership is let go ----------

  ghost predicate LosesOwner(m: Session<nat>, n: Session<nat>) {
    n == m || (!m.closed && n == Unowned(m))
  }

  ghost predicate OnlyEnds(k: Conn, l: Conn) {
    && (l.replay == k.replay || (k.replay == Releasing && l.replay == Idle))
    && (l.gone ==> k.done)
    && l == k.(gone := l.gone, replay := l.replay)
  }

  /** Between a and b some open sessions lost their owner, connections ended or finished a release, and copiers went
      back to reading after a failed send; nothing else changed. */
  ghost predicate LetGo(a: Agent, b: Agent)
    requires Known(a)
  {
    && b.produced == a.produced && b.conns.Keys == a.conns.Keys && b.copiers.Keys == a.copiers.Keys
    && b.reg == a.reg.(sessions := b.reg.sessions) && b.reg.sessions.Keys == a.reg.sessions.Keys
    && (forall s | s in a.reg.sessions :: LosesOwner(a.reg.sessions[s], b.reg.sessions[s]))
    && (forall d | d in a.conns :: OnlyEnds(a.conns[d], b.conns[d]))
    && (forall s | s in a.reg.sessions && b.reg.sessions[s].owner.Some? ::
          b.reg.sessions[s].owner.value in a.conns ==> !b.conns[b.reg.sessions[s].owner.value].gone)
    && (forall s | s in a.reg.sessions ::
          || b.copiers[s] == a.copiers[s]
          || (a.copiers[s].SendBroke? && b.copiers[s] == Reading && b.reg.sessions[s].owner != Some(a.copiers[s].to)))
  }

  lemma LetGoLink(a: Agent, b: Agent, s: nat)
    requires Known(a) && LetGo(a, b) && s in a.reg.sessions && Link(s, a.reg.sessions[s], a.copiers[s], a.conns)
    ensures Link(s, b.reg.sessions[s], b.copiers[s], b.conns)
  {
  }

  lemma LetGoKeeps(a: Agent, b: Agent)
    requires Inv(a) && LetGo(a, b)
    ensures Inv(b)
  {
    forall s | s in b.reg.sessions ensures SessionOk(b, s) {
      assert SessionOk(a, s);
      LetGoLink(a, b, s);
      LetGoCore(a, b, s);
    }
    forall d | d in b.conns ensures ConnOk(b.conns[d], b.reg.sessions, b.produced) {
      assert ConnOk(a.conns[d], a.reg.sessions, a.produced);
      LetGoConn(a, b, d);
    }
    hide Link;
    hide Core;
    hide ConnOk;
    hide SessionOk;
    LetGoTable(a, b);
  }

  lemma LetGoCore(a: Agent, b: Agent, s: nat)
    requires Known(a) && LetGo(a, b) && s in a.reg.sessions
    requires Core(a.reg.sessions[s], a.reg.Listed(s), Of(a.reg.log, s), a.produced[s])
    ensures Core(b.reg.sessions[s], b.reg.Listed(s), Of(b.reg.log, s), b.produced[s])
  {
  }

  lemma LetGoConn(a: Agent, b: Agent, d: nat)
    requires Known(a) && LetGo(a, b) && d in a.conns && ConnOk(a.conns[d], a.reg.sessions, a.produced)
    ensures ConnOk(b.conns[d], b.reg.sessions, b.produced)
  {
  }

  lemma LetGoTable(a: Agent, b: Agent)
    requires Known(a) && LetGo(a, b) && LogOk(a.reg) && TableOk(a.reg) && PendingOk(a.reg, a.conns)
    ensures Known(b) && LogOk(b.reg) && TableOk(b.reg) && PendingOk(b.reg, b.conns)
  {
  }

  /** The facts about owners that the ownership steps need. */
  lemma Owners(a: Agent)
    requires Inv(a)
    ensures Known(a)
    ensures forall s | s in a.reg.sessions && a.reg.sessions[s].owner.Some? ::
              && !a.reg.sessions[s].closed && a.reg.Listed(s)
              && a.reg.sessions[s].owner.value in a.conns && !a.conns[a.reg.sessions[s].owner.value].gone
    ensures forall d | d in a.conns && a.conns[d].gone :: a.conns[d].done
  {
    forall s | s in a.reg.sessions && a.reg.sessions[s].owner.Some?
      ensures !a.reg.sessions[s].closed && a.reg.Listed(s)
      ensures a.reg.sessions[s].owner.value in a.conns && !a.conns[a.reg.sessions[s].owner.value].gone
    {
      assert SessionOk(a, s);
    }
    forall d | d in a.conns && a.conns[d].gone ensures a.conns[d].done {
      assert ConnOk(a.conns[d], a.reg.sessions, a.produced);
    }
  }

  lemma AbandonedSessions(r: Reg, c: nat)
    requires forall s | s in r.sessions && r.sessions[s].owner.Some? :: !r.sessions[s].closed && r.Listed(s)
    ensures var b := Abandoned(r, c);
            && b == r.(sessions := b.sessions) && b.sessions.Keys == r.sessions.Keys
            && forall s | s in r.sessions ::
                 b.sessions[s] == if r.sessions[s].owner == Some(c) then Unowned(r.sessions[s]) else r.sessions[s]
  {
  }

  lemma DisconnectKeeps(a: Agent, c: nat)
    requires Inv(a) && AfterDisconnect(a, c).Some?
    ensures Inv(AfterDisconnect(a, c).value)
  {
    hide Inv;
    hide Abandoned;
    Owners(a);
    AbandonedSessions(a.reg, c);
    var b := AfterDisconnect(a, c).value;
    LetGoKeeps(a, b);
  }

  lemma DetachByKeeps(a: Agent, c: nat, id: string)
    requires Inv(a) && AfterDetachBy(a, c, id).Some?
    ensures Inv(AfterDetachBy(a, c, id).value)
  {
    hide Inv;
    Owners(a);
    var b := AfterDetachBy(a, c, id).value;
    LetGoKeeps(a, b);
  }

  lemma ReplayReleaseKeeps(a: Agent, c: nat)
    requires Inv(a) && AfterReplayRelease(a, c).Some?
    ensures Inv(AfterReplayRelease(a, c).value)
  {
    hide Inv;
    Owners(a);
    var b := AfterReplayRelease(a, c).value;
    LetGoKeeps(a, b);
  }

  lemma CopyDetachKeeps(a: Agent, s: nat)
    requires Inv(a) && AfterCopyDetach(a, s).Some?
    ensures Inv(AfterCopyDetach(a, s).value)
  {
    hide Inv;
    Owners(a);
    var b := AfterCopyDetach(a, s).value;
    assert b.conns == a.conns && b.produced == a.produced;
    LetGoKeeps(a, b);
  }

  // ---------- Sessions are closed ----------

  lemma FenceSession(a: Agent, s: nat, t: nat)
    requires Known(a) && s in a.reg.sessions && t in a.reg.sessions && SessionOk(a, t)
    ensures SessionOk(a.(reg := Fenced(a.reg, s)), t)
  {
    WithoutKeeps(a.reg.log, s, t);
  }

  lemma FenceLog(r: Reg, s: nat)
    requires LogOk(r) && s in r.sessions
    ensures LogOk(Fenced(r, s))
  {
    WithoutKeeps(r.log, s, s);
    WithoutSessions(r.log, s);
    forall i | 0 <= i < |Without(r.log, s)| ensures Without(r.log, s)[i].session in r.sessions {
      assert Without(r.log, s)[i] in r.log;
    }
  }

  lemma FenceConn(a: Agent, s: nat, d: nat)
    requires Known(a) && s in a.reg.sessions && d in a.conns && ConnOk(a.conns[d], a.reg.sessions, a.produced)
    ensures ConnOk(a.conns[d], Fenced(a.reg, s).sessions, a.produced)
  {
  }

  lemma FenceBase(a: Agent, s: nat)
    requires Base(a) && s in a.reg.sessions
    ensures Base(a.(reg := Fenced(a.reg, s)))
  {
    hide SessionOk;
    hide ConnOk;
    hide LogOk;
    hide Without;
    FenceLog(a.reg, s);
    forall t | t in a.reg.sessions ensures SessionOk(a.(reg := Fenced(a.reg, s)), t) {
      FenceSession(a, s, t);
    }
    forall d | d in a.conns ensures ConnOk(a.conns[d], Fenced(a.reg, s).sessions, a.produced) {
      FenceConn(a, s, d);
    }
  }

  lemma {:induction false} WithoutSessions(log: seq<Entry<nat>>, s: nat)
    ensures forall i | 0 <= i < |Without(log, s)| :: Without(log, s)[i] in log
  {
    if log != [] {
      WithoutSessions(log[1..], s);
    }
  }

  /** What a batch of fences does, whatever is in the batch. */
  lemma {:induction false} AllFencedBase(a: Agent, sessions: seq<nat>)
    requires Base(a) && forall s | s in sessions :: s in a.reg.sessions
    ensures var r := AllFenced(a.reg, sessions);
            && Base(a.(reg := r))
            && r.active == a.reg.active && r.revoked == a.reg.revoked && r.shuttingDown == a.reg.shuttingDown
            && r.pending == a.reg.pending
            && (forall s | s in a.reg.sessions ::
                  && (a.reg.sessions[s].closed ==> r.sessions[s] == a.reg.sessions[s])
                  && (s in sessions ==> r.sessions[s].closed)
                  && (s !in sessions ==> r.sessions[s] == a.reg.sessions[s])
                  && r.sessions[s].credential == a.reg.sessions[s].credential
                     && r.sessions[s].id == a.reg.sessions[s].id)
  {
    hide Base;
    BaseKnown(a);
    if sessions == [] {
      assert a.(reg := a.reg) == a;
    } else {
      var front := sessions[..|sessions| - 1];
      AllFencedBase(a, front);
      FenceBase(a.(reg := AllFenced(a.reg, front)), sessions[|sessions| - 1]);
    }
  }

  lemma FenceKeeps(a: Agent, s: nat)
    requires Inv(a) && AfterFence(a, s).Some?
    ensures Inv(AfterFence(a, s).value)
  {
    hide Base;
    FenceBase(a, s);
    BaseKnown(a);
  }

  lemma BaseKnown(a: Agent)
    requires Base(a)
    ensures Known(a) && WellListed(a.reg)
  {
  }

  lemma RevokeKeeps(a: Agent, credential: string, sessions: seq<nat>)
    requires Inv(a) && AfterRevoke(a, credential, sessions).Some?
    ensures Inv(AfterRevoke(a, credential, sessions).value)
  {
    hide Base;
    BaseKnown(a);
    var marked := a.(reg := Revoked(a.reg, credential));
    assert Base(marked) by { BaseIgnoresFlags(a, credential); }
    AllFencedBase(marked, sessions);
  }

  lemma BaseIgnoresFlags(a: Agent, credential: string)
    requires Base(a)
    ensures Base(a.(reg := Revoked(a.reg, credential))) && Base(a.(reg := ShuttingDown(a.reg)))
  {
    var marked := a.(reg := Revoked(a.reg, credential));
    var down := a.(reg := ShuttingDown(a.reg));
    forall s | s in a.reg.sessions ensures SessionOk(marked, s) && SessionOk(down, s) {
      assert SessionOk(a, s);
    }
  }

  lemma ShutdownKeeps(a: Agent, sessions: seq<nat>)
    requires Inv(a) && AfterShutdown(a, sessions).Some?
    ensures Inv(AfterShutdown(a, sessions).value)
  {
    hide Base;
    BaseKnown(a);
    var down := a.(reg := ShuttingDown(a.reg));
    assert Base(down) by { BaseIgnoresFlags(a, ""); }
    AllFencedBase(down, sessions);
  }

  lemma UnlistKeeps(a: Agent, s: nat)
    requires Inv(a) && AfterUnlist(a, s).Some?
    ensures Inv(AfterUnlist(a, s).value)
  {
    hide ConnOk;
    hide Link;
    hide Suffix;
    var b := AfterUnlist(a, s).value;
    forall t | t in b.reg.sessions ensures SessionOk(b, t) {
      assert SessionOk(a, t);
    }
  }

  // ---------- One connection's record changes ----------

  /** Only connection c changed, in ways its sessions' links do not look at. */
  lemma ConnChange(a: Agent, c: nat, k: Conn)
    requires Base(a) && c in a.conns && ConnOk(k, a.reg.sessions, a.produced)
    requires k.session == a.conns[c].session && k.asked == a.conns[c].asked && k.gone == a.conns[c].gone
    requires forall s | s in a.reg.sessions ::
               Link(s, a.reg.sessions[s], a.copiers[s], a.conns) ==>
                     Link(s, a.reg.sessions[s], a.copiers[s], a.conns[c := k])
    ensures Base(a.WithConn(c, k))
  {
    hide Core;
    hide Link;
    hide Stream;
    var b := a.WithConn(c, k);
    forall s | s in b.reg.sessions ensures SessionOk(b, s) {
      assert SessionOk(a, s);
    }
    forall d | d in b.conns ensures ConnOk(b.conns[d], b.reg.sessions, b.produced) {
      assert ConnOk(a.conns[d], a.reg.sessions, a.produced);
    }
  }

  /** While a replay runs, nothing links to its connection except ownership. */
  lemma ReplayLinks(s: nat, m: Session<nat>, copier: Copier, conns: map<nat, Conn>, c: nat, k: Conn)
    requires c in conns && conns[c].replay != Idle && k.session == conns[c].session && k.gone == conns[c].gone
    requires Link(s, m, copier, conns)
    ensures Link(s, m, copier, conns[c := k])
  {
  }

  lemma ReplayChange(a: Agent, c: nat, k: Conn)
    requires Base(a) && c in a.conns && a.conns[c].replay != Idle && ConnOk(k, a.reg.sessions, a.produced)
    requires k.session == a.conns[c].session && k.asked == a.conns[c].asked && k.gone == a.conns[c].gone
    ensures Base(a.WithConn(c, k))
  {
    forall s | s in a.reg.sessions && Link(s, a.reg.sessions[s], a.copiers[s], a.conns)
      ensures Link(s, a.reg.sessions[s], a.copiers[s], a.conns[c := k])
    {
      ReplayLinks(s, a.reg.sessions[s], a.copiers[s], a.conns, c, k);
    }
    hide Base;
    ConnChange(a, c, k);
  }

  lemma ConnOf(a: Agent, c: nat)
    requires Base(a) && c in a.conns
    ensures Known(a) && ConnOk(a.conns[c], a.reg.sessions, a.produced)
  {
    hide ConnOk;
  }

  lemma ResizeFailedKeeps(a: Agent, c: nat)
    requires Inv(a) && AfterResizeFailed(a, c).Some?
    ensures Inv(AfterResizeFailed(a, c).value)
  {
    hide Base;
    hide ConnOk;
    ConnOf(a, c);
    EndedConn(a.conns[c], a.reg.sessions, a.produced);
    ReplayChange(a, c, a.conns[c].(replay := Idle));
  }

  lemma ReplayCheckKeeps(a: Agent, c: nat)
    requires Inv(a) && AfterReplayCheck(a, c).Some?
    ensures Inv(AfterReplayCheck(a, c).value)
  {
    hide Base;
    hide ConnOk;
    ConnOf(a, c);
    EndedConn(a.conns[c], a.reg.sessions, a.produced);
    ReplayChange(a, c, AfterReplayCheck(a, c).value.conns[c]);
  }

  lemma ReplaySendConn(k: Conn, sent: Sent, sessions: map<nat, Session<nat>>, produced: map<nat, seq<Byte>>)
    requires ConnOk(k, sessions, produced) && k.replay.InReplay? && k.replay.todo != []
    ensures var todo := k.replay.todo;
            var wire := if sent.delivered then k.wire + [todo[0]] else k.wire;
            && ConnOk(k.(wire := wire, replay := Releasing), sessions, produced)
            && (sent.delivered ==>
                  ConnOk(k.(wire := wire, replay := InReplay(todo[1..], false, k.replay.cursor)), sessions, produced))
  {
    hide Shows;
    hide Tile;
    hide PiecesIn;
    hide Scripted;
    var todo := k.replay.todo;
    assert k.wire + todo == k.wire + [todo[0]] + todo[1..];
    assert k.queued[..|k.wire| + 1] == k.wire + [todo[0]];
  }

  lemma ReplaySendKeeps(a: Agent, c: nat, sent: Sent)
    requires Inv(a) && AfterReplaySend(a, c, sent).Some?
    ensures Inv(AfterReplaySend(a, c, sent).value)
  {
    hide ConnOk;
    assert ConnOk(a.conns[c], a.reg.sessions, a.produced);
    ReplaySendConn(a.conns[c], sent, a.reg.sessions, a.produced);
    hide Base;
    ReplayChange(a, c, AfterReplaySend(a, c, sent).value.conns[c]);
  }

  // ---------- Opening ----------

  lemma StartOpenKeeps(a: Agent, c: nat, p: nat, id: string)
    requires Inv(a) && AfterStartOpen(a, c, p, id).Some?
    ensures Inv(AfterStartOpen(a, c, p, id).value)
  {
    var b := AfterStartOpen(a, c, p, id).value;
    assert ConnOk(a.conns[c], a.reg.sessions, a.produced);
    forall s | s in b.reg.sessions ensures SessionOk(b, s) {
      assert SessionOk(a, s);
    }
    forall d | d in b.conns ensures ConnOk(b.conns[d], b.reg.sessions, b.produced) {
      assert ConnOk(a.conns[d], a.reg.sessions, a.produced);
    }
  }

  lemma AbortOpenKeeps(a: Agent, p: nat)
    requires Inv(a) && AfterAbortOpen(a, p).Some?
    ensures Inv(AfterAbortOpen(a, p).value)
  {
    var b := AfterAbortOpen(a, p).value;
    forall s | s in b.reg.sessions ensures SessionOk(b, s) {
      assert SessionOk(a, s);
    }
  }

  // ---------- A session is registered ----------

  lemma {:induction false} NoEntries(log: seq<Entry<nat>>, s: nat)
    requires forall i | 0 <= i < |log| :: log[i].session != s
    ensures Of(log, s) == []
  {
    if log != [] {
      assert forall i | 0 <= i < |log[1..]| :: log[1..][i] == log[i + 1];
      NoEntries(log[1..], s);
    }
  }

  /** Connection c, which had no session, now owns the new session s. */
  ghost predicate Gains(a: Agent, b: Agent, c: nat, s: nat, p: nat)
    requires Known(a)
  {
    && c in a.conns && a.conns[c].session.None? && a.conns[c].asked && !a.conns[c].gone
    && s !in a.reg.sessions && p in a.reg.pending && a.reg.pending[p].owner == c
    && b.conns == a.conns[c := a.conns[c].(session := Some(s))]
    && b.produced == a.produced[s := []] && b.copiers == a.copiers[s := Reading]
    && var pending := a.reg.pending[p];
       && pending.id !in a.reg.active && Admissible(a.reg, pending.credential, false)
       && b.reg == a.reg.(pending := a.reg.pending - {p}, active := a.reg.active[pending.id := s],
                          sessions := b.reg.sessions)
       && s in b.reg.sessions && b.reg.sessions == a.reg.sessions[s := b.reg.sessions[s]]
       && exists device ::
            b.reg.sessions[s] == Session(pending.id, pending.credential, device, Some(c), false, false, false, 0)
  }

  lemma GainsLink(a: Agent, b: Agent, c: nat, s: nat, p: nat, t: nat)
    requires Known(a) && Gains(a, b, c, s, p) && t in a.reg.sessions
    requires Link(t, a.reg.sessions[t], a.copiers[t], a.conns)
    ensures Link(t, b.reg.sessions[t], b.copiers[t], b.conns)
  {
  }

  lemma GainsSession(a: Agent, b: Agent, c: nat, s: nat, p: nat, t: nat)
    requires Known(a) && Gains(a, b, c, s, p) && t in b.reg.sessions && Known(b)
    requires t != s ==> SessionOk(a, t)
    requires Of(a.reg.log, s) == [] && ConnOk(a.conns[c], a.reg.sessions, a.produced)
    ensures SessionOk(b, t)
  {
    if t == s {
      assert a.conns[c].replay == Idle && a.conns[c].queued == [];
    } else {
      GainsLink(a, b, c, s, p, t);
    }
  }

  lemma GainsConn(a: Agent, b: Agent, c: nat, s: nat, p: nat, d: nat)
    requires Known(a) && Gains(a, b, c, s, p) && d in b.conns && ConnOk(a.conns[d], a.reg.sessions, a.produced)
    ensures ConnOk(b.conns[d], b.reg.sessions, b.produced)
  {
  }

  lemma GainsTable(a: Agent, b: Agent, c: nat, s: nat, p: nat)
    requires Known(a) && Gains(a, b, c, s, p) && LogOk(a.reg) && TableOk(a.reg) && PendingOk(a.reg, a.conns)
    ensures Known(b) && LogOk(b.reg) && TableOk(b.reg)
  {
  }

  lemma GainsPending(a: Agent, b: Agent, c: nat, s: nat, p: nat)
    requires Known(a) && Gains(a, b, c, s, p) && PendingOk(a.reg, a.conns)
    ensures PendingOk(b.reg, b.conns)
  {
  }

  lemma GainsKeeps(a: Agent, b: Agent, c: nat, s: nat, p: nat)
    requires Inv(a) && Gains(a, b, c, s, p)
    ensures Inv(b)
  {
    hide ConnOk;
    hide SessionOk;
    hide TableOk;
    GainsTable(a, b, c, s, p);
    GainsPending(a, b, c, s, p);
    NoEntries(a.reg.log, s);
    forall t | t in b.reg.sessions ensures SessionOk(b, t) {
      GainsSession(a, b, c, s, p, t);
    }
    forall d | d in b.conns ensures ConnOk(b.conns[d], b.reg.sessions, b.produced) {
      GainsConn(a, b, c, s, p, d);
    }
    WellListedBase(b);
  }

  lemma WellListedBase(b: Agent)
    requires TableOk(b.reg)
    ensures WellListed(b.reg)
  {
  }

  /** Reserved ids stay free, so the collision branch of open cannot be taken. */
  lemma NoCollision(a: Agent, p: nat, s: nat, device: string, done: bool)
    requires Inv(a) && p in a.reg.pending
    ensures OpenFinished(a.reg, p, s, device, done).1 != Collision
  {
  }

  lemma FinishOpenKeeps(a: Agent, p: nat, s: nat)
    requires Inv(a) && AfterFinishOpen(a, p, s).Some?
    ensures Inv(AfterFinishOpen(a, p, s).value)
  {
    var b := AfterFinishOpen(a, p, s).value;
    var c := a.reg.pending[p].owner;
    NoCollision(a, p, s, a.conns[c].device, a.conns[c].done);
    if s !in b.reg.sessions {
      AbortOpenKeeps(a, p);
    } else {
      assert ConnOk(a.conns[c], a.reg.sessions, a.produced);
      hide ConnOk;
      GainsKeeps(a, b, c, s, p);
    }
  }

  // ---------- A detached session is claimed ----------

  lemma {:induction false} ChunksListed(id: string, pieces: seq<Piece>)
    ensures |ChunkPayloads(id, pieces)| == |pieces|
    ensures forall i | 0 <= i < |pieces| ::
              ChunkPayloads(id, pieces)[i] == HistoryChunk(id, pieces[i].offset, pieces[i].data)
  {
    if pieces != [] {
      ChunksListed(id, pieces[..|pieces| - 1]);
    }
  }

  lemma {:induction false} ChunkPieces(id: string, pieces: seq<Piece>)
    ensures PiecesIn(ChunkPayloads(id, pieces)) == pieces
  {
    if pieces != [] {
      ChunkPieces(id, pieces[..|pieces| - 1]);
      var front := ChunkPayloads(id, pieces[..|pieces| - 1]);
      assert ChunkPayloads(id, pieces)[..|front|] == front;
    }
  }

  lemma {:induction false} OutputsListed(id: string, pieces: seq<Piece>)
    ensures |OutputPayloads(id, pieces)| == |pieces|
    ensures forall i | 0 <= i < |pieces| ::
              OutputPayloads(id, pieces)[i] == TerminalOutput(id, pieces[i].offset, pieces[i].data)
  {
    if pieces != [] {
      OutputsListed(id, pieces[..|pieces| - 1]);
    }
  }

  lemma {:induction false} OutputPieces(id: string, pieces: seq<Piece>)
    ensures PiecesIn(OutputPayloads(id, pieces)) == pieces
  {
    if pieces != [] {
      OutputPieces(id, pieces[..|pieces| - 1]);
      var front := OutputPayloads(id, pieces[..|pieces| - 1]);
      assert OutputPayloads(id, pieces)[..|front|] == front;
    }
  }

  /** The script of a snapshot carries exactly its frames, before its history_end. */
  lemma ScriptPieces(snapshot: Snapshot<nat>)
    ensures var n := |snapshot.frames| + 2;
            && |Script(snapshot)| == n + 1
            && PiecesIn(Script(snapshot)[..n]) == snapshot.frames && PiecesIn(Script(snapshot)) == snapshot.frames
  {
    hide PiecesIn;
    ChunksListed(snapshot.id, snapshot.frames);
    ChunkPieces(snapshot.id, snapshot.frames);
    var opening := SessionReopened(snapshot.id);
    var begin := HistoryBegin(snapshot.id, snapshot.start, snapshot.end, snapshot.truncated);
    var end := HistoryEnd(snapshot.id, snapshot.end);
    var chunks := ChunkPayloads(snapshot.id, snapshot.frames);
    Silent(opening);
    Silent(begin);
    Silent(end);
    assert [opening, begin] == [opening] + [begin];
    PiecesInJoin([opening], [begin]);
    PiecesInJoin([opening, begin], chunks);
    PiecesInJoin([opening, begin] + chunks, [end]);
    assert Script(snapshot)[..|snapshot.frames| + 2] == [opening, begin] + chunks;
    assert [] + snapshot.frames == snapshot.frames && snapshot.frames + [] == snapshot.frames;
  }

  lemma Silent(payload: Payload)
    requires PieceOf(payload) == []
    ensures PiecesIn([payload]) == []
  {
    assert [payload][..0] == [];
  }

  /** A fresh script has the shape of a replay. */
  lemma ScriptShape(snapshot: Snapshot<nat>)
    requires forall i | 0 <= i < |snapshot.frames| :: 0 < |snapshot.frames[i].data| <= MAX_TERMINAL_OUTPUT
    requires Tile(snapshot.frames, snapshot.start, snapshot.end) && snapshot.end - snapshot.start <= MAX_SESSION_HISTORY
    requires snapshot.truncated == (snapshot.start > 0)
    ensures Scripted(Script(snapshot), snapshot.id, snapshot.start, snapshot.end, |snapshot.frames| + 2)
  {
    hide Tile;
    hide PiecesIn;
    ScriptPieces(snapshot);
    ChunksListed(snapshot.id, snapshot.frames);
    var n := |snapshot.frames| + 2;
    forall i | 2 <= i < n ensures ChunkOf(Script(snapshot)[i], snapshot.id) {
      assert Script(snapshot)[i] == ChunkPayloads(snapshot.id, snapshot.frames)[i - 2];
    }
  }

  /** The snapshot of an open session tiles what is retained and shows what was produced. */
  lemma SnapshotFrames(r: Reg, s: nat, produced: seq<Byte>)
    requires s in r.sessions && Suffix(Of(r.log, s), produced) && NonEmpty(Of(r.log, s))
    requires Size(Of(r.log, s)) <= MAX_SESSION_HISTORY && r.sessions[s].nextOffset == |produced|
    ensures var snapshot := SnapshotOf(r, s);
            && Tile(snapshot.frames, snapshot.start, snapshot.end) && Shows(snapshot.frames, produced)
            && snapshot.start <= snapshot.end == |produced| && snapshot.end - snapshot.start <= MAX_SESSION_HISTORY
            && forall i | 0 <= i < |snapshot.frames| :: 0 < |snapshot.frames[i].data| <= MAX_TERMINAL_OUTPUT
  {
    SuffixFrames(Of(r.log, s), produced);
  }

  lemma SuffixFrames(mine: seq<Entry<nat>>, produced: seq<Byte>)
    requires Suffix(mine, produced) && NonEmpty(mine) && Size(mine) <= MAX_SESSION_HISTORY
    ensures Tile(FramesOf(mine), StartOf(mine, |produced|), |produced|) && Shows(FramesOf(mine), produced)
    ensures StartOf(mine, |produced|) <= |produced| && |produced| - StartOf(mine, |produced|) <= MAX_SESSION_HISTORY
    ensures forall i | 0 <= i < |FramesOf(mine)| :: 0 < |FramesOf(mine)[i].data| <= MAX_TERMINAL_OUTPUT
  {
    hide Tile;
    hide FramesOf;
    hide Content;
    hide Size;
    FramesTile(mine, |produced|);
    EntriesShow(mine, produced);
  }

  /** The snapshot of an open session is a stream of its own. */
  lemma SnapshotStream(r: Reg, s: nat, produced: seq<Byte>, k: Conn)
    requires s in r.sessions && Suffix(Of(r.log, s), produced) && NonEmpty(Of(r.log, s))
    requires Size(Of(r.log, s)) <= MAX_SESSION_HISTORY && r.sessions[s].nextOffset == |produced|
    requires var snapshot := SnapshotOf(r, s);
             && k.start == snapshot.start && k.reach == snapshot.end && k.historyEnd == Some(snapshot.end)
             && k.queued == Script(snapshot) && k.wire == []
    ensures Stream(k, r.sessions[s].id, produced)
  {
    hide Tile;
    hide PiecesIn;
    hide Script;
    hide Scripted;
    hide Suffix;
    hide Shows;
    SnapshotFrames(r, s, produced);
    ScriptShape(SnapshotOf(r, s));
    ScriptPieces(SnapshotOf(r, s));
  }

  /** Connection c, which had no session, now owns session s and replays it. */
  lemma BeginReopenKeeps(a: Agent, c: nat, id: string)
    requires Inv(a) && AfterBeginReopen(a, c, id).Some?
    ensures Inv(AfterBeginReopen(a, c, id).value)
  {
    hide Base;
    hide Stream;
    hide Script;
    hide Suffix;
    BaseKnown(a);
    var b := AfterBeginReopen(a, c, id).value;
    var s := a.reg.active[id];
    KeptSession(a, s);
    ConnOf(a, c);
    SnapshotStream(a.reg, s, a.produced[s], b.conns[c]);
    ReopenedAll(a, b, c, s);
  }

  /** The shape of the state after a claim. */
  ghost predicate Claimed(a: Agent, b: Agent, c: nat, s: nat)
    requires Known(a)
  {
    && c in a.conns && !a.conns[c].asked && !a.conns[c].done && s in a.reg.sessions && c in b.conns
    && !a.reg.sessions[s].closed && a.reg.sessions[s].owner.None?
    && b.produced == a.produced && b.copiers == a.copiers
    && b.reg == Reopened(a.reg, s, c)
    && b.conns == a.conns[c := b.conns[c]]
    && b.conns[c].asked && b.conns[c].session == Some(s) && b.conns[c].gone == a.conns[c].gone
    && b.conns[c].historyEnd.Some?
    && b.conns[c].replay == InReplay(b.conns[c].queued, false, b.conns[c].reach) && b.conns[c].wire == []
    && Stream(b.conns[c], a.reg.sessions[s].id, a.produced[s])
  }

  lemma ClaimedSession(a: Agent, b: Agent, c: nat, s: nat, t: nat)
    requires Known(a) && Claimed(a, b, c, s) && t in a.reg.sessions && SessionOk(a, t)
    requires ConnOk(a.conns[c], a.reg.sessions, a.produced)
    ensures Known(b) && SessionOk(b, t)
  {
    hide Stream;
    hide Suffix;
  }

  lemma ClaimedConn(a: Agent, b: Agent, c: nat, s: nat, d: nat)
    requires Known(a) && Claimed(a, b, c, s) && d in a.conns && ConnOk(a.conns[d], a.reg.sessions, a.produced)
    ensures ConnOk(b.conns[d], b.reg.sessions, b.produced)
  {
    hide Stream;
    assert [] + b.conns[c].queued == b.conns[c].queued;
    assert forall t | t in a.reg.sessions :: b.reg.sessions[t].id == a.reg.sessions[t].id;
  }

  lemma ClaimedTable(a: Agent, b: Agent, c: nat, s: nat)
    requires Known(a) && Claimed(a, b, c, s) && LogOk(a.reg) && TableOk(a.reg)
    ensures Known(b) && LogOk(b.reg) && TableOk(b.reg)
  {
    hide Stream;
  }

  lemma ClaimedPending(a: Agent, b: Agent, c: nat, s: nat)
    requires Known(a) && Claimed(a, b, c, s) && PendingOk(a.reg, a.conns)
    ensures PendingOk(b.reg, b.conns)
  {
    hide Stream;
  }

  lemma ReopenedAll(a: Agent, b: Agent, c: nat, s: nat)
    requires Inv(a) && Claimed(a, b, c, s)
    ensures Inv(b)
  {
    hide ConnOk;
    hide SessionOk;
    hide TableOk;
    hide LogOk;
    hide PendingOk;
    hide Stream;
    ClaimedTable(a, b, c, s);
    ClaimedPending(a, b, c, s);
    forall t | t in b.reg.sessions ensures SessionOk(b, t) {
      ClaimedSession(a, b, c, s, t);
    }
    forall d | d in b.conns ensures ConnOk(b.conns[d], b.reg.sessions, b.produced) {
      ClaimedConn(a, b, c, s, d);
    }
    WellListedBase(b);
  }

  // ---------- The replay catches up ----------

  lemma ScriptedGrows(queued: seq<Payload>, more: seq<Payload>, id: string, start: nat, end: nat, n: nat)
    requires Scripted(queued, id, start, end, n) && forall i | 0 <= i < |more| :: OutputOf(more[i], id)
    ensures Scripted(queued + more, id, start, end, n)
  {
    hide Tile;
    hide PiecesIn;
    assert (queued + more)[..n] == queued[..n];
  }

  lemma ShapeGrows(k: Conn, more: seq<Payload>, end: nat, id: string)
    requires Shape(k, id) && forall i | 0 <= i < |more| :: OutputOf(more[i], id)
    ensures Shape(k.(queued := k.queued + more, reach := end), id)
  {
    hide Scripted;
    if k.historyEnd.Some? {
      var n :| Scripted(k.queued, id, k.start, k.historyEnd.value, n);
      ScriptedGrows(k.queued, more, id, k.start, k.historyEnd.value, n);
    }
  }

  lemma ShowsJoin(left: seq<Piece>, right: seq<Piece>, produced: seq<Byte>)
    requires Shows(left, produced) && Shows(right, produced)
    ensures Shows(left + right, produced)
  {
  }

  /** More output at the end of the queue keeps the stream. */
  lemma StreamGrows(k: Conn, more: seq<Payload>, end: nat, id: string, produced: seq<Byte>)
    requires Stream(k, id, produced) && end <= |produced|
    requires forall i | 0 <= i < |more| :: OutputOf(more[i], id)
    requires Tile(PiecesIn(more), k.reach, end) && Shows(PiecesIn(more), produced)
    ensures Stream(k.(queued := k.queued + more, reach := end), id, produced)
  {
    hide Shape;
    hide Shows;
    hide Tile;
    hide PiecesIn;
    hide OutputOf;
    PiecesInJoin(k.queued, more);
    TileJoin(PiecesIn(k.queued), PiecesIn(more), k.start, k.reach, end);
    ShowsJoin(PiecesIn(k.queued), PiecesIn(more), produced);
    ShapeGrows(k, more, end, id);
    assert k.wire == (k.queued + more)[..|k.wire|];
  }

  /** The frames a catch-up turn finds continue the stream. */
  lemma FoundFrames(mine: seq<Entry<nat>>, produced: seq<Byte>, cursor: nat)
    requires Suffix(mine, produced) && NonEmpty(mine) && RangeOf(mine, cursor, |produced|).Some?
    ensures var frames := RangeOf(mine, cursor, |produced|).value;
            && Tile(frames, cursor, |produced|) && Shows(frames, produced)
            && forall i | 0 <= i < |frames| :: 0 < |frames[i].data| <= MAX_TERMINAL_OUTPUT
  {
    hide Tile;
    hide Content;
    hide Size;
    hide RangeOf;
    RangeTiles(mine, cursor, |produced|);
    EntriesShow(mine, produced);
    RangeShows(mine, cursor, |produced|, produced, MAX_TERMINAL_OUTPUT);
  }

  lemma MoreStream(k: Conn, mine: seq<Entry<nat>>, id: string, produced: seq<Byte>, frames: seq<Piece>)
    requires Stream(k, id, produced) && Suffix(mine, produced) && NonEmpty(mine)
    requires RangeOf(mine, k.reach, |produced|) == Some(frames)
    ensures Stream(k.(queued := k.queued + OutputPayloads(id, frames), reach := |produced|), id, produced)
  {
    hide Stream;
    hide Suffix;
    hide Tile;
    hide RangeOf;
    hide Shows;
    hide PiecesIn;
    FoundFrames(mine, produced, k.reach);
    OutputsListed(id, frames);
    OutputPieces(id, frames);
    StreamGrows(k, OutputPayloads(id, frames), |produced|, id, produced);
  }

  lemma StreamIgnoresReplay(k: Conn, replay: Replay, id: string, produced: seq<Byte>)
    ensures Stream(k.(replay := replay), id, produced) <==> Stream(k, id, produced)
  {
    hide Tile;
    hide Shows;
    hide Scripted;
    hide PiecesIn;
  }

  lemma MoreConn(k: Conn, s: nat, m: Session<nat>, mine: seq<Entry<nat>>, frames: seq<Piece>,
                 sessions: map<nat, Session<nat>>, produced: map<nat, seq<Byte>>)
    requires ConnOk(k, sessions, produced) && k.session == Some(s) && k.replay.InReplay? && k.replay.todo == []
    requires s in sessions && s in produced && sessions[s] == m
    requires Core(m, true, mine, produced[s]) && !m.closed && NonEmpty(mine)
    requires RangeOf(mine, k.replay.cursor, m.nextOffset) == Some(frames)
    ensures var outputs := OutputPayloads(m.id, frames);
            ConnOk(k.(queued := k.queued + outputs, reach := m.nextOffset,
                      replay := InReplay(outputs, false, m.nextOffset)), sessions, produced)
  {
    hide Stream;
    hide Suffix;
    hide RangeOf;
    hide OutputPayloads;
    assert k.wire + [] == k.wire;
    MoreStream(k, mine, m.id, produced[s], frames);
    var outputs := OutputPayloads(m.id, frames);
    StreamIgnoresReplay(k.(queued := k.queued + outputs, reach := m.nextOffset), InReplay(outputs, false, m.nextOffset),
                        m.id, produced[s]);
  }

  /** The replay is over and output goes live: the connection has been sent everything there is. */
  lemma DoneLink(a: Agent, c: nat, s: nat, t: nat)
    requires Base(a) && c in a.conns && a.conns[c].session == Some(s) && s in a.reg.sessions && t in a.reg.sessions
    requires a.conns[c].replay.InReplay? && a.conns[c].replay.todo == []
    requires a.conns[c].replay.cursor == a.reg.sessions[s].nextOffset
    requires a.reg.sessions[s].owner == Some(c) && a.reg.sessions[s].replaying
    ensures var m := if t == s then a.reg.sessions[s].(replaying := false) else a.reg.sessions[t];
            Link(t, m, a.copiers[t], a.conns[c := a.conns[c].(replay := Idle)])
  {
    hide Stream;
    hide Core;
    hide LogOk;
    hide PendingOk;
    assert SessionOk(a, t);
    assert ConnOk(a.conns[c], a.reg.sessions, a.produced);
    assert a.conns[c].wire + [] == a.conns[c].wire;
  }

  lemma ConnIgnoresControl(k: Conn, sessions: map<nat, Session<nat>>, later: map<nat, Session<nat>>,
                           produced: map<nat, seq<Byte>>)
    requires ConnOk(k, sessions, produced)
    requires forall t | t in sessions :: t in later && later[t].id == sessions[t].id
    ensures ConnOk(k, later, produced)
  {
    hide Stream;
  }

  lemma EndedConn(k: Conn, sessions: map<nat, Session<nat>>, produced: map<nat, seq<Byte>>)
    requires ConnOk(k, sessions, produced) && k.replay.InReplay?
    ensures ConnOk(k.(replay := Idle), sessions, produced) && ConnOk(k.(replay := Releasing), sessions, produced)
    ensures ConnOk(k.(replay := k.replay.(cleared := true)), sessions, produced)
  {
    hide Stream;
    if k.session.Some? {
      StreamIgnoresReplay(k, Idle, sessions[k.session.value].id, produced[k.session.value]);
      StreamIgnoresReplay(k, Releasing, sessions[k.session.value].id, produced[k.session.value]);
      StreamIgnoresReplay(k, k.replay.(cleared := true), sessions[k.session.value].id, produced[k.session.value]);
    }
  }

  lemma DoneSession(a: Agent, c: nat, s: nat, t: nat)
    requires Base(a) && c in a.conns && a.conns[c].session == Some(s) && s in a.reg.sessions && t in a.reg.sessions
    requires a.conns[c].replay.InReplay? && a.conns[c].replay.todo == []
    requires a.conns[c].replay.cursor == a.reg.sessions[s].nextOffset
    requires a.reg.sessions[s].owner == Some(c) && a.reg.sessions[s].replaying
    ensures var live := a.reg.With(s, a.reg.sessions[s].(replaying := false));
            SessionOk(a.WithConn(c, a.conns[c].(replay := Idle)).(reg := live), t)
  {
    hide Link;
    hide ConnOk;
    hide Suffix;
    assert SessionOk(a, t);
    DoneLink(a, c, s, t);
  }

  lemma DoneKeeps(a: Agent, c: nat, s: nat)
    requires Inv(a) && c in a.conns && a.conns[c].session == Some(s) && s in a.reg.sessions
    requires a.conns[c].replay.InReplay? && a.conns[c].replay.todo == []
    requires a.conns[c].replay.cursor == a.reg.sessions[s].nextOffset
    requires a.reg.sessions[s].owner == Some(c) && a.reg.sessions[s].replaying
    ensures var live := a.reg.With(s, a.reg.sessions[s].(replaying := false));
            Inv(a.WithConn(c, a.conns[c].(replay := Idle)).(reg := live))
  {
    hide SessionOk;
    hide ConnOk;
    var b := a.WithConn(c, a.conns[c].(replay := Idle)).(reg := a.reg.With(s, a.reg.sessions[s].(replaying := false)));
    forall t | t in b.reg.sessions ensures SessionOk(b, t) {
      DoneSession(a, c, s, t);
    }
    EndedConn(a.conns[c], a.reg.sessions, a.produced);
    forall d | d in b.conns ensures ConnOk(b.conns[d], b.reg.sessions, b.produced) {
      ConnIgnoresControl(b.conns[d], a.reg.sessions, b.reg.sessions, a.produced);
    }
  }

  lemma KeptSession(a: Agent, s: nat)
    requires Base(a) && s in a.reg.sessions
    ensures s in a.produced && Core(a.reg.sessions[s], a.reg.Listed(s), Of(a.reg.log, s), a.produced[s])
    ensures NonEmpty(Of(a.reg.log, s)) && Size(a.reg.log) <= MAX_AGENT_HISTORY
  {
    hide ConnOk;
    hide Core;
    hide Link;
    assert SessionOk(a, s);
    OfNonEmpty(a.reg.log, s);
  }

  /** A holding replay sees its open session as Core describes it. */
  lemma HeldSession(a: Agent, c: nat, s: nat)
    requires Base(a) && s in a.reg.sessions && c in a.conns
    ensures Core(a.reg.sessions[s], a.reg.Listed(s), Of(a.reg.log, s), a.produced[s]) && NonEmpty(Of(a.reg.log, s))
    ensures ConnOk(a.conns[c], a.reg.sessions, a.produced) && s in a.produced
  {
    hide Core;
    hide ConnOk;
    KeptSession(a, s);
    ConnOf(a, c);
  }

  lemma ReplayTurnKeeps(a: Agent, c: nat)
    requires Inv(a) && AfterReplayTurn(a, c).Some?
    ensures Inv(AfterReplayTurn(a, c).value)
  {
    hide Base;
    hide ConnOk;
    hide Core;
    hide RangeOf;
    hide OutputPayloads;
    BaseKnown(a);
    var b := AfterReplayTurn(a, c).value;
    var k := a.conns[c];
    var s := k.session.value;
    HeldSession(a, c, s);
    EndedConn(k, a.reg.sessions, a.produced);
    match CaughtUp(a.reg, s, c, k.replay.cursor).1 {
      case Done =>
        DoneKeeps(a, c, s);
      case More(frames) =>
        MoreConn(k, s, a.reg.sessions[s], Of(a.reg.log, s), frames, a.reg.sessions, a.produced);
        ReplayChange(a, c, b.conns[c]);
      case _ =>
        ReplayChange(a, c, b.conns[c]);
    }
  }

  // ---------- Output is copied ----------

  lemma {:induction false} EntryOf(log: seq<Entry<nat>>, i: nat)
    requires i < |log|
    ensures Of(log, log[i].session) != []
  {
    if i > 0 {
      EntryOf(log[1..], i - 1);
    }
  }

  /** An append brings in no session but its own. */
  lemma GrownLog(r: Reg, s: nat, data: seq<Byte>)
    requires LogOk(r) && s in r.sessions && data != []
    ensures LogOk(Grown(r, s, data))
  {
    hide Appended;
    hide NonEmpty;
    var log := Grown(r, s, data).log;
    var share := AppendDrops(r.log, s, r.sessions[s].nextOffset, data, s);
    forall i | 0 <= i < |log| ensures log[i].session in r.sessions {
      var t := log[i].session;
      EntryOf(log, i);
      var part := AppendDrops(r.log, s, r.sessions[s].nextOffset, data, t);
      if t !in r.sessions {
        NoEntries(r.log, t);
      }
    }
  }

  lemma GrownCore(a: Agent, s: nat, data: seq<Byte>, t: nat)
    requires Base(a) && s in a.reg.sessions && t in a.reg.sessions
    requires MayAppend(a.reg.sessions[s], data) && |data| <= MAX_TERMINAL_OUTPUT
    ensures var r := Grown(a.reg, s, data);
            Core(r.sessions[t], r.Listed(t), Of(r.log, t), if t == s then a.produced[s] + data else a.produced[t])
  {
    hide Appended;
    hide Suffix;
    hide Link;
    hide NonEmpty;
    hide ConnOk;
    hide PendingOk;
    assert SessionOk(a, s) && SessionOk(a, t);
    var next := a.reg.sessions[s].nextOffset;
    AppendWithinLimits(a.reg.log, s, next, data, t);
    if a.reg.sessions[t].closed {
      var share := AppendDrops(a.reg.log, s, next, data, t);
    } else {
      AppendHolds(a.reg.log, s, data, a.produced[s], t, a.produced[t]);
      assert a.produced[t] + [] == a.produced[t];
    }
  }

  lemma ShowsMore(pieces: seq<Piece>, produced: seq<Byte>, data: seq<Byte>)
    requires Shows(pieces, produced)
    ensures Shows(pieces, produced + data)
  {
  }

  lemma StreamShowsMore(k: Conn, id: string, produced: seq<Byte>, data: seq<Byte>)
    requires Stream(k, id, produced)
    ensures Stream(k, id, produced + data)
  {
    hide Shows;
    hide Tile;
    hide Shape;
    hide PiecesIn;
    ShowsMore(PiecesIn(k.queued), produced, data);
  }

  lemma GrownConn(k: Conn, r: Reg, s: nat, data: seq<Byte>, produced: map<nat, seq<Byte>>)
    requires s in r.sessions && s in produced && ConnOk(k, r.sessions, produced)
    ensures ConnOk(k, Grown(r, s, data).sessions, produced[s := produced[s] + data])
  {
    hide Stream;
    if k.session == Some(s) {
      StreamShowsMore(k, r.sessions[s].id, produced[s], data);
    }
  }

  /** A log that grew with nobody attached. */
  ghost predicate Grew(a: Agent, b: Agent, s: nat, data: seq<Byte>)
    requires Known(a) && s in a.reg.sessions
  {
    b == a.(reg := Grown(a.reg, s, data), produced := a.produced[s := a.produced[s] + data])
  }

  lemma GrewTable(a: Agent, b: Agent, s: nat, data: seq<Byte>)
    requires Inv(a) && s in a.reg.sessions && data != [] && Grew(a, b, s, data)
    ensures Known(b) && LogOk(b.reg) && TableOk(b.reg) && PendingOk(b.reg, b.conns)
  {
    hide SessionOk;
    hide ConnOk;
    hide LogOk;
    hide Appended;
    GrownLog(a.reg, s, data);
  }

  /** Everything but the link of s itself survives the growth. */
  lemma GrewParts(a: Agent, b: Agent, s: nat, data: seq<Byte>)
    requires Inv(a) && s in a.reg.sessions && Grew(a, b, s, data)
    requires MayAppend(a.reg.sessions[s], data) && |data| <= MAX_TERMINAL_OUTPUT
    ensures Known(b) && LogOk(b.reg) && TableOk(b.reg) && PendingOk(b.reg, b.conns)
    ensures forall t | t in b.reg.sessions :: Core(b.reg.sessions[t], b.reg.Listed(t), Of(b.reg.log, t), b.produced[t])
    ensures forall t | t in b.reg.sessions && t != s :: Link(t, b.reg.sessions[t], b.copiers[t], b.conns)
    ensures forall d | d in b.conns :: ConnOk(b.conns[d], b.reg.sessions, b.produced)
  {
    hide Core;
    hide Link;
    hide ConnOk;
    hide LogOk;
    hide TableOk;
    hide PendingOk;
    hide Appended;
    GrewTable(a, b, s, data);
    forall t | t in b.reg.sessions
      ensures Core(b.reg.sessions[t], b.reg.Listed(t), Of(b.reg.log, t), b.produced[t])
      ensures t != s ==> Link(t, b.reg.sessions[t], b.copiers[t], b.conns)
    {
      assert SessionOk(a, t);
      GrownCore(a, s, data, t);
    }
    forall d | d in b.conns ensures ConnOk(b.conns[d], b.reg.sessions, b.produced) {
      GrownConn(a.conns[d], a.reg, s, data, a.produced);
    }
  }

  /** Nobody is attached, or a replay still runs: the output is only kept. */
  lemma KeptKeeps(a: Agent, b: Agent, s: nat, data: seq<Byte>)
    requires Inv(a) && s in a.reg.sessions && Grew(a, b, s, data) && a.copiers[s] == Reading
    requires MayAppend(a.reg.sessions[s], data) && |data| <= MAX_TERMINAL_OUTPUT
    requires a.reg.sessions[s].owner.None? || a.reg.sessions[s].replaying
    ensures Inv(b)
  {
    hide Core;
    hide ConnOk;
    hide LogOk;
    hide TableOk;
    hide PendingOk;
    hide Appended;
    assert SessionOk(a, s);
    GrewParts(a, b, s, data);
    WellListedBase(b);
  }

  lemma AttachedConn(a: Agent, s: nat, c: nat)
    requires Base(a) && s in a.reg.sessions && a.reg.sessions[s].owner == Some(c)
    requires !a.reg.sessions[s].replaying && a.copiers[s] == Reading
    ensures c in a.conns && a.conns[c].session == Some(s) && a.conns[c].replay == Idle
    ensures a.conns[c].reach == a.reg.sessions[s].nextOffset == |a.produced[s]| && a.conns[c].wire == a.conns[c].queued
    ensures Stream(a.conns[c], a.reg.sessions[s].id, a.produced[s]) && ConnOk(a.conns[c], a.reg.sessions, a.produced)
  {
    hide Stream;
    assert SessionOk(a, s);
    assert ConnOk(a.conns[c], a.reg.sessions, a.produced);
  }

  lemma OneOutput(id: string, produced: seq<Byte>, data: seq<Byte>)
    ensures var pieces := PiecesIn([TerminalOutput(id, |produced|, data)]);
            Tile(pieces, |produced|, |produced| + |data|) && Shows(pieces, produced + data)
  {
    var output := TerminalOutput(id, |produced|, data);
    var piece := Piece(|produced|, data);
    assert PiecesIn([output]) == [piece] by {
      assert [output][..0] == [];
    }
    TileAppend([], |produced|, |produced|, piece);
    assert [] + [piece] == [piece];
    assert (produced + data)[|produced|..|produced| + |data|] == data;
  }

  lemma SentConn(k: Conn, id: string, produced: seq<Byte>, data: seq<Byte>)
    requires Stream(k, id, produced) && k.reach == |produced| && 0 < |data| <= MAX_TERMINAL_OUTPUT
    ensures Stream(k.(queued := k.queued + [TerminalOutput(id, |produced|, data)], reach := |produced| + |data|), id,
                   produced + data)
  {
    hide Stream;
    hide Tile;
    hide Shows;
    hide PiecesIn;
    var output := TerminalOutput(id, |produced|, data);
    OneOutput(id, produced, data);
    StreamShowsMore(k, id, produced, data);
    StreamGrows(k, [output], |produced| + |data|, id, produced + data);
  }

  lemma LiveLink(a: Agent, s: nat, c: nat, data: seq<Byte>, k: Conn, t: nat)
    requires Known(a) && s in a.reg.sessions && t in a.reg.sessions
    requires Link(t, a.reg.sessions[t], a.copiers[t], a.conns)
    requires c in a.conns && a.conns[c].session == Some(s) && a.conns[c].replay == Idle
    requires a.conns[c].wire == a.conns[c].queued && a.reg.sessions[s].owner == Some(c) && !a.reg.sessions[s].replaying
    requires var output := TerminalOutput(a.reg.sessions[s].id, a.reg.sessions[s].nextOffset, data);
             k == a.conns[c].(queued := a.conns[c].queued + [output], reach := a.reg.sessions[s].nextOffset + |data|)
    ensures Link(t, Grown(a.reg, s, data).sessions[t],
                 if t == s then Sending(c, a.reg.sessions[s].nextOffset, data) else a.copiers[t], a.conns[c := k])
  {
    hide Appended;
  }

  lemma LiveSessions(a: Agent, grown: Agent, b: Agent, s: nat, c: nat, data: seq<Byte>, k: Conn)
    requires Base(a) && Known(b) && s in a.reg.sessions && c in a.conns && Grew(a, grown, s, data)
    requires a.conns[c].session == Some(s) && a.conns[c].replay == Idle
    requires a.conns[c].wire == a.conns[c].queued && a.reg.sessions[s].owner == Some(c) && !a.reg.sessions[s].replaying
    requires var output := TerminalOutput(a.reg.sessions[s].id, a.reg.sessions[s].nextOffset, data);
             k == a.conns[c].(queued := a.conns[c].queued + [output], reach := a.reg.sessions[s].nextOffset + |data|)
    requires b == grown.(conns := a.conns[c := k],
                         copiers := a.copiers[s := Sending(c, a.reg.sessions[s].nextOffset, data)])
    requires forall t | t in grown.reg.sessions && t in grown.produced ::
               Core(grown.reg.sessions[t], grown.reg.Listed(t), Of(grown.reg.log, t), grown.produced[t])
    ensures forall t | t in b.reg.sessions :: SessionOk(b, t)
  {
    hide Core;
    hide Link;
    hide ConnOk;
    hide LogOk;
    hide PendingOk;
    hide Appended;
    forall t | t in b.reg.sessions ensures SessionOk(b, t) {
      assert SessionOk(a, t);
      LiveLink(a, s, c, data, k, t);
    }
  }

  /** The output goes to the attached connection: its queue grows by exactly what its shell produced. */
  lemma LiveKeeps(a: Agent, s: nat, c: nat, data: seq<Byte>)
    requires Inv(a) && s in a.reg.sessions && a.reg.sessions[s].owner == Some(c)
    requires !a.reg.sessions[s].replaying && a.copiers[s] == Reading
    requires MayAppend(a.reg.sessions[s], data) && |data| <= MAX_TERMINAL_OUTPUT
    ensures AfterCopyRead(a, s, data).Some? && Inv(AfterCopyRead(a, s, data).value)
  {
    hide Core;
    hide Link;
    hide ConnOk;
    hide LogOk;
    hide TableOk;
    hide Stream;
    hide Appended;
    AttachedConn(a, s, c);
    var grown := a.(reg := Grown(a.reg, s, data), produced := a.produced[s := a.produced[s] + data]);
    GrewParts(a, grown, s, data);
    var b := AfterCopyRead(a, s, data).value;
    var k := b.conns[c];
    SentConn(a.conns[c], a.reg.sessions[s].id, a.produced[s], data);
    LiveConn(a, s, c, data, k);
    LiveSessions(a, grown, b, s, c, data, k);
    WellListedBase(grown);
    LivePending(a.reg.pending, a, b, c);
  }

  lemma LivePending(pending: map<nat, Pending<nat>>, a: Agent, b: Agent, c: nat)
    requires c in a.conns && c in b.conns && b.conns == a.conns[c := b.conns[c]]
    requires b.conns[c].asked == a.conns[c].asked && b.conns[c].session == a.conns[c].session
    requires PendingOk(a.reg, a.conns) && b.reg.pending == a.reg.pending && b.reg.active == a.reg.active
    ensures PendingOk(b.reg, b.conns)
  {
  }

  lemma LiveConn(a: Agent, s: nat, c: nat, data: seq<Byte>, k: Conn)
    requires s in a.reg.sessions && s in a.produced && c in a.conns && ConnOk(a.conns[c], a.reg.sessions, a.produced)
    requires a.conns[c].session == Some(s) && a.conns[c].replay == Idle
    requires k == a.conns[c].(queued := k.queued, reach := k.reach)
    requires Stream(k, a.reg.sessions[s].id, a.produced[s] + data)
    ensures ConnOk(k, Grown(a.reg, s, data).sessions, a.produced[s := a.produced[s] + data])
  {
    hide Stream;
    hide Appended;
  }

  lemma CopierLink(a: Agent, s: nat, copier: Copier, t: nat)
    requires Known(a) && t in a.reg.sessions && Link(t, a.reg.sessions[t], a.copiers[t], a.conns)
    requires s in a.reg.sessions && copier == Stopped
    ensures Link(t, a.reg.sessions[t], a.copiers[s := copier][t], a.conns)
  {
  }

  lemma StoppedKeeps(a: Agent, s: nat)
    requires Inv(a) && s in a.reg.sessions
    ensures Inv(a.(copiers := a.copiers[s := Stopped]))
  {
    hide Core;
    hide Link;
    hide ConnOk;
    hide LogOk;
    hide TableOk;
    hide PendingOk;
    var b := a.(copiers := a.copiers[s := Stopped]);
    forall t | t in b.reg.sessions ensures SessionOk(b, t) {
      assert SessionOk(a, t);
      CopierLink(a, s, Stopped, t);
    }
  }

  lemma CopyReadKeeps(a: Agent, s: nat, data: seq<Byte>)
    requires Inv(a) && AfterCopyRead(a, s, data).Some?
    ensures Inv(AfterCopyRead(a, s, data).value)
  {
    hide SessionOk;
    hide ConnOk;
    hide LogOk;
    hide TableOk;
    hide PendingOk;
    hide Appended;
    if !MayAppend(a.reg.sessions[s], data) {
      StoppedKeeps(a, s);
    } else if a.reg.sessions[s].owner.Some? && !a.reg.sessions[s].replaying {
      LiveKeeps(a, s, a.reg.sessions[s].owner.value, data);
    } else {
      KeptKeeps(a, AfterCopyRead(a, s, data).value, s, data);
    }
  }

  // ---------- Output is sent ----------

  lemma SendLink(a: Agent, s: nat, sent: Sent, t: nat)
    requires Known(a) && AfterCopySend(a, s, sent).Some? && t in a.reg.sessions
    requires Link(s, a.reg.sessions[s], a.copiers[s], a.conns) && Link(t, a.reg.sessions[t], a.copiers[t], a.conns)
    ensures var b := AfterCopySend(a, s, sent).value; Link(t, b.reg.sessions[t], b.copiers[t], b.conns)
  {
  }

  lemma SendConn(k: Conn, output: Payload, sessions: map<nat, Session<nat>>, produced: map<nat, seq<Byte>>)
    requires ConnOk(k, sessions, produced) && k.session.Some? && k.replay == Idle && k.queued == k.wire + [output]
    ensures ConnOk(k.(wire := k.wire + [output]), sessions, produced)
  {
    hide Shows;
    hide Tile;
    hide PiecesIn;
    hide Scripted;
    assert k.queued[..|k.queued|] == k.queued;
  }

  lemma CopySendKeeps(a: Agent, s: nat, sent: Sent)
    requires Inv(a) && AfterCopySend(a, s, sent).Some?
    ensures Inv(AfterCopySend(a, s, sent).value)
  {
    hide Core;
    hide ConnOk;
    hide LogOk;
    hide TableOk;
    var b := AfterCopySend(a, s, sent).value;
    var c := a.copiers[s].to;
    assert SessionOk(a, s);
    assert ConnOk(a.conns[c], a.reg.sessions, a.produced);
    if sent.delivered {
      SendConn(a.conns[c], TerminalOutput(a.reg.sessions[s].id, a.copiers[s].offset, a.copiers[s].data), a.reg.sessions,
               a.produced);
    }
    forall t | t in b.reg.sessions ensures SessionOk(b, t) {
      assert SessionOk(a, t);
      SendLink(a, s, sent, t);
    }
    forall d | d in b.conns ensures ConnOk(b.conns[d], b.reg.sessions, b.produced) {
      assert ConnOk(a.conns[d], a.reg.sessions, a.produced);
    }
  }

  /** Every step keeps the invariant. */
  lemma StepKeeps(a: Agent, step: Step)
    requires Inv(a) && Next(a, step).Some?
    ensures Inv(Next(a, step).value)
  {
    hide Inv;
    match step
    case Connect(c, device, credential) => ConnectKeeps(a, c, device, credential);
    case MarkDone(c) => MarkDoneKeeps(a, c);
    case Disconnect(c) => DisconnectKeeps(a, c);
    case StartOpen(c, p, id) => StartOpenKeeps(a, c, p, id);
    case AbortOpen(p) => AbortOpenKeeps(a, p);
    case FinishOpen(p, s) => FinishOpenKeeps(a, p, s);
    case DetachBy(c, id) => DetachByKeeps(a, c, id);
    case BeginReopen(c, id) => BeginReopenKeeps(a, c, id);
    case ResizeFailed(c) => ResizeFailedKeeps(a, c);
    case ReplayCheck(c) => ReplayCheckKeeps(a, c);
    case ReplaySend(c, sent) => ReplaySendKeeps(a, c, sent);
    case ReplayTurn(c) => ReplayTurnKeeps(a, c);
    case ReplayRelease(c) => ReplayReleaseKeeps(a, c);
    case CopyRead(s, data) => CopyReadKeeps(a, s, data);
    case CopySend(s, sent) => CopySendKeeps(a, s, sent);
    case CopyDetach(s) => CopyDetachKeeps(a, s);
    case Fence(s) => FenceKeeps(a, s);
    case Revoke(credential, sessions) => RevokeKeeps(a, credential, sessions);
    case Shutdown(sessions) => ShutdownKeeps(a, sessions);
    case Unlist(s) => UnlistKeeps(a, s);
  }
}
