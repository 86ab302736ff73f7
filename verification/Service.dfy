/** What the agent's steps are for: shells open, output arrives, ownership is let go, and a shell left behind comes
    back to its user with everything retained. */
module Service {
  import opened Protocol
  import opened Tiling
  import opened OutputLog
  import opened HistoryFrames
  import opened RegistrySteps
  import opened Delivery
  import opened DeliveryInvariant
  import opened DeliveryRuns
  import opened Claims
  import opened GoesLive

  lemma OneMore(steps: seq<Step>, step: Step)
    requires After(steps).Some?
    ensures Inv(After(steps).value) && Known(After(steps).value)
    ensures After(steps + [step]) == Next(After(steps).value, step)
  {
    hide Inv;
    hide Next;
    Reachable(steps);
    assert (steps + [step])[..|steps|] == steps;
  }

  // ---------- Coming back ----------

  /** A claim just made has everything retained ahead of it. */
  lemma ClaimedInProgress(a: Agent, c: nat, id: string)
    requires Inv(a) && Known(a) && AfterBeginReopen(a, c, id).Some?
    ensures var b := AfterBeginReopen(a, c, id).value;
            && InProgress(b, c) && b.conns[c].session == Some(a.reg.active[id]) && b.produced == a.produced
            && b.conns[c].start == StartOf(Of(a.reg.log, a.reg.active[id]), a.reg.sessions[a.reg.active[id]].nextOffset)
            && b.conns[c].replay.cursor == a.reg.sessions[a.reg.active[id]].nextOffset
            && b.reg.sessions[a.reg.active[id]].nextOffset == a.reg.sessions[a.reg.active[id]].nextOffset
  {
    ListedAt(a, id);
    hide Inv;
    hide Of;
    hide Script;
  }

  /** Where an open session's history starts: as many bytes before its end as are retained. */
  lemma RetainedStart(a: Agent, s: nat)
    requires Inv(a) && Ownerless(a, s)
    ensures s in a.produced && Size(Of(a.reg.log, s)) <= |a.produced[s]| == a.reg.sessions[s].nextOffset
    ensures StartOf(Of(a.reg.log, s), |a.produced[s]|) == |a.produced[s]| - Size(Of(a.reg.log, s))
  {
    hide Base;
    hide Of;
    hide Suffix;
    hide StartOf;
    hide Size;
    KeptSession(a, s);
    SuffixStart(Of(a.reg.log, s), a.produced[s]);
  }

  lemma SuffixStart(mine: seq<Entry<nat>>, produced: seq<Byte>)
    requires Suffix(mine, produced)
    ensures Size(mine) <= |produced| && StartOf(mine, |produced|) == |produced| - Size(mine)
  {
    hide Contiguous;
    hide Content;
    EntriesShow(mine, produced);
  }

  /** A claim that may be made, and all that follows. */
  lemma ClaimAndReplay(a: Agent, c: nat, s: nat) returns (more: seq<Step>)
    requires Inv(a) && Known(a) && Ownerless(a, s) && MayAsk(a, c) && a.conns[c].device != ""
    requires SameUser(a.conns[c], a.reg.sessions[s])
    ensures From(a, more).Some? && Live(From(a, more).value, c)
    ensures var b := From(a, more).value;
            && b.conns[c].session == Some(s) && b.produced == a.produced
            && b.conns[c].start == StartOf(Of(a.reg.log, s), a.reg.sessions[s].nextOffset)
  {
    hide Inv;
    hide AfterBeginReopen;
    hide Live;
    hide Of;
    hide StartOf;
    hide From;
    var id := a.reg.sessions[s].id;
    var claim := BeginReopen(c, id);
    ClaimAt(a, c, id);
    OwnerConn(a, s);
    ClaimedInProgress(a, c, id);
    StepKeeps(a, claim);
    FromOne(a, claim);
    var b := From(a, [claim]).value;
    AtEndRetained(b, c);
    var rest := GoLive(b, c);
    FromJoin(a, [claim], rest);
    more := [claim] + rest;
  }

  /** A user whose open shell has no owner gets it back, from any connection of theirs that may ask: by the claim and
      the replay's own steps the connection is attached, and was handed exactly the retained bytes. */
  lemma {:induction false} ComesBack(steps: seq<Step>, c: nat, s: nat) returns (more: seq<Step>)
    requires After(steps).Some? && Ownerless(After(steps).value, s)
    requires MayAsk(After(steps).value, c) && After(steps).value.conns[c].device != ""
    requires SameUser(After(steps).value.conns[c], After(steps).value.reg.sessions[s])
    ensures After(steps + more).Some? && Live(After(steps + more).value, c)
    ensures var a, b := After(steps).value, After(steps + more).value;
            && b.conns[c].session == Some(s) && s in a.produced && b.produced == a.produced
            && Size(Of(a.reg.log, s)) <= |a.produced[s]|
            && Delivered(b.conns[c]) == a.produced[s][|a.produced[s]| - Size(Of(a.reg.log, s))..]
  {
    hide After;
    hide Inv;
    hide From;
    hide Delivered;
    hide Of;
    hide Size;
    hide StartOf;
    var a := After(steps).value;
    Reachable(steps);
    RetainedStart(a, s);
    more := ClaimAndReplay(a, c, s);
    AfterJoin(steps, more);
  }

  // ---------- Letting go ----------

  /** A connection can detach exactly the shell it is attached to, once it is live; the shell is then without owner. */
  lemma {:induction false} DetachExact(steps: seq<Step>, c: nat, id: string)
    requires After(steps).Some?
    ensures var a := After(steps).value;
            After(steps + [DetachBy(c, id)]).Some? <==>
              exists s :: s in a.reg.sessions && a.reg.sessions[s].id == id && Attached(a.reg.sessions[s], c)
    ensures forall s | s in After(steps).value.reg.sessions && After(steps + [DetachBy(c, id)]).Some?
                       && After(steps).value.reg.sessions[s].id == id
                          && Attached(After(steps).value.reg.sessions[s], c) ::
              Ownerless(After(steps + [DetachBy(c, id)]).value, s)
  {
    hide After;
    hide Inv;
    var a := After(steps).value;
    OneMore(steps, DetachBy(c, id));
    ListedAt(a, id);
    forall s | s in a.reg.sessions && Attached(a.reg.sessions[s], c) && a.reg.sessions[s].id == id
      ensures id in a.reg.active && a.reg.active[id] == s && !a.reg.sessions[s].detached && !a.reg.sessions[s].closed
    {
      OwnerConn(a, s);
    }
    if After(steps + [DetachBy(c, id)]).Some? {
      assert Attached(a.reg.sessions[a.reg.active[id]], c);
    }
  }

  predicate Attached(m: Session<nat>, c: nat) {
    m.owner == Some(c) && !m.replaying
  }

  /** The steps by which a connection loses its shell: it is gone, its live send failed, or its replay failed. */
  ghost predicate LosesShell(a: Agent, step: Step, s: nat) {
    && s in a.reg.sessions && a.reg.sessions[s].owner.Some?
    && match step
       case Disconnect(c) => a.reg.sessions[s].owner.value == c
       case CopyDetach(t) => t == s && s in a.copiers && a.copiers[s] == SendBroke(a.reg.sessions[s].owner.value)
       case ReplayRelease(c) =>
         && a.reg.sessions[s].owner.value == c && a.reg.sessions[s].replaying
         && c in a.conns && a.conns[c].session == Some(s)
       case _ => false
  }

  /** After each of them the shell is open and without owner, so that its user may come back. */
  lemma {:induction false} LeftBehind(steps: seq<Step>, step: Step, s: nat)
    requires After(steps + [step]).Some? && After(steps).Some? && LosesShell(After(steps).value, step, s)
    ensures Ownerless(After(steps + [step]).value, s)
    ensures s in After(steps).value.produced && s in After(steps + [step]).value.produced
    ensures After(steps + [step]).value.produced[s] == After(steps).value.produced[s]
  {
    hide After;
    hide Inv;
    OneMore(steps, step);
    OwnerConn(After(steps).value, s);
    if step.Disconnect? {
      hide Abandoned;
      Owners(After(steps).value);
      AbandonedSessions(After(steps).value.reg, step.c);
    }
  }

  /** Any connection can end at any time, and every shell it owned is then left behind. */
  lemma {:induction false} GoneLeavesAll(steps: seq<Step>, c: nat)
    requires After(steps).Some? && c in After(steps).value.conns
    ensures After(steps + [MarkDone(c)] + [Disconnect(c)]).Some?
    ensures var a, b := After(steps).value, After(steps + [MarkDone(c)] + [Disconnect(c)]).value;
            && b.produced == a.produced && c in b.conns && b.conns[c].gone
            && forall s | s in a.reg.sessions ::
                 && s in b.reg.sessions && b.reg.sessions[s].closed == a.reg.sessions[s].closed
                 && b.reg.sessions[s].owner ==
                      if a.reg.sessions[s].owner == Some(c) then None else a.reg.sessions[s].owner
  {
    hide After;
    hide Inv;
    hide Abandoned;
    OneMore(steps, MarkDone(c));
    OneMore(steps + [MarkDone(c)], Disconnect(c));
    var a := After(steps + [MarkDone(c)]).value;
    Owners(a);
    AbandonedSessions(a.reg, c);
  }

  // ---------- Opening ----------

  predicate Healthy(a: Agent, c: nat) {
    c in a.conns && !a.reg.shuttingDown && a.conns[c].credential !in a.reg.revoked
  }

  /** A connection that may ask gets a shell under any id not in use, unless the agent shuts down or its credential is
      revoked, in which case it is refused before a shell is made; the new shell is live from its first byte. */
  lemma {:induction false} OpenExact(steps: seq<Step>, c: nat, p: nat, s: nat, id: string)
    requires After(steps).Some? && p !in After(steps).value.reg.pending
    requires s !in After(steps).value.reg.sessions && s !in After(steps).value.discarded
    requires !IdInUse(After(steps).value.reg, id)
    ensures var a := After(steps).value;
            && (After(steps + [StartOpen(c, p, id)]).Some? <==> MayAsk(a, c) && Healthy(a, c))
            && (MayAsk(a, c) && Healthy(a, c) ==>
                && After(steps + [StartOpen(c, p, id), FinishOpen(p, s)]).Some?
                && var b := After(steps + [StartOpen(c, p, id), FinishOpen(p, s)]).value;
                   && Live(b, c) && b.conns[c].session == Some(s) && b.conns[c].start == 0 && b.produced[s] == []
                   && b.reg.sessions[s].id == id && b.copiers[s] == Reading)
  {
    hide After;
    hide Inv;
    hide IdInUse;
    var a := After(steps).value;
    OneMore(steps, StartOpen(c, p, id));
    if MayAsk(a, c) && Healthy(a, c) {
      NothingYet(a, c);
      OneMore(steps + [StartOpen(c, p, id)], FinishOpen(p, s));
      assert steps + [StartOpen(c, p, id)] + [FinishOpen(p, s)] == steps + [StartOpen(c, p, id), FinishOpen(p, s)];
      Opened(a, c, p, s, id);
    }
  }

  lemma NothingYet(a: Agent, c: nat)
    requires Inv(a) && c in a.conns && !a.conns[c].asked
    ensures a.conns[c].session.None? && a.conns[c].wire == [] && a.conns[c].start == 0
  {
    hide Stream;
    assert ConnOk(a.conns[c], a.reg.sessions, a.produced);
  }

  lemma Opened(a: Agent, c: nat, p: nat, s: nat, id: string)
    requires Inv(a) && Known(a) && MayAsk(a, c) && Healthy(a, c) && a.conns[c].session.None? && a.conns[c].wire == []
    requires a.conns[c].start == 0
    requires p !in a.reg.pending && s !in a.reg.sessions && s !in a.discarded && !IdInUse(a.reg, id)
    ensures AfterStartOpen(a, c, p, id).Some? && Known(AfterStartOpen(a, c, p, id).value)
    ensures AfterFinishOpen(AfterStartOpen(a, c, p, id).value, p, s).Some?
    ensures var b := AfterFinishOpen(AfterStartOpen(a, c, p, id).value, p, s).value;
            && Live(b, c) && b.conns[c].session == Some(s) && b.conns[c].start == 0 && b.produced[s] == []
            && b.reg.sessions[s].id == id && b.copiers[s] == Reading
  {
    hide Inv;
    assert PiecesIn([]) == [] && Joined([]) == [];
  }

  // ---------- Output arrives ----------

  /** An open shell's output is kept and, while somebody is attached, handed over: after the read and the send the
      connection has been given exactly these bytes more. A shell stops being read exactly when it is closed or its
      offsets run out. */
  lemma {:induction false} OutputReaches(steps: seq<Step>, s: nat, data: seq<Byte>)
    requires After(steps).Some? && s in After(steps).value.reg.sessions
    requires s in After(steps).value.copiers && After(steps).value.copiers[s] == Reading
    requires 0 < |data| <= MAX_TERMINAL_OUTPUT
    ensures After(steps + [CopyRead(s, data)]).Some?
    ensures var a, b := After(steps).value, After(steps + [CopyRead(s, data)]).value;
            && s in a.produced && s in b.produced && s in b.copiers
            && (b.copiers[s] == Stopped <==> a.reg.sessions[s].closed || |a.produced[s]| + |data| > MAX_SEQUENCE)
            && b.produced[s] == if b.copiers[s] == Stopped then a.produced[s] else a.produced[s] + data
    ensures var a, b := After(steps).value, After(steps + [CopyRead(s, data)]).value;
            a.reg.sessions[s].owner.Some? && !a.reg.sessions[s].replaying && b.copiers[s] != Stopped ==>
              var c := a.reg.sessions[s].owner.value;
              && After(steps + [CopyRead(s, data), CopySend(s, FINE)]).Some?
              && var d := After(steps + [CopyRead(s, data), CopySend(s, FINE)]).value;
                 && c in a.conns && c in d.conns && Delivered(d.conns[c]) == Delivered(a.conns[c]) + data
                 && s in d.copiers && d.copiers[s] == Reading
  {
    hide After;
    hide Inv;
    hide Delivered;
    var a := After(steps).value;
    OneMore(steps, CopyRead(s, data));
    OutputKept(a, s);
    ReadNext(a, s, data);
    if a.reg.sessions[s].owner.Some? && !a.reg.sessions[s].replaying
       && After(steps + [CopyRead(s, data)]).value.copiers[s] != Stopped {
      OneMore(steps + [CopyRead(s, data)], CopySend(s, FINE));
      assert steps + [CopyRead(s, data)] + [CopySend(s, FINE)] == steps + [CopyRead(s, data), CopySend(s, FINE)];
      OwnerConn(a, s);
      SendNextOutput(a, s, data);
    }
  }

  lemma OutputKept(a: Agent, s: nat)
    requires Inv(a) && s in a.reg.sessions
    ensures s in a.produced && a.reg.sessions[s].nextOffset == |a.produced[s]|
  {
    KeptSession(a, s);
  }

  lemma ReadNext(a: Agent, s: nat, data: seq<Byte>)
    requires Known(a) && s in a.reg.sessions && a.copiers[s] == Reading && 0 < |data| <= MAX_TERMINAL_OUTPUT
    requires a.reg.sessions[s].nextOffset == |a.produced[s]|
    ensures Next(a, CopyRead(s, data)).Some?
    ensures var b := Next(a, CopyRead(s, data)).value;
            && s in b.produced && s in b.copiers
            && (b.copiers[s] == Stopped <==> a.reg.sessions[s].closed || |a.produced[s]| + |data| > MAX_SEQUENCE)
            && b.produced[s] == if b.copiers[s] == Stopped then a.produced[s] else a.produced[s] + data
  {
    hide Appended;
  }

  lemma SendNextOutput(a: Agent, s: nat, data: seq<Byte>)
    requires Known(a) && s in a.reg.sessions && a.copiers[s] == Reading && 0 < |data| <= MAX_TERMINAL_OUTPUT
    requires MayAppend(a.reg.sessions[s], data)
    requires a.reg.sessions[s].owner.Some? && !a.reg.sessions[s].replaying && a.reg.sessions[s].owner.value in a.conns
    requires Next(a, CopyRead(s, data)).Some? && Known(Next(a, CopyRead(s, data)).value)
    ensures Next(Next(a, CopyRead(s, data)).value, CopySend(s, FINE)).Some?
    ensures var c := a.reg.sessions[s].owner.value;
            var d := Next(Next(a, CopyRead(s, data)).value, CopySend(s, FINE)).value;
            && c in d.conns && Delivered(d.conns[c]) == Delivered(a.conns[c]) + data
            && s in d.copiers && d.copiers[s] == Reading
  {
    var c := a.reg.sessions[s].owner.value;
    var b := Next(a, CopyRead(s, data)).value;
    ReadAttached(a, s, data, c);
    hide AfterCopyRead;
    hide PiecesIn;
    hide Joined;
    OneOutputMore(a.conns[c].wire, TerminalOutput(b.reg.sessions[s].id, a.reg.sessions[s].nextOffset, data));
  }

  lemma ReadAttached(a: Agent, s: nat, data: seq<Byte>, c: nat)
    requires Known(a) && s in a.reg.sessions && a.copiers[s] == Reading && 0 < |data| <= MAX_TERMINAL_OUTPUT
    requires MayAppend(a.reg.sessions[s], data) && Attached(a.reg.sessions[s], c) && c in a.conns
    ensures var b := Next(a, CopyRead(s, data)).value;
            && s in b.reg.sessions && s in b.copiers && c in b.conns
            && b.copiers[s] == Sending(c, a.reg.sessions[s].nextOffset, data) && b.conns[c].wire == a.conns[c].wire
  {
    hide Appended;
  }

  lemma OneOutputMore(wire: seq<Payload>, output: Payload)
    requires output.TerminalOutput?
    ensures Joined(PiecesIn(wire + [output])) == Joined(PiecesIn(wire)) + output.data
  {
    assert (wire + [output])[..|wire|] == wire;
    var pieces := PiecesIn(wire);
    var piece := Piece(output.offset, output.data);
    assert PiecesIn(wire + [output]) == pieces + [piece];
    assert (pieces + [piece])[..|pieces|] == pieces;
  }

  // ---------- Closing ----------

  /** Exactly a closed shell leaves the table, and its id is free again; every other shell stays where it is. */
  lemma {:induction false} UnlistExact(steps: seq<Step>, s: nat)
    requires After(steps).Some?
    ensures var a := After(steps).value;
            && (After(steps + [Unlist(s)]).Some? <==> s in a.reg.sessions && a.reg.sessions[s].closed)
            && (After(steps + [Unlist(s)]).Some? ==>
                var r := After(steps + [Unlist(s)]).value.reg;
                && s in r.sessions && !r.Listed(s)
                && forall t | t in a.reg.sessions && t != s :: t in r.sessions && (r.Listed(t) <==> a.reg.Listed(t)))
  {
    hide After;
    hide Inv;
    OneMore(steps, Unlist(s));
  }

  /** The steps that close an open shell: its own fence, a revocation of its credential, the shutdown. */
  predicate Closes(step: Step, s: nat, m: Session<nat>) {
    match step
    case Fence(t) => t == s
    case Revoke(credential, _) => credential == m.credential
    case Shutdown(_) => true
    case _ => false
  }

  lemma {:induction false} FencedAmong(r: Reg, sessions: seq<nat>, s: nat)
    requires s in r.sessions && forall t | t in sessions :: t in r.sessions
    ensures AllFenced(r, sessions).sessions[s] ==
            if s in sessions && !r.sessions[s].closed then r.sessions[s].(closed := true, owner := None)
            else r.sessions[s]
  {
    if sessions != [] {
      var front := sessions[..|sessions| - 1];
      FencedAmong(r, front, s);
      assert sessions == front + [sessions[|sessions| - 1]];
      hide Without;
    }
  }

  lemma TurnOwner(r: Reg, s: nat, c: nat, cursor: nat, t: nat)
    requires s in r.sessions && t in r.sessions
    ensures var n := CaughtUp(r, s, c, cursor).0;
            t in n.sessions && n.sessions[t] == r.sessions[t].(replaying := n.sessions[t].replaying)
  {
    hide RangeOf;
    hide Of;
  }

  /** In every reachable state, exactly these steps close an open shell, and nothing opens a closed one again. */
  lemma {:induction false} ClosesExactly(steps: seq<Step>, step: Step, s: nat)
    requires After(steps).Some? && After(steps + [step]).Some? && s in After(steps).value.reg.sessions
    ensures s in After(steps + [step]).value.reg.sessions
    ensures var m, n := After(steps).value.reg.sessions[s], After(steps + [step]).value.reg.sessions[s];
            n.closed <==> m.closed || Closes(step, s, m)
  {
    hide After;
    hide Inv;
    var a := After(steps).value;
    OneMore(steps, step);
    OwnerConn(a, s);
    StepSession(a, step, s);
  }

  /** In every reachable state, an owner loses an open shell exactly by its own detaching, by one of the failures that
      leave a shell behind, or when the shell is closed; whatever others do, it keeps it. */
  lemma {:induction false} KeepsShell(steps: seq<Step>, step: Step, s: nat)
    requires After(steps).Some? && After(steps + [step]).Some? && s in After(steps).value.reg.sessions
    requires After(steps).value.reg.sessions[s].owner.Some?
    ensures s in After(steps + [step]).value.reg.sessions
    ensures var a, m, n := After(steps).value, After(steps).value.reg.sessions[s],
            After(steps + [step]).value.reg.sessions[s];
            && (n.owner == m.owner || n.owner.None?)
            && (n.owner.None? <==>
                LosesShell(a, step, s) || Closes(step, s, m) || step == DetachBy(m.owner.value, m.id))
  {
    hide After;
    hide Inv;
    var a := After(steps).value;
    OneMore(steps, step);
    OwnerConn(a, s);
    StepSession(a, step, s);
  }

  /** What a step does to a session's owner and to whether it is closed. */
  ghost predicate OwnerMoves(a: Agent, step: Step, s: nat, m: Session<nat>, n: Session<nat>) {
    && (n.closed <==> m.closed || Closes(step, s, m))
    && (m.owner.Some? ==>
        && (n.owner == m.owner || n.owner.None?)
        && (n.owner.None? <==> LosesShell(a, step, s) || Closes(step, s, m) || step == DetachBy(m.owner.value, m.id)))
  }

  predicate LetsGo(step: Step) {
    step.Disconnect? || step.DetachBy? || step.CopyDetach? || step.ReplayRelease?
  }

  predicate MayClose(step: Step) {
    step.Fence? || step.Revoke? || step.Shutdown?
  }

  lemma StepSession(a: Agent, step: Step, s: nat)
    requires Inv(a) && Known(a) && Next(a, step).Some? && s in a.reg.sessions
    requires var m := a.reg.sessions[s];
             && (m.closed ==> m.owner.None?) && (!m.closed ==> a.reg.Listed(s) && (m.detached <==> m.owner.None?))
    ensures s in Next(a, step).value.reg.sessions
    ensures OwnerMoves(a, step, s, a.reg.sessions[s], Next(a, step).value.reg.sessions[s])
  {
    hide Inv;
    hide Next;
    hide OwnerMoves;
    Owners(a);
    TableListed(a);
    if LetsGo(step) {
      LetsGoSession(a, step, s);
    } else if MayClose(step) {
      ClosesSession(a, step, s);
    } else {
      OtherSession(a, step, s);
    }
  }

  lemma TableListed(a: Agent)
    requires Inv(a)
    ensures WellListed(a.reg)
  {
    hide Base;
  }

  lemma LetsGoSession(a: Agent, step: Step, s: nat)
    requires Known(a) && Next(a, step).Some? && s in a.reg.sessions && LetsGo(step) && WellListed(a.reg)
    requires var m := a.reg.sessions[s];
             && (m.closed ==> m.owner.None?) && (!m.closed ==> a.reg.Listed(s) && (m.detached <==> m.owner.None?))
    requires forall t | t in a.reg.sessions && a.reg.sessions[t].owner.Some? ::
               !a.reg.sessions[t].closed && a.reg.Listed(t)
    ensures s in Next(a, step).value.reg.sessions
    ensures OwnerMoves(a, step, s, a.reg.sessions[s], Next(a, step).value.reg.sessions[s])
  {
    hide Next;
    hide OwnerMoves;
    hide WellListed;
    hide Known;
    match step
    case Disconnect(c) => GoneSession(a, c, s);
    case DetachBy(c, id) => DetachedSession(a, c, id, s);
    case CopyDetach(t) => FailedSession(a, t, s);
    case ReplayRelease(c) => ReleasedSession(a, c, s);
  }

  lemma GoneSession(a: Agent, c: nat, s: nat)
    requires Known(a) && Next(a, Disconnect(c)).Some? && s in a.reg.sessions
    requires forall t | t in a.reg.sessions && a.reg.sessions[t].owner.Some? ::
               !a.reg.sessions[t].closed && a.reg.Listed(t)
    ensures s in Next(a, Disconnect(c)).value.reg.sessions
    ensures OwnerMoves(a, Disconnect(c), s, a.reg.sessions[s], Next(a, Disconnect(c)).value.reg.sessions[s])
  {
    hide Abandoned;
    AbandonedSessions(a.reg, c);
  }

  lemma DetachedSession(a: Agent, c: nat, id: string, s: nat)
    requires Known(a) && Next(a, DetachBy(c, id)).Some? && s in a.reg.sessions
    requires WellListed(a.reg) && (a.reg.sessions[s].owner.Some? ==> a.reg.Listed(s))
    ensures s in Next(a, DetachBy(c, id)).value.reg.sessions
    ensures OwnerMoves(a, DetachBy(c, id), s, a.reg.sessions[s], Next(a, DetachBy(c, id)).value.reg.sessions[s])
  {
  }

  lemma FailedSession(a: Agent, t: nat, s: nat)
    requires Known(a) && Next(a, CopyDetach(t)).Some? && s in a.reg.sessions
    requires a.reg.sessions[s].owner.Some? ==> !a.reg.sessions[s].closed && a.reg.Listed(s)
    ensures s in Next(a, CopyDetach(t)).value.reg.sessions
    ensures OwnerMoves(a, CopyDetach(t), s, a.reg.sessions[s], Next(a, CopyDetach(t)).value.reg.sessions[s])
  {
  }

  lemma ReleasedSession(a: Agent, c: nat, s: nat)
    requires Known(a) && Next(a, ReplayRelease(c)).Some? && s in a.reg.sessions
    requires a.reg.sessions[s].owner.Some? ==> !a.reg.sessions[s].closed && a.reg.Listed(s)
    ensures s in Next(a, ReplayRelease(c)).value.reg.sessions
    ensures OwnerMoves(a, ReplayRelease(c), s, a.reg.sessions[s], Next(a, ReplayRelease(c)).value.reg.sessions[s])
  {
  }

  lemma ClosesSession(a: Agent, step: Step, s: nat)
    requires Known(a) && Next(a, step).Some? && s in a.reg.sessions && MayClose(step)
    requires !a.reg.sessions[s].closed ==> a.reg.Listed(s)
    requires a.reg.sessions[s].closed ==> a.reg.sessions[s].owner.None?
    ensures s in Next(a, step).value.reg.sessions
    ensures OwnerMoves(a, step, s, a.reg.sessions[s], Next(a, step).value.reg.sessions[s])
  {
    Closed(a, step, s);
    hide Next;
  }

  lemma Closed(a: Agent, step: Step, s: nat)
    requires Known(a) && Next(a, step).Some? && s in a.reg.sessions && MayClose(step)
    requires !a.reg.sessions[s].closed ==> a.reg.Listed(s)
    ensures s in Next(a, step).value.reg.sessions
    ensures var m := a.reg.sessions[s];
            Next(a, step).value.reg.sessions[s] ==
              if !m.closed && Closes(step, s, m) then m.(closed := true, owner := None) else m
  {
    hide AllFenced;
    hide Without;
    match step
    case Revoke(credential, sessions) => FencedAmong(Revoked(a.reg, credential), sessions, s);
    case Shutdown(sessions) => FencedAmong(ShuttingDown(a.reg), sessions, s);
    case _ =>
  }

  lemma OtherSession(a: Agent, step: Step, s: nat)
    requires Known(a) && Next(a, step).Some? && s in a.reg.sessions && !LetsGo(step) && !MayClose(step)
    requires !a.reg.sessions[s].closed ==> (a.reg.sessions[s].detached <==> a.reg.sessions[s].owner.None?)
    requires a.reg.sessions[s].closed ==> a.reg.sessions[s].owner.None?
    ensures s in Next(a, step).value.reg.sessions
    ensures OwnerMoves(a, step, s, a.reg.sessions[s], Next(a, step).value.reg.sessions[s])
  {
    SameOwner(a, step, s);
    hide Next;
  }

  /** But for a claim on a shell without owner, no other step touches either. */
  lemma SameOwner(a: Agent, step: Step, s: nat)
    requires Known(a) && Next(a, step).Some? && s in a.reg.sessions && !LetsGo(step) && !MayClose(step)
    ensures s in Next(a, step).value.reg.sessions
    ensures var m, n := a.reg.sessions[s], Next(a, step).value.reg.sessions[s];
            n.closed == m.closed && (n.owner == m.owner || (step.BeginReopen? && m.owner.None?))
  {
    if step.BeginReopen? {
      hide Script;
      hide SnapshotOf;
    } else if step.ReplayTurn? {
      hide CaughtUp;
      hide OutputPayloads;
      TurnOwner(a.reg, a.conns[step.c].session.value, step.c, a.conns[step.c].replay.cursor, s);
    } else {
      hide Appended;
      hide MayReopen;
    }
  }

  // ---------- What failures lead to ----------

  /** A live send that fails: under backpressure the shell is read no more, and its close goes through; otherwise the
      owner that was sent to loses the shell, nobody else does, and the reading goes on. */
  lemma {:induction false} FailedSendSettles(steps: seq<Step>, s: nat, sent: Sent)
    requires After(steps).Some? && s in After(steps).value.reg.sessions && s in After(steps).value.copiers
    requires After(steps).value.copiers[s].Sending? && !sent.ok
    ensures sent.backpressure ==>
              && After(steps + [CopySend(s, sent)] + [Fence(s)]).Some?
              && var b := After(steps + [CopySend(s, sent)] + [Fence(s)]).value;
                 && s in b.copiers && b.copiers[s] == Stopped
                 && s in b.reg.sessions && b.reg.sessions[s].closed && b.reg.sessions[s].owner.None?
    ensures !sent.backpressure ==>
              && After(steps + [CopySend(s, sent)] + [CopyDetach(s)]).Some?
              && var a, b := After(steps).value, After(steps + [CopySend(s, sent)] + [CopyDetach(s)]).value;
                 && s in b.copiers && b.copiers[s] == Reading && s in b.reg.sessions
                 && b.reg.sessions[s].closed == a.reg.sessions[s].closed
                 && b.reg.sessions[s].owner ==
                      if a.reg.sessions[s].owner == Some(a.copiers[s].to) then None else a.reg.sessions[s].owner
  {
    hide After;
    hide Inv;
    var a := After(steps).value;
    OneMore(steps, CopySend(s, sent));
    OwnerConn(a, s);
    SendingConn(a, s);
    SendFails(a, s, sent);
    hide Next;
    var b := After(steps + [CopySend(s, sent)]).value;
    if sent.backpressure {
      OneMore(steps + [CopySend(s, sent)], Fence(s));
      FenceNext(b, s);
    } else {
      OneMore(steps + [CopySend(s, sent)], CopyDetach(s));
      DetachNext(b, s);
    }
  }

  lemma SendingConn(a: Agent, s: nat)
    requires Inv(a) && s in a.reg.sessions && s in a.produced && s in a.copiers && a.copiers[s].Sending?
    ensures a.copiers[s].to in a.conns
  {
    hide ConnOk;
    hide LogOk;
    hide Core;
    assert SessionOk(a, s);
  }

  lemma SendFails(a: Agent, s: nat, sent: Sent)
    requires Known(a) && s in a.reg.sessions && a.copiers[s].Sending? && a.copiers[s].to in a.conns && !sent.ok
    ensures Next(a, CopySend(s, sent)).Some?
    ensures var b := Next(a, CopySend(s, sent)).value;
            b.reg == a.reg
            && b.copiers == a.copiers[s := if sent.backpressure then Stopped else SendBroke(a.copiers[s].to)]
  {
  }

  lemma FenceNext(a: Agent, s: nat)
    requires Known(a) && s in a.reg.sessions && (a.reg.sessions[s].closed ==> a.reg.sessions[s].owner.None?)
    ensures Next(a, Fence(s)).Some?
    ensures var b := Next(a, Fence(s)).value;
            b.copiers == a.copiers && s in b.reg.sessions && b.reg.sessions[s].closed && b.reg.sessions[s].owner.None?
  {
    hide Without;
  }

  lemma DetachNext(a: Agent, s: nat)
    requires Known(a) && s in a.reg.sessions && a.copiers[s].SendBroke?
    requires a.reg.sessions[s].owner.Some? ==> !a.reg.sessions[s].closed && a.reg.Listed(s)
    ensures Next(a, CopyDetach(s)).Some?
    ensures var b := Next(a, CopyDetach(s)).value;
            && s in b.copiers && b.copiers[s] == Reading && s in b.reg.sessions
            && b.reg.sessions[s].closed == a.reg.sessions[s].closed
            && b.reg.sessions[s].owner ==
                 if a.reg.sessions[s].owner == Some(a.copiers[s].to) then None else a.reg.sessions[s].owner
  {
  }

  /** A replay frame whose send fails ends the replay, and the claim, if it still holds, is let go; the shell is then
      open and without owner. A replay that finds its claim lost ends without sending. */
  lemma {:induction false} FailedReplaySettles(steps: seq<Step>, c: nat, sent: Sent)
    requires After(steps).Some? && InProgress(After(steps).value, c) && After(steps).value.conns[c].replay.todo != []
    requires After(steps).value.conns[c].replay.cleared && !sent.ok
    ensures After(steps + [ReplaySend(c, sent)] + [ReplayRelease(c)]).Some?
    ensures var s := After(steps).value.conns[c].session.value;
            var b := After(steps + [ReplaySend(c, sent)] + [ReplayRelease(c)]).value;
            c in b.conns && b.conns[c].replay == Idle && Ownerless(b, s)
  {
    hide After;
    hide Inv;
    OneMore(steps, ReplaySend(c, sent));
    OneMore(steps + [ReplaySend(c, sent)], ReplayRelease(c));
  }

  lemma {:induction false} LostReplayEnds(steps: seq<Step>, c: nat)
    requires After(steps).Some? && c in After(steps).value.conns && After(steps).value.conns[c].replay.InReplay?
    requires After(steps).value.conns[c].session.Some? && !InProgress(After(steps).value, c)
    requires !After(steps).value.conns[c].replay.cleared
    ensures var a := After(steps).value;
            var step := if a.conns[c].replay.todo == [] then ReplayTurn(c) else ReplayCheck(c);
            && After(steps + [step]).Some?
            && var b := After(steps + [step]).value;
               c in b.conns && !b.conns[c].replay.InReplay? && b.conns[c].wire == a.conns[c].wire
               && b.reg == a.reg
                  && (b.conns[c].replay == Releasing ==> After(steps + [step] + [ReplayRelease(c)]).Some?)
  {
    hide After;
    hide Inv;
    var a := After(steps).value;
    var step := if a.conns[c].replay.todo == [] then ReplayTurn(c) else ReplayCheck(c);
    Reachable(steps);
    StreamOf(a, c);
    OneMore(steps, step);
    LostNext(a, c, step);
    hide Next;
    OneMore(steps + [step], ReplayRelease(c));
    ReleaseNext(After(steps + [step]).value, c);
  }

  lemma LostNext(a: Agent, c: nat, step: Step)
    requires Known(a) && c in a.conns && a.conns[c].replay.InReplay? && a.conns[c].session.Some?
    requires a.conns[c].session.value in a.reg.sessions && !Holding(a.reg, a.conns[c].session.value, c)
    requires !a.conns[c].replay.cleared && step ==
             if a.conns[c].replay.todo == [] then ReplayTurn(c) else ReplayCheck(c)
    ensures Next(a, step).Some?
    ensures var b := Next(a, step).value;
            && c in b.conns && !b.conns[c].replay.InReplay? && b.conns[c].wire == a.conns[c].wire
            && b.conns[c].session == a.conns[c].session && b.reg == a.reg
  {
    hide Holding;
  }

  lemma ReleaseNext(a: Agent, c: nat)
    requires Known(a) && c in a.conns && a.conns[c].session.Some? && a.conns[c].session.value in a.reg.sessions
    ensures a.conns[c].replay == Releasing ==> Next(a, ReplayRelease(c)).Some?
  {
    hide Released;
  }
}
