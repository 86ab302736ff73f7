/** Who gets a shell: the connection that opened it, and later only connections of the same credential and device. */
module Claims {
  import opened Protocol
  import opened OutputLog
  import opened HistoryFrames
  import opened RegistrySteps
  import opened Delivery
  import opened DeliveryInvariant
  import opened DeliveryRuns

  predicate SameUser(k: Conn, m: Session<nat>) {
    k.credential == m.credential && k.device == m.device
  }

  /** Every connection has the credential and the device of its shell; a claimed shell's device is known. */
  ghost predicate Rightful(a: Agent) {
    && (forall c | c in a.conns && a.conns[c].session.Some? ::
          && a.conns[c].session.value in a.reg.sessions
             && SameUser(a.conns[c], a.reg.sessions[a.conns[c].session.value])
          && (a.conns[c].historyEnd.Some? ==> a.conns[c].device != ""))
    && (forall p | p in a.reg.pending ::
          a.reg.pending[p].owner in a.conns
          && a.reg.pending[p].credential == a.conns[a.reg.pending[p].owner].credential)
  }

  /** Only StartOpen brings an open that waits for its shell. */
  lemma PendingFrom(a: Agent, step: Step, p: nat)
    requires Known(a) && Next(a, step).Some? && p in Next(a, step).value.reg.pending
    ensures if step.StartOpen? && p == step.p then
              step.c in a.conns
              && Next(a, step).value.reg.pending[p] == Pending(step.id, step.c, a.conns[step.c].credential)
            else p in a.reg.pending && Next(a, step).value.reg.pending[p] == a.reg.pending[p]
  {
    hide Appended;
    hide Script;
    hide SnapshotOf;
    hide CaughtUp;
    hide OutputPayloads;
    match step
    case Revoke(credential, sessions) => hide AllFenced; FencedPending(Revoked(a.reg, credential), sessions);
    case Shutdown(sessions) => hide AllFenced; FencedPending(ShuttingDown(a.reg), sessions);
    case ReplayTurn(c) => TurnPending(a.reg, a.conns[c].session.value, c, a.conns[c].replay.cursor);
    case _ =>
  }

  lemma TurnPending(r: Reg, s: nat, c: nat, cursor: nat)
    requires s in r.sessions
    ensures CaughtUp(r, s, c, cursor).0.pending == r.pending
  {
    hide RangeOf;
    hide Of;
  }

  lemma {:induction false} FencedPending(r: Reg, sessions: seq<nat>)
    requires forall s | s in sessions :: s in r.sessions
    ensures AllFenced(r, sessions).pending == r.pending
  {
    if sessions != [] {
      FencedPending(r, sessions[..|sessions| - 1]);
    }
  }

  /** Only a finished open and a claim give a connection its session. */
  lemma SessionFrom(a: Agent, step: Step, c: nat)
    requires Known(a) && Next(a, step).Some? && !step.FinishOpen? && !step.BeginReopen?
    requires c in Next(a, step).value.conns && Next(a, step).value.conns[c].session.Some?
    ensures c in a.conns && a.conns[c].session == Next(a, step).value.conns[c].session
    ensures a.conns[c].historyEnd == Next(a, step).value.conns[c].historyEnd
  {
    hide Appended;
    hide CaughtUp;
    hide OutputPayloads;
    hide AllFenced;
  }

  lemma OpenedRightful(a: Agent, p: nat, s: nat, c: nat)
    requires Known(a) && Rightful(a) && AfterFinishOpen(a, p, s).Some? && s !in a.reg.sessions
    requires c in AfterFinishOpen(a, p, s).value.conns && AfterFinishOpen(a, p, s).value.conns[c].session.Some?
    ensures var b := AfterFinishOpen(a, p, s).value;
            && b.conns[c].session.value in b.reg.sessions
               && SameUser(b.conns[c], b.reg.sessions[b.conns[c].session.value])
            && (b.conns[c].historyEnd.Some? ==>
                  b.conns[c].device != "" || (c == a.reg.pending[p].owner && a.conns[c].historyEnd.Some?))
  {
  }

  lemma ClaimedRightful(a: Agent, d: nat, id: string, c: nat)
    requires Known(a) && Rightful(a) && AfterBeginReopen(a, d, id).Some?
    requires c in AfterBeginReopen(a, d, id).value.conns && AfterBeginReopen(a, d, id).value.conns[c].session.Some?
    ensures var b := AfterBeginReopen(a, d, id).value;
            && b.conns[c].session.value in b.reg.sessions
               && SameUser(b.conns[c], b.reg.sessions[b.conns[c].session.value])
            && (b.conns[c].historyEnd.Some? ==> b.conns[c].device != "")
  {
    hide Script;
    hide SnapshotOf;
  }

  lemma Unclaimed(a: Agent, p: nat)
    requires Inv(a) && p in a.reg.pending
    ensures a.reg.pending[p].owner in a.conns && a.conns[a.reg.pending[p].owner].historyEnd.None?
  {
    hide SessionOk;
    hide LogOk;
    hide Stream;
    assert ConnOk(a.conns[a.reg.pending[p].owner], a.reg.sessions, a.produced);
  }

  lemma StepRightful(a: Agent, step: Step)
    requires Inv(a) && Known(a) && Rightful(a) && Next(a, step).Some?
    ensures Rightful(Next(a, step).value)
  {
    hide Inv;
    var b := Next(a, step).value;
    StepExtends(a, step);
    forall c | c in b.conns && b.conns[c].session.Some?
      ensures b.conns[c].session.value in b.reg.sessions
      ensures SameUser(b.conns[c], b.reg.sessions[b.conns[c].session.value])
      ensures b.conns[c].historyEnd.Some? ==> b.conns[c].device != ""
    {
      if step.FinishOpen? {
        Unclaimed(a, step.p);
        OpenedRightful(a, step.p, step.s, c);
      } else if step.BeginReopen? {
        ClaimedRightful(a, step.c, step.id, c);
      } else {
        SessionFrom(a, step, c);
      }
    }
    hide Next;
    forall p | p in b.reg.pending
      ensures b.reg.pending[p].owner in b.conns
      ensures b.reg.pending[p].credential == b.conns[b.reg.pending[p].owner].credential
    {
      PendingFrom(a, step, p);
    }
  }

  lemma {:induction false} AlwaysRightful(steps: seq<Step>)
    requires After(steps).Some?
    ensures Rightful(After(steps).value)
  {
    if steps != [] {
      hide Inv;
      hide Next;
      hide Rightful;
      var front := steps[..|steps| - 1];
      AlwaysRightful(front);
      Reachable(front);
      StepRightful(After(front).value, steps[|steps| - 1]);
    }
  }

  /** In every reachable state: whoever owns a shell, and whoever was ever handed anything of it, has the credential and
      the device it was opened with; for a claimed shell that device is known. */
  lemma {:induction false} OnlyItsUser(steps: seq<Step>, c: nat)
    requires After(steps).Some? && c in After(steps).value.conns
    ensures var a := After(steps).value;
            && (forall s | s in a.reg.sessions && a.reg.sessions[s].owner == Some(c) :: a.conns[c].session == Some(s))
            && (a.conns[c].wire != [] || a.conns[c].queued != [] ==> a.conns[c].session.Some?)
            && (a.conns[c].session.Some? ==>
                && a.conns[c].session.value in a.reg.sessions
                && a.reg.sessions[a.conns[c].session.value].credential == a.conns[c].credential
                && a.reg.sessions[a.conns[c].session.value].device == a.conns[c].device
                && (a.conns[c].historyEnd.Some? ==> a.conns[c].device != ""))
  {
    hide After;
    var a := After(steps).value;
    AlwaysRightful(steps);
    Reachable(steps);
    Unasked(a, c);
    forall s | s in a.reg.sessions && a.reg.sessions[s].owner == Some(c) ensures a.conns[c].session == Some(s) {
      OwnerConn(a, s);
    }
  }

  lemma OwnerConn(a: Agent, s: nat)
    requires Inv(a) && s in a.reg.sessions && s in a.produced && s in a.copiers
    ensures var m := a.reg.sessions[s];
            && (m.owner.Some? ==>
                && !m.closed && a.reg.Listed(s) && !m.detached
                && m.owner.value in a.conns && a.conns[m.owner.value].session == Some(s))
            && (!m.closed ==> a.reg.Listed(s) && (m.detached <==> m.owner.None?) && (m.replaying ==> m.owner.Some?))
  {
    hide ConnOk;
    hide LogOk;
    hide Suffix;
    assert SessionOk(a, s);
  }

  // ---------- A rightful claim succeeds ----------

  /** A connection may still ask for a session. */
  predicate MayAsk(a: Agent, c: nat) {
    c in a.conns && !a.conns[c].asked && !a.conns[c].done
  }

  /** An open shell that nobody owns. */
  predicate Ownerless(a: Agent, s: nat) {
    s in a.reg.sessions && !a.reg.sessions[s].closed && a.reg.sessions[s].owner.None?
  }

  /** In every reachable state a claim goes through exactly when the connection may ask, and the id is that of an open
      shell without owner that has its credential and its known device; nobody is ever locked out of their shell. */
  lemma {:induction false} ClaimExact(steps: seq<Step>, c: nat, id: string)
    requires After(steps).Some?
    ensures var a := After(steps).value;
            After(steps + [BeginReopen(c, id)]).Some? <==>
              MayAsk(a, c) && a.conns[c].device != ""
              && exists s :: Ownerless(a, s) && a.reg.sessions[s].id == id && SameUser(a.conns[c], a.reg.sessions[s])
  {
    hide AfterBeginReopen;
    assert (steps + [BeginReopen(c, id)])[..|steps|] == steps;
    Reachable(steps);
    ClaimAt(After(steps).value, c, id);
  }

  lemma ClaimAt(a: Agent, c: nat, id: string)
    requires Inv(a) && Known(a)
    ensures AfterBeginReopen(a, c, id).Some? <==>
              MayAsk(a, c) && a.conns[c].device != ""
              && exists s :: Ownerless(a, s) && a.reg.sessions[s].id == id && SameUser(a.conns[c], a.reg.sessions[s])
  {
    ListedAt(a, id);
    hide Inv;
    hide Script;
    hide SnapshotOf;
    if AfterBeginReopen(a, c, id).Some? {
      assert Ownerless(a, a.reg.active[id]);
    } else if exists s :: Ownerless(a, s) && a.reg.sessions[s].id == id {
      var s :| Ownerless(a, s) && a.reg.sessions[s].id == id;
      OwnerConn(a, s);
    }
  }

  /** What stands in the table under an id. */
  lemma ListedAt(a: Agent, id: string)
    requires Inv(a) && Known(a)
    ensures id in a.reg.active ==>
              var s := a.reg.active[id];
              var m := a.reg.sessions[s];
              && m.id == id
              && (!m.closed ==> !a.reg.shuttingDown && m.credential !in a.reg.revoked)
              && (!m.closed ==> a.reg.Listed(s) && (m.detached <==> m.owner.None?) && (m.replaying ==> m.owner.Some?))
  {
    hide ConnOk;
    hide LogOk;
    hide SessionOk;
    if id in a.reg.active { OwnerConn(a, a.reg.active[id]); }
  }
}
