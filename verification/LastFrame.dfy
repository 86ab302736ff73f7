/** What a connection may still be handed once its shell is no longer its own: the one frame whose send is under way. */
module LastFrame {
  import opened Protocol
  import opened OutputLog
  import opened HistoryFrames
  import opened RegistrySteps
  import opened Delivery
  import opened DeliveryInvariant
  import opened DeliveryRuns
  import opened Claims
  import opened GoesLive
  import opened Service

  /** The connection had shell s, and is not its owner any more. */
  predicate Lost(a: Agent, c: nat, s: nat) {
    && c in a.conns && a.conns[c].session == Some(s)
    && s in a.reg.sessions && a.reg.sessions[s].owner != Some(c)
  }

  /** Frames that are past their last check: of the replay, and of the shell's output. */
  function UnderWay(a: Agent, c: nat, s: nat): nat
    requires c in a.conns && s in a.copiers
  {
    (if a.conns[c].replay.InReplay? && a.conns[c].replay.cleared then 1 else 0)
    + (if a.copiers[s].Sending? && a.copiers[s].to == c then 1 else 0)
  }

  /** What the connection was handed, and what is under way. */
  function Handed(a: Agent, c: nat, s: nat): nat
    requires c in a.conns && s in a.copiers
  {
    |a.conns[c].wire| + UnderWay(a, c, s)
  }

  ghost predicate NoMore(a: Agent, b: Agent, c: nat, s: nat)
    requires c in a.conns && s in a.copiers
  {
    Lost(b, c, s) && s in b.copiers && Handed(b, c, s) <= Handed(a, c, s)
  }

  lemma CopierConn(a: Agent, t: nat)
    requires Inv(a) && t in a.reg.sessions && t in a.produced && t in a.copiers
    ensures a.copiers[t].Sending? ==>
              && a.copiers[t].to in a.conns && a.conns[a.copiers[t].to].session == Some(t)
              && a.conns[a.copiers[t].to].replay == Idle
    ensures a.reg.sessions[t].owner.Some? ==>
              a.reg.sessions[t].owner.value in a.conns && a.conns[a.reg.sessions[t].owner.value].session == Some(t)
  {
    hide ConnOk;
    hide LogOk;
    hide Core;
    assert SessionOk(a, t);
  }

  lemma AskedConn(a: Agent, c: nat)
    requires Inv(a) && c in a.conns && a.conns[c].session.Some?
    ensures a.conns[c].asked
    ensures forall p | p in a.reg.pending :: a.reg.pending[p].owner != c
  {
    hide SessionOk;
    hide LogOk;
    hide Stream;
    assert ConnOk(a.conns[c], a.reg.sessions, a.produced);
  }

  lemma ReplayStep(a: Agent, step: Step, c: nat, s: nat)
    requires Inv(a) && Known(a) && Lost(a, c, s) && Next(a, step).Some?
    requires step.ReplayCheck? || step.ReplaySend? || step.ReplayRelease? || step.ResizeFailed?
    ensures NoMore(a, Next(a, step).value, c, s)
  {
    hide Inv;
  }

  lemma TurnStep(a: Agent, d: nat, c: nat, s: nat)
    requires Known(a) && Lost(a, c, s) && Next(a, ReplayTurn(d)).Some?
    ensures NoMore(a, Next(a, ReplayTurn(d)).value, c, s)
  {
    hide OutputPayloads;
    TurnOwner(a.reg, a.conns[d].session.value, d, a.conns[d].replay.cursor, s);
    if d != c { hide CaughtUp; }
  }

  lemma ReadStep(a: Agent, t: nat, data: seq<Byte>, c: nat, s: nat)
    requires Known(a) && Lost(a, c, s) && Next(a, CopyRead(t, data)).Some?
    requires a.reg.sessions[t].owner.Some? ==>
               a.reg.sessions[t].owner.value in a.conns && a.conns[a.reg.sessions[t].owner.value].session == Some(t)
    ensures NoMore(a, Next(a, CopyRead(t, data)).value, c, s)
  {
    hide Appended;
  }

  lemma SendStep(a: Agent, t: nat, sent: Sent, c: nat, s: nat)
    requires Known(a) && Lost(a, c, s) && Next(a, CopySend(t, sent)).Some?
    requires a.copiers[t].Sending? ==> a.copiers[t].to in a.conns && a.conns[a.copiers[t].to].session == Some(t)
    ensures NoMore(a, Next(a, CopySend(t, sent)).value, c, s)
  {
  }

  lemma FailStep(a: Agent, t: nat, c: nat, s: nat)
    requires Known(a) && Lost(a, c, s) && Next(a, CopyDetach(t)).Some?
    ensures NoMore(a, Next(a, CopyDetach(t)).value, c, s)
  {
  }

  lemma FencesStep(a: Agent, step: Step, c: nat, s: nat)
    requires Known(a) && Lost(a, c, s) && Next(a, step).Some? && MayClose(step)
    ensures NoMore(a, Next(a, step).value, c, s)
  {
    hide AllFenced;
    hide Without;
    match step
    case Revoke(credential, sessions) => FencedAmong(Revoked(a.reg, credential), sessions, s);
    case Shutdown(sessions) => FencedAmong(ShuttingDown(a.reg), sessions, s);
    case _ =>
  }

  lemma StartStep(a: Agent, d: nat, p: nat, id: string, c: nat, s: nat)
    requires Known(a) && Lost(a, c, s) && Next(a, StartOpen(d, p, id)).Some?
    ensures NoMore(a, Next(a, StartOpen(d, p, id)).value, c, s)
  {
  }

  lemma OpenStep(a: Agent, p: nat, t: nat, c: nat, s: nat)
    requires Known(a) && Lost(a, c, s) && Next(a, FinishOpen(p, t)).Some? && a.reg.pending[p].owner != c
    ensures NoMore(a, Next(a, FinishOpen(p, t)).value, c, s)
  {
  }

  lemma ClaimStep(a: Agent, d: nat, id: string, c: nat, s: nat)
    requires Known(a) && Lost(a, c, s) && Next(a, BeginReopen(d, id)).Some? && a.conns[c].asked
    ensures NoMore(a, Next(a, BeginReopen(d, id)).value, c, s)
  {
    hide Script;
    hide SnapshotOf;
  }

  lemma OtherStep(a: Agent, step: Step, c: nat, s: nat)
    requires Known(a) && Lost(a, c, s) && Next(a, step).Some?
    requires step.Connect? || step.MarkDone? || step.Disconnect? || step.AbortOpen? || step.DetachBy? || step.Unlist?
    ensures NoMore(a, Next(a, step).value, c, s)
  {
  }

  lemma StepLost(a: Agent, step: Step, c: nat, s: nat)
    requires Inv(a) && Known(a) && Lost(a, c, s) && Next(a, step).Some?
    ensures NoMore(a, Next(a, step).value, c, s)
  {
    AskedConn(a, c);
    hide Inv;
    hide Next;
    hide NoMore;
    match step
    case ReplayCheck(_) => ReplayStep(a, step, c, s);
    case ReplaySend(_, _) => ReplayStep(a, step, c, s);
    case ReplayRelease(_) => ReplayStep(a, step, c, s);
    case ResizeFailed(_) => ReplayStep(a, step, c, s);
    case ReplayTurn(d) => TurnStep(a, d, c, s);
    case CopyRead(t, data) => CopierKnown(a, step, t); CopierConn(a, t); ReadStep(a, t, data, c, s);
    case CopySend(t, sent) => CopierKnown(a, step, t); CopierConn(a, t); SendStep(a, t, sent, c, s);
    case CopyDetach(t) => FailStep(a, t, c, s);
    case Fence(_) => FencesStep(a, step, c, s);
    case Revoke(_, _) => FencesStep(a, step, c, s);
    case Shutdown(_) => FencesStep(a, step, c, s);
    case StartOpen(d, p, id) => StartStep(a, d, p, id, c, s);
    case FinishOpen(p, t) => OpenKnown(a, p, t); OpenStep(a, p, t, c, s);
    case BeginReopen(d, id) => ClaimStep(a, d, id, c, s);
    case _ => OtherStep(a, step, c, s);
  }

  lemma OpenKnown(a: Agent, p: nat, t: nat)
    requires Known(a) && Next(a, FinishOpen(p, t)).Some?
    ensures p in a.reg.pending
  {
  }

  lemma CopierKnown(a: Agent, step: Step, t: nat)
    requires Known(a) && Next(a, step).Some?
    requires (step.CopyRead? && step.s == t) || (step.CopySend? && step.s == t)
    ensures t in a.reg.sessions
  {
  }

  lemma {:induction false} LostForGood(a: Agent, c: nat, s: nat, more: seq<Step>)
    requires Inv(a) && Known(a) && Lost(a, c, s) && From(a, more).Some?
    ensures Inv(From(a, more).value) && Known(From(a, more).value) && NoMore(a, From(a, more).value, c, s)
  {
    hide Inv;
    hide Next;
    if more != [] {
      var front := more[..|more| - 1];
      LostForGood(a, c, s, front);
      var b := From(a, front).value;
      StepLost(b, more[|more| - 1], c, s);
      StepKeeps(b, more[|more| - 1]);
      Owners(From(a, more).value);
    }
  }

  lemma OneUnderWay(a: Agent, c: nat, s: nat)
    requires Inv(a) && Known(a) && Lost(a, c, s)
    ensures UnderWay(a, c, s) <= 1
  {
    CopierConn(a, s);
    hide Inv;
  }

  /** Once a connection is not the owner of its shell any more, by whatever step that came about, it never becomes the
      owner again, and whatever happens it is handed at most one further frame: one that had passed its last check
      before. */
  lemma {:induction false} OneFrameAtMost(steps: seq<Step>, c: nat, s: nat, more: seq<Step>)
    requires After(steps).Some? && Lost(After(steps).value, c, s) && After(steps + more).Some?
    ensures var a, b := After(steps).value, After(steps + more).value;
            && Lost(b, c, s) && s in a.copiers && |b.conns[c].wire| <= |a.conns[c].wire| + UnderWay(a, c, s)
            && UnderWay(a, c, s) <= 1
  {
    hide After;
    hide Inv;
    Reachable(steps);
    AfterJoin(steps, more);
    LostForGood(After(steps).value, c, s, more);
    OneUnderWay(After(steps).value, c, s);
  }
}
