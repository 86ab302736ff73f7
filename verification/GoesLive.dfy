/** That replays end well: a claimed shell catches up and goes live. */
module GoesLive {
  import opened Protocol
  import opened Tiling
  import opened OutputLog
  import opened HistoryFrames
  import opened RegistrySteps
  import opened Delivery
  import opened DeliveryInvariant
  import opened DeliveryRuns
  import opened Claims

  /** A turn of the catch-up loop on a claim that still holds: evicted exactly when the history no longer reaches back
      to the cursor, done exactly at the end, and otherwise more, up to the end; never lost and never broken. Done, the
      session is live and nothing else has changed. */
  lemma TurnExact<S, P, C>(r: Registry<S, P, C>, s: S, owner: C, cursor: nat)
    requires s in r.sessions && Holding(r, s, owner) && cursor <= r.sessions[s].nextOffset
    requires Contiguous(Of(r.log, s), r.sessions[s].nextOffset) && NonEmpty(Of(r.log, s))
    ensures var (after, turn) := CaughtUp(r, s, owner, cursor);
            var start, end := StartOf(Of(r.log, s), r.sessions[s].nextOffset), r.sessions[s].nextOffset;
            && (turn.Evicted? <==> cursor < start)
            && (turn.Done? <==> start <= cursor == end)
            && (turn.More? <==> start <= cursor < end)
            && (turn.More? ==> Tile(turn.frames, cursor, end))
            && after == if turn.Done? then r.With(s, r.sessions[s].(replaying := false)) else r
  {
    var mine, end := Of(r.log, s), r.sessions[s].nextOffset;
    RangeExact(mine, cursor, end, end);
    if RangeOf(mine, cursor, end).Some? { RangeTiles(mine, cursor, end); }
    hide RangeOf;
    hide Of;
    hide Contiguous;
    hide Tile;
  }

  // ---------- Runs from any state ----------

  ghost function From(a: Agent, more: seq<Step>): Option<Agent> {
    if more == [] then Some(a)
    else
      match From(a, more[..|more| - 1])
      case None => None
      case Some(before) => if Known(before) then Next(before, more[|more| - 1]) else None
  }

  lemma {:induction false} AfterJoin(steps: seq<Step>, more: seq<Step>)
    requires After(steps).Some?
    ensures After(steps + more) == From(After(steps).value, more)
  {
    hide Next;
    if more == [] {
      assert steps + more == steps;
    } else {
      AfterJoin(steps, more[..|more| - 1]);
      assert (steps + more)[..|steps + more| - 1] == steps + more[..|more| - 1];
    }
  }

  lemma {:induction false} FromJoin(a: Agent, left: seq<Step>, right: seq<Step>)
    requires From(a, left).Some?
    ensures From(a, left + right) == From(From(a, left).value, right)
  {
    hide Next;
    if right == [] {
      assert left + right == left;
    } else {
      FromJoin(a, left, right[..|right| - 1]);
      assert (left + right)[..|left + right| - 1] == left + right[..|right| - 1];
    }
  }

  lemma FromTwo(a: Agent, first: Step, second: Step)
    requires Known(a) && Next(a, first).Some? && Known(Next(a, first).value)
    ensures From(a, [first]) == Next(a, first)
    ensures From(a, [first, second]) == Next(Next(a, first).value, second)
  {
    hide Next;
    assert [first, second][..1] == [first] && [first][..0] == [];
  }

  // ---------- A replay's own steps ----------

  const FINE := Sent(true, true, false)

  /** What the goroutine of a replay does when nothing fails. */
  predicate Own(step: Step, c: nat) {
    step == ReplayCheck(c) || step == ReplaySend(c, FINE) || step == ReplayTurn(c)
  }

  predicate AllOwn(more: seq<Step>, c: nat) {
    forall i | 0 <= i < |more| :: Own(more[i], c)
  }

  lemma AllOwnJoin(left: seq<Step>, right: seq<Step>, c: nat)
    requires AllOwn(left, c) && AllOwn(right, c)
    ensures AllOwn(left + right, c)
  {
  }

  /** The connection's replay is going on and its claim still holds. */
  ghost predicate InProgress(a: Agent, c: nat) {
    && c in a.conns && a.conns[c].replay.InReplay? && a.conns[c].session.Some?
    && a.conns[c].session.value in a.reg.sessions && Holding(a.reg, a.conns[c].session.value, c)
  }

  lemma ReplayFacts(a: Agent, c: nat)
    requires Inv(a) && InProgress(a, c)
    ensures var k := a.conns[c];
            var s := k.session.value;
            && Known(a) && s in a.produced && k.wire + k.replay.todo == k.queued && k.replay.cursor == k.reach
            && k.reach <= |a.produced[s]| == a.reg.sessions[s].nextOffset
            && Contiguous(Of(a.reg.log, s), a.reg.sessions[s].nextOffset) && NonEmpty(Of(a.reg.log, s))
  {
    hide Shape;
    hide Tile;
    hide Shows;
    hide Link;
    ConnOf(a, c);
    Owners(a);
    KeptSession(a, a.conns[c].session.value);
  }

  /** The replay has sent all it had to send. */
  ghost predicate Drained(a: Agent, b: Agent, c: nat)
    requires InProgress(a, c)
  {
    && c in b.conns && b == a.WithConn(c, a.conns[c].(wire := a.conns[c].queued, replay := b.conns[c].replay))
    && b.conns[c].replay.InReplay? && b.conns[c].replay.todo == []
    && b.conns[c].replay.cursor == a.conns[c].replay.cursor
  }

  /** The connection with its next frame sent. */
  ghost function SentOne(k: Conn): Conn
    requires k.replay.InReplay? && k.replay.todo != []
  {
    k.(wire := k.wire + [k.replay.todo[0]], replay := InReplay(k.replay.todo[1..], false, k.replay.cursor))
  }

  lemma CheckNext(a: Agent, c: nat)
    requires Known(a) && InProgress(a, c) && a.conns[c].replay.todo != [] && !a.conns[c].replay.cleared
    ensures Next(a, ReplayCheck(c)) ==
            Some(a.WithConn(c, a.conns[c].(replay := a.conns[c].replay.(cleared := true))))
  {
    hide Holding;
  }

  lemma SendNext(a: Agent, c: nat)
    requires Known(a) && InProgress(a, c) && a.conns[c].replay.todo != [] && a.conns[c].replay.cleared
    ensures Next(a, ReplaySend(c, FINE)) == Some(a.WithConn(c, SentOne(a.conns[c])))
  {
    hide Holding;
  }

  /** One frame goes out. */
  lemma SendOne(a: Agent, c: nat) returns (more: seq<Step>)
    requires Inv(a) && InProgress(a, c) && a.conns[c].replay.todo != []
    ensures AllOwn(more, c) && From(a, more) == Some(a.WithConn(c, SentOne(a.conns[c])))
    ensures Inv(From(a, more).value)
  {
    hide Inv;
    hide Next;
    hide Holding;
    hide From;
    ReplayFacts(a, c);
    if a.conns[c].replay.cleared {
      SendNext(a, c);
      FromOne(a, ReplaySend(c, FINE));
      StepKeeps(a, ReplaySend(c, FINE));
      more := [ReplaySend(c, FINE)];
    } else {
      var checked := a.WithConn(c, a.conns[c].(replay := a.conns[c].replay.(cleared := true)));
      CheckNext(a, c);
      StepKeeps(a, ReplayCheck(c));
      SendNext(checked, c);
      StepKeeps(checked, ReplaySend(c, FINE));
      FromTwo(a, ReplayCheck(c), ReplaySend(c, FINE));
      assert checked.WithConn(c, SentOne(checked.conns[c])) == a.WithConn(c, SentOne(a.conns[c]));
      more := [ReplayCheck(c), ReplaySend(c, FINE)];
    }
  }

  lemma FromOne(a: Agent, step: Step)
    requires Known(a)
    ensures From(a, [step]) == Next(a, step)
  {
    hide Next;
    assert [step][..0] == [];
  }

  lemma {:induction false} Drain(a: Agent, c: nat) returns (more: seq<Step>)
    requires Inv(a) && InProgress(a, c)
    ensures AllOwn(more, c) && From(a, more).Some? && Drained(a, From(a, more).value, c)
    ensures Inv(From(a, more).value)
    decreases |a.conns[c].replay.todo|
  {
    hide Inv;
    hide Known;
    hide Holding;
    ReplayFacts(a, c);
    if a.conns[c].replay.todo == [] {
      more := [];
      assert a.conns[c].wire == a.conns[c].queued;
      assert a.WithConn(c, a.conns[c]) == a;
    } else {
      var first := SendOne(a, c);
      var b := From(a, first).value;
      var rest := Drain(b, c);
      FromJoin(a, first, rest);
      AllOwnJoin(first, rest, c);
      more := first + rest;
    }
  }

  // ---------- Going live ----------

  /** The connection is attached to its open shell, and was handed everything the shell has produced from its start
      on. */
  ghost predicate Live(a: Agent, c: nat) {
    && c in a.conns && a.conns[c].session.Some?
    && var s := a.conns[c].session.value;
       && s in a.reg.sessions && s in a.produced
       && a.reg.sessions[s].owner == Some(c) && !a.reg.sessions[s].replaying && !a.reg.sessions[s].closed
       && a.conns[c].start <= |a.produced[s]| && Delivered(a.conns[c]) == a.produced[s][a.conns[c].start..]
  }

  /** What a replay needs next is still retained. */
  ghost predicate Retained(a: Agent, c: nat)
    requires InProgress(a, c)
  {
    var s := a.conns[c].session.value;
    StartOf(Of(a.reg.log, s), a.reg.sessions[s].nextOffset) <= a.conns[c].replay.cursor
  }

  /** A drained replay whose cursor is at the end goes live with its next turn. */
  lemma LastTurn(a: Agent, c: nat)
    requires Inv(a) && InProgress(a, c) && Retained(a, c) && a.conns[c].replay.todo == []
    requires a.conns[c].replay.cursor == a.reg.sessions[a.conns[c].session.value].nextOffset
    ensures From(a, [ReplayTurn(c)]).Some? && Inv(From(a, [ReplayTurn(c)]).value)
    ensures From(a, [ReplayTurn(c)]).value.produced == a.produced
    ensures Live(From(a, [ReplayTurn(c)]).value, c)
    ensures From(a, [ReplayTurn(c)]).value.conns[c] == a.conns[c].(replay := Idle)
  {
    hide Inv;
    ReplayFacts(a, c);
    var k := a.conns[c];
    var s := k.session.value;
    TurnExact(a.reg, s, c, k.replay.cursor);
    hide CaughtUp;
    var reg := a.reg.With(s, a.reg.sessions[s].(replaying := false));
    assert CaughtUp(a.reg, s, c, k.replay.cursor) == (reg, Done);
    FromOne(a, ReplayTurn(c));
    StepKeeps(a, ReplayTurn(c));
    assert k.wire == k.queued;
    StreamOf(a, c);
    EverythingSent(k, a.reg.sessions[s].id, a.produced[s]);
  }

  /** A drained replay that is behind is given everything up to the end. */
  lemma MoreTurn(a: Agent, c: nat)
    requires Inv(a) && InProgress(a, c) && Retained(a, c) && a.conns[c].replay.todo == []
    requires a.conns[c].replay.cursor < a.reg.sessions[a.conns[c].session.value].nextOffset
    ensures From(a, [ReplayTurn(c)]).Some?
    ensures var b := From(a, [ReplayTurn(c)]).value;
            && Inv(b) && InProgress(b, c) && b.produced == a.produced && b.reg == a.reg
            && b.conns[c].replay.cursor == b.reg.sessions[b.conns[c].session.value].nextOffset
            && b.conns[c].session == a.conns[c].session && b.conns[c].start == a.conns[c].start
  {
    hide Inv;
    ReplayFacts(a, c);
    var k := a.conns[c];
    TurnExact(a.reg, k.session.value, c, k.replay.cursor);
    hide CaughtUp;
    hide Holding;
    hide OutputPayloads;
    FromOne(a, ReplayTurn(c));
    StepKeeps(a, ReplayTurn(c));
  }

  lemma DrainedStays(a: Agent, b: Agent, c: nat)
    requires InProgress(a, c) && Drained(a, b, c)
    ensures InProgress(b, c) && b.reg == a.reg && b.produced == a.produced
    ensures b.conns[c].session == a.conns[c].session && b.conns[c].start == a.conns[c].start
    ensures Retained(b, c) <==> Retained(a, c)
  {
    hide Holding;
    hide StartOf;
    hide Of;
  }

  /** A replay at the end of its shell's output drains and goes live. */
  lemma FinishReplay(a: Agent, c: nat) returns (more: seq<Step>)
    requires Inv(a) && InProgress(a, c) && Retained(a, c)
    requires a.conns[c].replay.cursor == a.reg.sessions[a.conns[c].session.value].nextOffset
    ensures AllOwn(more, c) && From(a, more).Some? && Live(From(a, more).value, c)
    ensures var b := From(a, more).value;
            b.produced == a.produced && b.conns[c].session == a.conns[c].session && b.conns[c].start == a.conns[c].start
  {
    hide Inv;
    hide Live;
    var first := Drain(a, c);
    var b := From(a, first).value;
    DrainedStays(a, b, c);
    LastTurn(b, c);
    FromJoin(a, first, [ReplayTurn(c)]);
    more := first + [ReplayTurn(c)];
  }

  /** If what it needs next is retained, a replay goes live by its own steps. */
  lemma GoLive(a: Agent, c: nat) returns (more: seq<Step>)
    requires Inv(a) && InProgress(a, c) && Retained(a, c)
    ensures AllOwn(more, c) && From(a, more).Some? && Live(From(a, more).value, c)
    ensures var b := From(a, more).value;
            b.produced == a.produced && b.conns[c].session == a.conns[c].session && b.conns[c].start == a.conns[c].start
  {
    hide Inv;
    hide Live;
    hide Holding;
    ReplayFacts(a, c);
    if a.conns[c].replay.cursor == a.reg.sessions[a.conns[c].session.value].nextOffset {
      more := FinishReplay(a, c);
    } else {
      var first := Drain(a, c);
      var b := From(a, first).value;
      DrainedStays(a, b, c);
      MoreTurn(b, c);
      FromJoin(a, first, [ReplayTurn(c)]);
      var d := From(b, [ReplayTurn(c)]).value;
      AtEndRetained(d, c);
      var last := FinishReplay(d, c);
      FromJoin(a, first + [ReplayTurn(c)], last);
      more := first + [ReplayTurn(c)] + last;
    }
  }

  lemma AtEndRetained(a: Agent, c: nat)
    requires Inv(a) && InProgress(a, c)
    requires a.conns[c].replay.cursor == a.reg.sessions[a.conns[c].session.value].nextOffset
    ensures Retained(a, c)
  {
    hide Inv;
    hide Of;
    hide Contiguous;
    hide NonEmpty;
    hide StartOf;
    ReplayFacts(a, c);
    var s := a.conns[c].session.value;
    StartBefore(Of(a.reg.log, s), a.reg.sessions[s].nextOffset);
  }

  lemma StartBefore<S>(mine: seq<Entry<S>>, end: nat)
    requires Contiguous(mine, end)
    ensures StartOf(mine, end) <= end
  {
    FramesTile(mine, end);
    TileOrder(FramesOf(mine), StartOf(mine, end), end);
  }

  /** A replay whose next bytes are gone is told so by its next turn, and its own steps never bring it to life. */
  lemma {:induction false} NeverLive(a: Agent, c: nat, more: seq<Step>)
    requires InProgress(a, c) && !Retained(a, c) && AllOwn(more, c) && From(a, more).Some?
    ensures var b := From(a, more).value;
            && b.reg == a.reg && c in b.conns && b.conns[c].session == a.conns[c].session
            && (b.conns[c].replay == Releasing
                || (b.conns[c].replay.InReplay? && b.conns[c].replay.cursor == a.conns[c].replay.cursor))
  {
    if more != [] {
      NeverLive(a, c, more[..|more| - 1]);
      assert Own(more[|more| - 1], c);
      hide RangeOf;
      hide Of;
    }
  }

  /** In every reachable state a replay whose claim holds can go live by its own steps exactly when what it needs next
      is still retained; the connection is then handed everything from its start to the end. */
  lemma {:induction false} ReplayGoesLive(steps: seq<Step>, c: nat)
    requires After(steps).Some? && InProgress(After(steps).value, c)
    ensures (exists more :: AllOwn(more, c) && After(steps + more).Some? && Live(After(steps + more).value, c))
            <==> Retained(After(steps).value, c)
  {
    hide After;
    hide Inv;
    Reachable(steps);
    var a := After(steps).value;
    if Retained(a, c) {
      var more := GoLive(a, c);
      AfterJoin(steps, more);
    } else {
      forall more | AllOwn(more, c) && After(steps + more).Some? ensures !Live(After(steps + more).value, c) {
        AfterJoin(steps, more);
        NeverLive(a, c, more);
      }
    }
  }

  /** In every reachable state, the turn of a drained replay whose claim holds: it is let go exactly when what it needs
      next is gone, live exactly when it is at the end, and otherwise given pieces that tile the rest. */
  lemma {:induction false} TurnInRuns(steps: seq<Step>, c: nat)
    requires After(steps).Some? && InProgress(After(steps).value, c) && After(steps).value.conns[c].replay.todo == []
    ensures After(steps + [ReplayTurn(c)]).Some? && c in After(steps + [ReplayTurn(c)]).value.conns
    ensures var a, b := After(steps).value, After(steps + [ReplayTurn(c)]).value;
            var s, cursor := a.conns[c].session.value, a.conns[c].replay.cursor;
            var end := a.reg.sessions[s].nextOffset;
            && (b.conns[c].replay == Releasing <==> !Retained(a, c))
            && (b.conns[c].replay == Idle <==> Retained(a, c) && cursor == end)
            && (b.conns[c].replay == Idle ==> Live(b, c))
            && (b.conns[c].replay.InReplay? <==> Retained(a, c) && cursor < end)
            && (b.conns[c].replay.InReplay? ==>
                && b.conns[c].queued == a.conns[c].queued + b.conns[c].replay.todo
                && b.conns[c].replay.cursor == end && Tile(PiecesIn(b.conns[c].replay.todo), cursor, end))
  {
    hide After;
    hide Inv;
    hide Live;
    hide Tile;
    hide Next;
    hide Of;
    hide StartOf;
    hide Holding;
    var a := After(steps).value;
    Reachable(steps);
    AfterJoin(steps, [ReplayTurn(c)]);
    FromOne(a, ReplayTurn(c));
    TurnNext(a, c);
    if Retained(a, c) && a.conns[c].replay.cursor == a.reg.sessions[a.conns[c].session.value].nextOffset {
      LastTurn(a, c);
    }
  }

  lemma TurnNext(a: Agent, c: nat)
    requires Inv(a) && Known(a) && InProgress(a, c) && a.conns[c].replay.todo == []
    ensures Next(a, ReplayTurn(c)).Some? && c in Next(a, ReplayTurn(c)).value.conns
    ensures var b := Next(a, ReplayTurn(c)).value;
            var s, cursor := a.conns[c].session.value, a.conns[c].replay.cursor;
            var end := a.reg.sessions[s].nextOffset;
            && (b.conns[c].replay == Releasing <==> !Retained(a, c))
            && (b.conns[c].replay == Idle <==> Retained(a, c) && cursor == end)
            && (b.conns[c].replay.InReplay? <==> Retained(a, c) && cursor < end)
            && (b.conns[c].replay.InReplay? ==>
                && b.conns[c].queued == a.conns[c].queued + b.conns[c].replay.todo
                && b.conns[c].replay.cursor == end && Tile(PiecesIn(b.conns[c].replay.todo), cursor, end))
  {
    hide Inv;
    hide Holding;
    hide OutputPayloads;
    ReplayFacts(a, c);
    var k := a.conns[c];
    var s := k.session.value;
    TurnExact(a.reg, s, c, k.replay.cursor);
    hide CaughtUp;
    hide Tile;
    var turn := CaughtUp(a.reg, s, c, k.replay.cursor).1;
    if turn.More? {
      OutputPieces(a.reg.sessions[s].id, turn.frames);
    }
  }
}
