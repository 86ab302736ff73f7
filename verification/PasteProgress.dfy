/** What pasting and typing are for: keys and chunks that nothing disturbs reach the wire, and Control-C ends a
    paste. */
module PasteProgress {
  import opened Protocol
  import opened Paste
  import opened PasteRuns
  import opened Utf8

  lemma RunOne(moves: seq<Move>, move: Move)
    requires Run(moves).Some?
    ensures Run(moves + [move]) == Next(Run(moves).value, move)
  {
    hide Next;
    assert (moves + [move])[..|moves|] == moves;
  }

  // ---------- Keys ----------

  /** Over every run: while a paste goes on every key but Control-C is ignored; Control-C ends the paste whatever comes
      of the key, and like any key pressed without a paste it is queued exactly if it is admitted on a connected
      page. */
  lemma {:induction false} KeysExact(moves: seq<Move>, interrupt: bool, admitted: bool)
    requires Run(moves).Some?
    ensures Run(moves + [Press(interrupt, admitted)]).Some?
    ensures var s, n := Run(moves).value, Run(moves + [Press(interrupt, admitted)]).value;
            && (s.current.Some? && !interrupt ==> n == s)
            && (s.current.None? || interrupt ==>
                && n.current.None? && n.pastes == s.pastes && n.wire == s.wire
                && if s.connected && admitted then
                     && n.submitted == s.submitted + [Item(s.work, Key(interrupt, s.current))]
                     && n.queue == s.queue + [|s.submitted|]
                   else n.submitted == s.submitted && n.queue == s.queue)
  {
    hide Run;
    RunOne(moves, Press(interrupt, admitted));
  }

  /** The paste has been begun, and is not the one that goes on. */
  predicate Ceased(s: State, p: nat) {
    p < |s.pastes| && s.current != Some(p)
  }

  /** A paste that no longer goes on, by Control-C or otherwise, never sends another chunk. */
  lemma {:induction false} CeasedForGood(moves: seq<Move>, p: nat, more: seq<Move>)
    requires Run(moves).Some? && Ceased(Run(moves).value, p) && Run(moves + more).Some?
    ensures Ceased(Run(moves + more).value, p)
    ensures Run(moves + more).value.pastes[p].next == Run(moves).value.pastes[p].next
    ensures forall i: nat, k: nat | ChunkAt(Run(moves + more).value.submitted, i, p, k) ::
              k < Run(moves).value.pastes[p].next
  {
    hide Next;
    if more == [] {
      assert moves + more == moves;
    } else {
      var front := moves + more[..|more| - 1];
      assert (moves + more)[..|moves + more| - 1] == front;
      CeasedForGood(moves, p, more[..|more| - 1]);
      CeasedStep(Run(front).value, more[|more| - 1], p);
    }
    RunKeeps(moves + more);
    ChunksBegun(Run(moves + more).value, p);
  }

  lemma CeasedStep(s: State, move: Move, p: nat)
    requires Ceased(s, p) && Next(s, move).Some?
    ensures Ceased(Next(s, move).value, p) && Next(s, move).value.pastes[p].next == s.pastes[p].next
  {
  }

  lemma ChunksBegun(s: State, p: nat)
    requires Inv(s) && p < |s.pastes|
    ensures forall i: nat, k: nat | ChunkAt(s.submitted, i, p, k) :: k < s.pastes[p].next
  {
    hide Ordered;
    hide Holds;
    hide Cancelled;
    hide Phases;
    hide Adjacent;
  }

  // ---------- The queue is worked off ----------

  /** The first in the queue has its turn: a frame of the present connection that the socket takes is the next on the
      wire, any other is gone without a trace; and the paste that waits for it learns which. */
  lemma FirstTurn(moves: seq<Move>, sent: bool)
    requires Run(moves).Some? && Run(moves).value.queue != []
    ensures Run(moves + [Turn(0, sent)]).Some?
    ensures var s, n := Run(moves).value, Run(moves + [Turn(0, sent)]).value;
            var place := s.queue[0];
            && place < |s.submitted| && n.queue == s.queue[1..] && n.submitted == s.submitted
            && var live := s.submitted[place].work == s.work;
            && n.wire == (if live && sent then s.wire + [OnWire(place, s.work)] else s.wire)
            && n.current == s.current && n.connected == s.connected && n.work == s.work && |n.pastes| == |s.pastes|
            && (forall p: nat | p < |s.pastes|
                && !(s.submitted[place].source.Chunk? && s.submitted[place].source.paste == p) ::
                  n.pastes[p] == s.pastes[p])
            && (s.submitted[place].source.Chunk? && s.submitted[place].source.paste < |s.pastes| ==>
                n.pastes[s.submitted[place].source.paste] ==
                  s.pastes[s.submitted[place].source.paste].(phase := Back(!live || sent)))
  {
    hide Run;
    RunOne(moves, Turn(0, sent));
    RunKeeps(moves);
    QueuedPlaces(Run(moves).value);
    hide Inv;
    var s := Run(moves).value;
    assert s.queue[0] in s.queue;
    assert s.queue[..0] + s.queue[1..] == s.queue[1..];
  }

  lemma QueuedPlaces(s: State)
    requires Inv(s)
    ensures forall a | a in s.queue :: a < |s.submitted|
  {
    hide Blocks;
    hide Holds;
    hide Cancelled;
    hide Phases;
    hide Adjacent;
    hide WorkOrder;
    hide WireOrder;
    hide Increasing;
  }

  predicate Turns(more: seq<Move>) {
    forall i | 0 <= i < |more| :: more[i] == Turn(0, true)
  }

  /** Turns alone work the queue off, and everything queued for the present connection is then on the wire. */
  lemma {:induction false} QueueDrains(moves: seq<Move>) returns (more: seq<Move>)
    requires Run(moves).Some?
    ensures Turns(more) && Run(moves + more).Some?
    ensures var s, n := Run(moves).value, Run(moves + more).value;
            && n.queue == [] && n.submitted == s.submitted && n.current == s.current && n.connected == s.connected
            && n.work == s.work && |n.pastes| == |s.pastes| && s.wire <= n.wire
            && forall a | a in s.queue && a < |s.submitted| && s.submitted[a].work == s.work :: Wired(n.wire, a)
    decreases |Run(moves).value.queue|
  {
    hide Run;
    hide Inv;
    hide Wired;
    var s := Run(moves).value;
    if s.queue == [] {
      more := [];
      assert moves + more == moves;
    } else {
      FirstTurn(moves, true);
      var front := moves + [Turn(0, true)];
      var rest := QueueDrains(front);
      assert front + rest == moves + ([Turn(0, true)] + rest);
      more := [Turn(0, true)] + rest;
      var n := Run(moves + more).value;
      if s.submitted[s.queue[0]].work == s.work {
        WiredStays(Run(front).value.wire, n.wire, s.queue[0]);
      }
      forall a | a in s.queue && a < |s.submitted| && s.submitted[a].work == s.work ensures Wired(n.wire, a) {
        if a != s.queue[0] { assert a in s.queue[1..]; }
      }
    }
  }

  lemma WiredStays(early: seq<OnWire>, late: seq<OnWire>, place: nat)
    requires early <= late && early != [] && early[|early| - 1].place == place
    ensures Wired(late, place)
  {
    assert late[|early| - 1].place == place;
  }

  // ---------- A paste goes through ----------

  /** The paste holds pasteOperation with its first k chunks sent, and nothing is queued. */
  predicate Underway(s: State, p: nat, chunks: seq<seq<Byte>>, k: nat) {
    && s.current == Some(p) && p < |s.pastes| && s.pastes[p] == PasteRun(chunks, s.work, k, Poised)
    && s.connected && s.queue == []
  }

  lemma OneChunk(moves: seq<Move>, p: nat, chunks: seq<seq<Byte>>, k: nat)
    requires Run(moves).Some? && k < |chunks| && Underway(Run(moves).value, p, chunks, k)
    ensures var all := moves + [SendChunk(p, true), Turn(0, true), Look(p)];
            Run(all).Some? && Underway(Run(all).value, p, chunks, k + 1)
  {
    hide Run;
    hide Inv;
    var s := Run(moves).value;
    RunOne(moves, SendChunk(p, true));
    var sent := moves + [SendChunk(p, true)];
    FirstTurn(sent, true);
    var turned := sent + [Turn(0, true)];
    RunOne(turned, Look(p));
    assert turned + [Look(p)] == moves + [SendChunk(p, true), Turn(0, true), Look(p)];
  }

  lemma {:induction false} AllChunks(moves: seq<Move>, p: nat, chunks: seq<seq<Byte>>, k: nat) returns (more: seq<Move>)
    requires Run(moves).Some? && k <= |chunks| && Underway(Run(moves).value, p, chunks, k)
    ensures Run(moves + more).Some? && Underway(Run(moves + more).value, p, chunks, |chunks|)
    ensures |more| == 3 * (|chunks| - k)
    decreases |chunks| - k
  {
    hide Run;
    hide Underway;
    if k == |chunks| {
      more := [];
      assert moves + more == moves;
    } else {
      OneChunk(moves, p, chunks, k);
      var first := [SendChunk(p, true), Turn(0, true), Look(p)];
      var rest := AllChunks(moves + first, p, chunks, k + 1);
      assert moves + first + rest == moves + (first + rest);
      more := first + rest;
    }
  }

  /** All of a paste that has sent its last chunk is on the wire. */
  lemma AllCarried(moves: seq<Move>, p: nat, chunks: seq<seq<Byte>>)
    requires Run(moves).Some? && Underway(Run(moves).value, p, chunks, |chunks|)
    ensures var s := Run(moves).value; p < |s.pastes| && Carried(s, p, |s.wire|) == Joined(chunks)
  {
    hide Run;
    hide Carried;
    RunKeeps(moves);
    var s := Run(moves).value;
    if chunks == [] {
      hide Inv;
      hide Joined;
      var m := CarriedChunks(s, p, |s.wire|);
      assert chunks[..m] == chunks;
    } else {
      var x := LastWired(s, p);
      hide Inv;
      CarriedUpTo(s, x, p, |chunks| - 1);
      assert chunks[..|chunks|] == chunks;
      var m := CarriedChunks(s, p, |s.wire|);
      CarriedGrows(s, p, x + 1, |s.wire|);
      FirstChunks(chunks, m);
    }
  }

  lemma LastWired(s: State, p: nat) returns (x: nat)
    requires Inv(s) && s.current == Some(p) && p < |s.pastes| && s.pastes[p].phase == Poised && s.pastes[p].next > 0
    ensures x < |s.wire| && ChunkAt(s.submitted, s.wire[x].place, p, s.pastes[p].next - 1)
  {
    hide Ordered;
    hide Blocks;
    hide Cancelled;
    hide Adjacent;
    assert Wired(s.wire, |s.submitted| - 1);
    x :| 0 <= x < |s.wire| && s.wire[x].place == |s.submitted| - 1;
  }

  /** From every reachable state on a connected page where no paste goes on: a paste that nothing disturbs is carried in
      full. */
  lemma {:induction false} PasteGoesThrough(moves: seq<Move>, chunks: seq<seq<Byte>>) returns (more: seq<Move>)
    requires Run(moves).Some? && Run(moves).value.connected && Run(moves).value.current.None?
    ensures Run(moves + more).Some?
    ensures var p, n := |Run(moves).value.pastes|, Run(moves + more).value;
            && p < |n.pastes| && n.pastes[p].chunks == chunks && Carried(n, p, |n.wire|) == Joined(chunks)
            && n.pastes[p].phase == Over && n.current.None? && n.connected
  {
    hide Run;
    hide Carried;
    hide Inv;
    var p := |Run(moves).value.pastes|;
    var first := QueueDrains(moves);
    RunOne(moves + first, Begin(chunks));
    var begun := moves + first + [Begin(chunks)];
    var rest := AllChunks(begun, p, chunks, 0);
    assert begun + rest == moves + (first + [Begin(chunks)] + rest);
    more := first + [Begin(chunks)] + rest;
    AllCarried(moves + more, p, chunks);
    var s := Run(moves + more).value;
    RunOne(moves + more, GiveUp(p));
    CarriedSame(s, Ended(s, p), p, |s.wire|);
    assert moves + more + [GiveUp(p)] == moves + (more + [GiveUp(p)]);
    more := more + [GiveUp(p)];
  }

  lemma {:induction false} CarriedSame(s: State, n: State, p: nat, m: nat)
    requires p < |s.pastes| && p < |n.pastes| && n.pastes[p].chunks == s.pastes[p].chunks
    requires n.wire == s.wire && n.submitted == s.submitted && m <= |s.wire|
    ensures Carried(n, p, m) == Carried(s, p, m)
  {
    if m > 0 { CarriedSame(s, n, p, m - 1); }
  }

  /** The moves by which the paste that goes on stops: it is over or fails, Control-C, or a new connection. */
  predicate Stops(s: State, move: Move, p: nat)
    requires p < |s.pastes|
  {
    match move
    case Connect => true
    case Press(interrupt, _) => interrupt
    case SendChunk(q, admitted) => q == p && !admitted
    case GiveUp(q) => q == p
    case Look(q) => q == p && !(s.pastes[p].phase == Back(true) && s.Current(p))
    case _ => false
  }

  /** In every reachable state the paste that goes on, goes on until one of these moves; no other paste, and no end of
      another, takes its place. */
  lemma {:induction false} GoesOnUntil(moves: seq<Move>, move: Move, p: nat)
    requires Run(moves).Some? && Run(moves).value.current == Some(p) && Run(moves + [move]).Some?
    ensures p < |Run(moves).value.pastes|
    ensures Run(moves + [move]).value.current == if Stops(Run(moves).value, move, p) then None else Some(p)
  {
    hide Run;
    RunKeeps(moves);
    CurrentBegun(Run(moves).value);
    hide Inv;
    RunOne(moves, move);
  }

  lemma CurrentBegun(s: State)
    requires Inv(s)
    ensures s.current.Some? ==> s.current.value < |s.pastes|
  {
    hide Ordered;
    hide Blocks;
    hide Cancelled;
    hide Phases;
    hide Adjacent;
  }
}
