/** What a paste leaves on the wire, whatever else happens. */
module PasteRuns {
  import opened Protocol
  import opened Paste
  import opened Utf8

  lemma ConnectKeeps(s: State, current: Option<nat>, connected: bool, work: nat)
    requires Inv(s) && (current == s.current || current == None) && work >= s.work
    ensures Inv(s.(work := work, connected := connected, current := current))
  {
  }

  lemma BeginKeeps(s: State, chunks: seq<seq<Byte>>)
    requires Inv(s)
    ensures Inv(AfterBegin(s, chunks).value)
  {
  }

  lemma EndKeeps(s: State, p: nat)
    requires Inv(s) && p < |s.pastes| && !s.pastes[p].phase.Waiting?
    ensures Inv(Ended(s, p))
  {
  }

  lemma LookKeeps(s: State, p: nat)
    requires Inv(s) && AfterLook(s, p).Some?
    ensures Inv(AfterLook(s, p).value)
  {
    if !(s.pastes[p].phase.sent && s.Current(p)) {
      EndKeeps(s, p);
    }
  }

  // ---------- A key is admitted ----------

  lemma PressKeeps(s: State, interrupt: bool, admitted: bool)
    requires Inv(s)
    ensures Inv(AfterPress(s, interrupt, admitted).value)
  {
    if s.current.Some? && !interrupt {
    } else {
      ConnectKeeps(s, None, s.connected, s.work);
      var idle := s.(current := None);
      if s.connected && admitted {
        KeyKeeps(idle, interrupt, s.current, |s.pastes|);
      }
    }
  }

  /** Admitting a frame leaves the order and what is on the wire alone. */
  lemma EnqueueOrdered(s: State, source: Source)
    requires Ordered(s)
    ensures Ordered(s.Enqueued(source))
  {
    var n := s.Enqueued(source);
    assert forall a :: a in n.queue <==> a in s.queue || a == |s.submitted|;
    assert forall q | 0 <= q < |s.queue| :: s.queue[q] in s.queue;
  }

  lemma ChunkAppend(submitted: seq<Item>, item: Item)
    ensures forall i: nat, p: nat, k: nat ::
              ChunkAt(submitted + [item], i, p, k) <==>
              ChunkAt(submitted, i, p, k) || (i == |submitted| && item.source == Chunk(p, k))
  {
  }

  lemma EnqueueAdjacent(s: State, source: Source)
    requires Adjacent(s) && Ordered(s)
    ensures Adjacent(s.Enqueued(source))
  {
    ChunkAppend(s.submitted, Item(s.work, source));
  }

  lemma KeyKeeps(s: State, interrupt: bool, cancelled: Option<nat>, n: nat)
    requires Inv(s) && s.current.None? && n == |s.pastes| && (cancelled.Some? ==> cancelled.value < n)
    ensures Inv(s.Enqueued(Key(interrupt, cancelled)))
  {
    var source := Key(interrupt, cancelled);
    EnqueueOrdered(s, source);
    EnqueueAdjacent(s, source);
    KeyPhases(s, interrupt, cancelled);
    ChunkAppend(s.submitted, Item(s.work, source));
    hide Ordered;
    hide Adjacent;
    hide Phases;
    hide ChunkAt;
  }

  lemma KeyPhases(s: State, interrupt: bool, cancelled: Option<nat>)
    requires Phases(s) && Ordered(s)
    ensures Phases(s.Enqueued(Key(interrupt, cancelled)))
  {
    ChunkAppend(s.submitted, Item(s.work, Key(interrupt, cancelled)));
  }

  // ---------- A chunk is admitted ----------

  lemma ChunkBlocks(s: State, p: nat)
    requires Blocks(s) && Holds(s) && AfterSendChunk(s, p, true).Some?
    ensures Blocks(AfterSendChunk(s, p, true).value) && Holds(AfterSendChunk(s, p, true).value)
  {
    ChunkAppend(s.submitted, Item(s.work, Chunk(p, s.pastes[p].next)));
  }

  lemma ChunkCancelled(s: State, p: nat)
    requires Cancelled(s) && AfterSendChunk(s, p, true).Some?
    ensures Cancelled(AfterSendChunk(s, p, true).value)
  {
    ChunkAppend(s.submitted, Item(s.work, Chunk(p, s.pastes[p].next)));
  }

  lemma ChunkPhases(s: State, p: nat)
    requires Phases(s) && Blocks(s) && Ordered(s) && AfterSendChunk(s, p, true).Some?
    ensures Phases(AfterSendChunk(s, p, true).value)
  {
    ChunkAppend(s.submitted, Item(s.work, Chunk(p, s.pastes[p].next)));
  }

  lemma SendChunkKeeps(s: State, p: nat, admitted: bool)
    requires Inv(s) && AfterSendChunk(s, p, admitted).Some?
    ensures Inv(AfterSendChunk(s, p, admitted).value)
  {
    if admitted {
      ChunkBlocks(s, p);
      ChunkCancelled(s, p);
      ChunkPhases(s, p);
      EnqueueOrdered(s, Chunk(p, s.pastes[p].next));
      EnqueueAdjacent(s, Chunk(p, s.pastes[p].next));
      SendChunkWire(s, p);
    } else {
      EndKeeps(s, p);
    }
    hide Blocks;
    hide Holds;
    hide Cancelled;
    hide Phases;
  }

  lemma SendChunkWire(s: State, p: nat)
    requires AfterSendChunk(s, p, true).Some?
    ensures var e, n := s.Enqueued(Chunk(p, s.pastes[p].next)), AfterSendChunk(s, p, true).value;
            (Ordered(e) <==> Ordered(n)) && (Adjacent(e) <==> Adjacent(n))
  {
  }

  // ---------- A queued frame has its turn ----------

  function Without(queue: seq<nat>, q: nat): seq<nat>
    requires q < |queue|
  {
    queue[..q] + queue[q + 1..]
  }

  lemma WithoutOne(queue: seq<nat>, q: nat)
    requires Increasing(queue) && q < |queue|
    ensures Increasing(Without(queue, q))
    ensures forall a :: a in Without(queue, q) <==> a in queue && a != queue[q]
  {
    var left := Without(queue, q);
    assert forall r | 0 <= r < |left| :: left[r] == if r < q then queue[r] else queue[r + 1];
    forall a | a in queue && a != queue[q] ensures a in left {
      var r :| 0 <= r < |queue| && queue[r] == a;
      assert a == left[if r < q then r else r - 1];
    }
  }

  /** What is left of the frame's own work comes later. */
  lemma LeftBehind(s: State, q: nat, a: nat)
    requires Increasing(s.queue) && AfterTurn(s, q, true).Some? && a in s.queue && a != s.queue[q] && a < |s.submitted|
    requires s.submitted[a].work == s.submitted[s.queue[q]].work
    ensures s.queue[q] < a
  {
    var r :| 0 <= r < |s.queue| && s.queue[r] == a;
  }

  lemma TurnWire(s: State, place: nat)
    requires WorkOrder(s.submitted, s.work) && WireOrder(s.wire, s.submitted) && Behind(s.wire, s.queue, s.submitted)
    requires place in s.queue && s.submitted[place].work == s.work
    ensures WireOrder(s.wire + [OnWire(place, s.work)], s.submitted)
  {
    forall x | 0 <= x < |s.wire| ensures s.wire[x].place < place {
      if s.wire[x].connection != s.work {
        assert s.submitted[s.wire[x].place].work < s.submitted[place].work;
      }
    }
  }

  lemma TurnOrdered(s: State, q: nat, sent: bool)
    requires Ordered(s) && AfterTurn(s, q, sent).Some?
    ensures Ordered(AfterTurn(s, q, sent).value)
  {
    var place := s.queue[q];
    assert place in s.queue;
    WithoutOne(s.queue, q);
    forall a | a in s.queue && a != place && s.submitted[a].work == s.submitted[place].work ensures place < a {
      LeftBehind(s, q, a);
    }
    if s.submitted[place].work == s.work && sent {
      TurnWire(s, place);
    }
    hide WorkOrder;
    hide Increasing;
    hide WireOrder;
  }

  lemma WiredGrows(wire: seq<OnWire>, more: OnWire, i: nat)
    ensures Wired(wire, i) ==> Wired(wire + [more], i)
    ensures Wired(wire + [more], more.place)
  {
    if Wired(wire, i) {
      var x :| 0 <= x < |wire| && wire[x].place == i;
      assert (wire + [more])[x].place == i;
    }
    assert (wire + [more])[|wire|] == more;
  }

  lemma TurnAdjacent(s: State, q: nat, sent: bool)
    requires Ordered(s) && Blocks(s) && Phases(s) && Adjacent(s) && AfterTurn(s, q, sent).Some?
    requires Ordered(AfterTurn(s, q, sent).value)
    ensures Adjacent(AfterTurn(s, q, sent).value)
  {
    hide Increasing;
    hide WorkOrder;
    hide Behind;
    var place := s.queue[q];
    var n := AfterTurn(s, q, sent).value;
    forall x, p: nat, k: nat | 0 < k && 0 <= x < |n.wire| && ChunkAt(n.submitted, n.wire[x].place, p, k)
      ensures Follows(n.wire, x)
    {
      if x < |s.wire| {
        assert n.wire[x] == s.wire[x] && ChunkAt(s.submitted, s.wire[x].place, p, k);
        assert Follows(s.wire, x);
      } else {
        assert ChunkAt(s.submitted, place, p, k);
        assert Preceded(s.submitted, place, p, k);
        assert ChunkAt(s.submitted, place - 1, p, k - 1);
        assert Wired(s.wire, place - 1);
        LastOnWire(s, n, place);
      }
    }
  }

  /** The frame before the newest on the wire is the last that was there. */
  lemma LastOnWire(s: State, n: State, place: nat)
    requires Ordered(n) && n.wire == s.wire + [OnWire(place, s.work)] && place > 0 && Wired(s.wire, place - 1)
    ensures s.wire != [] && s.wire[|s.wire| - 1].place == place - 1
  {
    var y :| 0 <= y < |s.wire| && s.wire[y].place == place - 1;
    var last := |s.wire| - 1;
    assert n.wire[y] == s.wire[y] && n.wire[last] == s.wire[last] && n.wire[last + 1].place == place;
  }

  /** A chunk has one place, and the last chunk of its paste is the one the paste waits for. */
  lemma OnePlace(s: State, place: nat, p: nat, k: nat)
    requires Blocks(s) && Phases(s) && place in s.queue && ChunkAt(s.submitted, place, p, k)
    ensures p < |s.pastes| && s.pastes[p].phase == Waiting(place) && k == s.pastes[p].next - 1
    ensures forall i: nat, l: nat | ChunkAt(s.submitted, i, p, l) :: l < k || i == place
  {
    hide Wired;
  }

  lemma TurnWired(s: State, q: nat, sent: bool, i: nat, p: nat, k: nat)
    requires Blocks(s) && Phases(s) && AfterTurn(s, q, sent).Some?
    requires var n := AfterTurn(s, q, sent).value;
             && ChunkAt(s.submitted, i, p, k) && p < |n.pastes|
             && (k + 1 < n.pastes[p].next || n.pastes[p].phase == Poised
                 || (n.pastes[p].phase == Back(true) && n.pastes[p].work == n.work))
    ensures Wired(AfterTurn(s, q, sent).value.wire, i)
  {
    hide Blocks;
    hide Wired;
    var place := s.queue[q];
    assert place in s.queue;
    WiredGrows(s.wire, OnWire(place, s.work), i);
    if s.submitted[place].source.Chunk? && s.submitted[place].source.paste == p {
      OnePlace(s, place, p, s.submitted[place].source.index);
      if i == place {
        ChunkWork(s, place, p, k);
        WiredGrows(s.wire, OnWire(place, s.work), place);
      }
    }
  }

  lemma ChunkWork(s: State, i: nat, p: nat, k: nat)
    requires Blocks(s) && ChunkAt(s.submitted, i, p, k)
    ensures p < |s.pastes| && k < s.pastes[p].next && s.submitted[i].work == s.pastes[p].work
  {
  }

  lemma TurnPhases(s: State, q: nat, sent: bool)
    requires Ordered(s) && Blocks(s) && Phases(s) && AfterTurn(s, q, sent).Some?
    ensures Phases(AfterTurn(s, q, sent).value)
  {
    hide Wired;
    hide WorkOrder;
    hide WireOrder;
    hide Behind;
    hide Blocks;
    var place := s.queue[q];
    var n := AfterTurn(s, q, sent).value;
    assert place in s.queue;
    WithoutOne(s.queue, q);
    if s.submitted[place].source.Chunk? {
      OnePlace(s, place, s.submitted[place].source.paste, s.submitted[place].source.index);
    }
    forall i, p: nat, k: nat | 0 <= i < |n.submitted| && ChunkAt(n.submitted, i, p, k) && p < |n.pastes|
                         && (k + 1 < n.pastes[p].next || n.pastes[p].phase == Poised
                             || (n.pastes[p].phase == Back(true) && n.pastes[p].work == n.work))
      ensures Wired(n.wire, i)
    {
      TurnWired(s, q, sent, i, p, k);
    }
  }

  lemma TurnRest(s: State, q: nat, sent: bool)
    requires Ordered(s) && Blocks(s) && Holds(s) && Cancelled(s) && AfterTurn(s, q, sent).Some?
    ensures var n := AfterTurn(s, q, sent).value; Blocks(n) && Holds(n) && Cancelled(n)
  {
  }

  lemma TurnKeeps(s: State, q: nat, sent: bool)
    requires Inv(s) && AfterTurn(s, q, sent).Some?
    ensures Inv(AfterTurn(s, q, sent).value)
  {
    hide Ordered;
    hide Blocks;
    hide Holds;
    hide Cancelled;
    hide Phases;
    hide Adjacent;
    TurnOrdered(s, q, sent);
    TurnAdjacent(s, q, sent);
    TurnPhases(s, q, sent);
    TurnRest(s, q, sent);
  }

  lemma {:induction false} RunKeeps(moves: seq<Move>)
    requires Run(moves).Some?
    ensures Inv(Run(moves).value)
  {
    hide Inv;
    if moves == [] {
      InitialInv();
    } else {
      RunKeeps(moves[..|moves| - 1]);
      var s := Run(moves[..|moves| - 1]).value;
      match moves[|moves| - 1] {
        case Connect => ConnectKeeps(s, None, false, s.work + 1);
        case Release => ConnectKeeps(s, s.current, false, s.work + 1);
        case StateChanges(connected) => ConnectKeeps(s, s.current, connected, s.work);
        case Begin(chunks) => BeginKeeps(s, chunks);
        case SendChunk(p, admitted) => SendChunkKeeps(s, p, admitted);
        case GiveUp(p) => EndKeeps(s, p);
        case Look(p) => LookKeeps(s, p);
        case Press(interrupt, admitted) => PressKeeps(s, interrupt, admitted);
        case Turn(q, sent) => TurnKeeps(s, q, sent);
      }
    }
  }

  // ---------- What the wire shows ----------

  lemma {:induction false} BlockBehind(s: State, x: nat, p: nat, k: nat, j: nat)
    requires Inv(s) && x < |s.wire| && ChunkAt(s.submitted, s.wire[x].place, p, k) && j <= k
    ensures k <= x && ChunkAt(s.submitted, s.wire[x - k + j].place, p, j)
  {
    hide Ordered;
    hide Phases;
    hide Cancelled;
    if k > 0 {
      assert Preceded(s.submitted, s.wire[x].place, p, k) && Follows(s.wire, x);
      BlockBehind(s, x - 1, p, k - 1, if j < k then j else k - 1);
    }
  }

  /** Of any paste the wire holds one uninterrupted block: its first chunks, in order, each whole and once, all on the
      connection the paste was started on. */
  lemma PasteIsOneBlock(moves: seq<Move>, x: nat, p: nat, k: nat)
    requires Run(moves).Some?
    requires var s := Run(moves).value; x < |s.wire| && ChunkAt(s.submitted, s.wire[x].place, p, k)
    ensures var s := Run(moves).value;
            && p < |s.pastes| && k < |s.pastes[p].chunks| && k <= x
            && s.wire[x].connection == s.pastes[p].work
            && (forall y | x - k <= y <= x :: ChunkAt(s.submitted, s.wire[y].place, p, y - (x - k)))
            && (forall y: nat, l: nat | y < |s.wire| && ChunkAt(s.submitted, s.wire[y].place, p, l) :: y - l == x - k)
  {
    hide Run;
    hide Inv;
    hide ChunkAt;
    RunKeeps(moves);
    var s := Run(moves).value;
    ChunkFacts(s, x, p, k);
    forall y | x - k <= y <= x ensures ChunkAt(s.submitted, s.wire[y].place, p, y - (x - k)) {
      BlockBehind(s, x, p, k, y - (x - k));
    }
    forall y: nat, l: nat | y < |s.wire| && ChunkAt(s.submitted, s.wire[y].place, p, l) ensures y - l == x - k {
      OneStart(s, x, k, y, l, p);
    }
  }

  lemma OneStart(s: State, x: nat, k: nat, y: nat, l: nat, p: nat)
    requires Inv(s) && x < |s.wire| && y < |s.wire|
    requires ChunkAt(s.submitted, s.wire[x].place, p, k) && ChunkAt(s.submitted, s.wire[y].place, p, l)
    ensures y - l == x - k
  {
    hide Inv;
    hide ChunkAt;
    BlockBehind(s, x, p, k, 0);
    BlockBehind(s, y, p, l, 0);
    SameStart(s, x - k, y - l, p);
  }

  lemma ChunkFacts(s: State, x: nat, p: nat, k: nat)
    requires Inv(s) && x < |s.wire| && ChunkAt(s.submitted, s.wire[x].place, p, k)
    ensures p < |s.pastes| && k < |s.pastes[p].chunks| && s.wire[x].connection == s.pastes[p].work && k <= x
  {
    BlockBehind(s, x, p, k, k);
    hide Phases;
    hide Cancelled;
    hide Adjacent;
  }

  lemma SameStart(s: State, x: nat, y: nat, p: nat)
    requires Inv(s) && x < |s.wire| && y < |s.wire|
    requires ChunkAt(s.submitted, s.wire[x].place, p, 0) && ChunkAt(s.submitted, s.wire[y].place, p, 0)
    ensures x == y
  {
    hide Phases;
    hide Cancelled;
    hide Adjacent;
    hide Holds;
  }

  /** Nothing of a paste follows the Control-C that ended it. */
  lemma NothingAfterInterrupt(moves: seq<Move>, x: nat, y: nat, p: nat, k: nat)
    requires Run(moves).Some?
    requires var s := Run(moves).value;
             && x < |s.wire| && y < |s.wire| && s.wire[x].place < |s.submitted|
             && s.submitted[s.wire[x].place].source.Key? && s.submitted[s.wire[x].place].source.cancelled == Some(p)
             && ChunkAt(s.submitted, s.wire[y].place, p, k)
    ensures y < x
  {
    hide Run;
    hide Inv;
    hide ChunkAt;
    RunKeeps(moves);
    CancelledOrder(Run(moves).value, x, y, p, k);
  }

  lemma CancelledOrder(s: State, x: nat, y: nat, p: nat, k: nat)
    requires Inv(s) && x < |s.wire| && y < |s.wire| && s.wire[x].place < |s.submitted|
    requires s.submitted[s.wire[x].place].source.Key? && s.submitted[s.wire[x].place].source.cancelled == Some(p)
    requires ChunkAt(s.submitted, s.wire[y].place, p, k)
    ensures y < x
  {
    hide Blocks;
    hide Phases;
    hide Adjacent;
    hide Holds;
    hide WorkOrder;
    hide Behind;
  }

  // ---------- The bytes of a paste ----------

  /** What the first n frames on the wire carry of one paste. */
  function Carried(s: State, p: nat, n: nat): seq<Byte>
    requires n <= |s.wire| && p < |s.pastes|
  {
    if n == 0 then []
    else
      var place := s.wire[n - 1].place;
      if place < |s.submitted| && s.submitted[place].source.Chunk? && s.submitted[place].source.paste == p
         && s.submitted[place].source.index < |s.pastes[p].chunks|
      then Carried(s, p, n - 1) + s.pastes[p].chunks[s.submitted[place].source.index]
      else Carried(s, p, n - 1)
  }

  lemma {:induction false} CarriedGrows(s: State, p: nat, m: nat, n: nat)
    requires m <= n <= |s.wire| && p < |s.pastes|
    ensures |Carried(s, p, m)| <= |Carried(s, p, n)|
  {
    if m < n { CarriedGrows(s, p, m, n - 1); }
  }

  lemma {:induction false} NothingBefore(s: State, x: nat, p: nat, n: nat)
    requires Inv(s) && x < |s.wire| && ChunkAt(s.submitted, s.wire[x].place, p, 0) && n <= x && p < |s.pastes|
    ensures Carried(s, p, n) == []
  {
    hide Inv;
    if n > 0 {
      NothingBefore(s, x, p, n - 1);
      var place := s.wire[n - 1].place;
      if place < |s.submitted| && s.submitted[place].source.Chunk? && s.submitted[place].source.paste == p {
        OneStart(s, x, 0, n - 1, s.submitted[place].source.index, p);
      }
    }
  }

  lemma {:induction false} CarriedUpTo(s: State, x: nat, p: nat, k: nat)
    requires Inv(s) && x < |s.wire| && ChunkAt(s.submitted, s.wire[x].place, p, k)
    ensures p < |s.pastes| && k < |s.pastes[p].chunks|
    ensures Carried(s, p, x + 1) == Joined(s.pastes[p].chunks[..k + 1])
  {
    hide Inv;
    ChunkFacts(s, x, p, k);
    var chunks := s.pastes[p].chunks;
    assert chunks[..k + 1] == chunks[..k] + [chunks[k]];
    JoinedMore(chunks[..k], chunks[k]);
    if k == 0 {
      NothingBefore(s, x, p, x);
    } else {
      BlockBehind(s, x, p, k, k - 1);
      CarriedUpTo(s, x - 1, p, k - 1);
    }
  }

  ghost predicate OnTheWire(s: State, p: nat, k: nat, n: nat)
    requires n <= |s.wire|
  {
    exists x: nat :: x < n && ChunkAt(s.submitted, s.wire[x].place, p, k)
  }

  lemma {:induction false} CarriedChunks(s: State, p: nat, n: nat) returns (m: nat)
    requires Inv(s) && n <= |s.wire| && p < |s.pastes|
    ensures m <= |s.pastes[p].chunks| && Carried(s, p, n) == Joined(s.pastes[p].chunks[..m])
    ensures m > 0 ==> OnTheWire(s, p, m - 1, n)
  {
    hide Inv;
    hide Joined;
    if n == 0 {
      JoinedNone();
      m := 0;
    } else {
      var place := s.wire[n - 1].place;
      if place < |s.submitted| && s.submitted[place].source.Chunk? && s.submitted[place].source.paste == p {
        m := s.submitted[place].source.index + 1;
        assert ChunkAt(s.submitted, place, p, m - 1);
        CarriedUpTo(s, n - 1, p, m - 1);
      } else {
        m := CarriedChunks(s, p, n - 1);
      }
    }
  }

  lemma {:induction false} JoinedShorter(chunks: seq<seq<Byte>>, m: nat)
    requires m < |chunks| && forall i | 0 <= i < |chunks| :: chunks[i] != []
    ensures |Joined(chunks[..m])| < |Joined(chunks)|
  {
    var front := chunks[..|chunks| - 1];
    assert front[..m] == chunks[..m];
    if m < |front| { JoinedShorter(front, m); } else { assert front == chunks[..m]; }
  }

  /** However a paste goes on or ends, the wire carries a first part of what was pasted, and all of it exactly when its
      last chunk is there. */
  lemma WireCarriesPrefix(moves: seq<Move>, p: nat, bytes: seq<Byte>)
    requires Run(moves).Some? && p < |Run(moves).value.pastes|
    requires var chunks := Run(moves).value.pastes[p].chunks;
             chunks != [] && Joined(chunks) == bytes && forall i | 0 <= i < |chunks| :: chunks[i] != []
    ensures var s := Run(moves).value;
            && Carried(s, p, |s.wire|) <= bytes
            && (Carried(s, p, |s.wire|) == bytes <==> OnTheWire(s, p, |s.pastes[p].chunks| - 1, |s.wire|))
  {
    hide Run;
    hide Inv;
    hide Joined;
    hide Carried;
    RunKeeps(moves);
    var s := Run(moves).value;
    var chunks := s.pastes[p].chunks;
    var m := CarriedChunks(s, p, |s.wire|);
    FirstChunks(chunks, m);
    if m < |chunks| {
      JoinedShorter(chunks, m);
      if OnTheWire(s, p, |chunks| - 1, |s.wire|) {
        var x: nat :| x < |s.wire| && ChunkAt(s.submitted, s.wire[x].place, p, |chunks| - 1);
        CarriedUpTo(s, x, p, |chunks| - 1);
        assert chunks[..|chunks|] == chunks;
        CarriedGrows(s, p, x + 1, |s.wire|);
        assert false;
      }
    } else {
      assert chunks[..m] == chunks;
    }
  }
}
