/** Reading a session's retained history: the snapshot of a reopen and the range of a catch-up. */
module HistoryFrames {
  import opened Protocol
  import opened Tiling
  import opened OutputLog

  /** Where the retained history of a session begins. */
  function StartOf<S>(mine: seq<Entry<S>>, next: nat): nat {
    if mine == [] then next else mine[0].offset
  }

  /** The entries of a session, one frame each. */
  function FramesOf<S>(mine: seq<Entry<S>>): seq<Piece> {
    if mine == [] then []
    else FramesOf(mine[..|mine| - 1]) + [Piece(mine[|mine| - 1].offset, mine[|mine| - 1].data)]
  }

  /** The frames of [cursor, end), or None when the history does not hold them. */
  function RangeOf<S>(mine: seq<Entry<S>>, cursor: nat, end: nat): Option<seq<Piece>> {
    if mine == [] || cursor >= end then
      if cursor == end then Some([]) else None
    else
      var entry := mine[0];
      if entry.offset + |entry.data| <= cursor then RangeOf(mine[1..], cursor, end)
      else if entry.offset > cursor then None
      else
        var skip := cursor - entry.offset;
        var length := if |entry.data| - skip > end - cursor then end - cursor else |entry.data| - skip;
        match RangeOf(mine[1..], cursor + length, end)
        case None => None
        case Some(frames) => Some([Piece(cursor, entry.data[skip..skip + length])] + frames)
  }

  /** In a contiguous history, entries show what was produced. */
  lemma {:induction false} EntriesShow<S>(mine: seq<Entry<S>>, produced: seq<Byte>)
    requires Contiguous(mine, |produced|) && Size(mine) <= |produced|
    requires Content(mine) == produced[|produced| - Size(mine)..]
    ensures mine != [] ==> mine[0].offset == |produced| - Size(mine)
    ensures forall i | 0 <= i < |mine| ::
              && mine[i].offset + |mine[i].data| <= |produced|
              && mine[i].data == produced[mine[i].offset..mine[i].offset + |mine[i].data|]
  {
    if mine != [] {
      var rest := mine[1..];
      ContentSize(mine);
      ContentSize(rest);
      forall i | 0 < i < |rest| ensures rest[i - 1].offset + |rest[i - 1].data| == rest[i].offset {
        assert rest[i] == mine[i + 1];
      }
      assert Content(rest) == Content(mine)[|mine[0].data|..];
      EntriesShow(rest, produced);
      assert rest != [] ==> mine[1] == rest[0];
      forall i | 0 <= i < |mine|
        ensures mine[i].offset + |mine[i].data| <= |produced|
        ensures mine[i].data == produced[mine[i].offset..mine[i].offset + |mine[i].data|]
      {
        if i > 0 {
          assert mine[i] == rest[i - 1];
        } else {
          assert mine[0].data == Content(mine)[..|mine[0].data|];
        }
      }
    }
  }

  /** The snapshot tiles the retained range and shows what was produced there. */
  lemma {:induction false} FramesTile<S>(mine: seq<Entry<S>>, end: nat)
    requires Contiguous(mine, end)
    ensures Tile(FramesOf(mine), StartOf(mine, end), end)
    ensures |FramesOf(mine)| == |mine|
    ensures forall i | 0 <= i < |mine| :: FramesOf(mine)[i] == Piece(mine[i].offset, mine[i].data)
  {
    if mine != [] {
      var front := mine[..|mine| - 1];
      var last := mine[|mine| - 1];
      FramesTile(front, last.offset);
      assert FramesOf(mine)[..|front|] == FramesOf(front);
    }
  }

  lemma RestFollows<S>(mine: seq<Entry<S>>, last: nat)
    requires Contiguous(mine, last) && NonEmpty(mine) && mine != []
    ensures Contiguous(mine[1..], last) && NonEmpty(mine[1..])
    ensures StartOf(mine[1..], last) == mine[0].offset + |mine[0].data|
  {
    var rest := mine[1..];
    forall i | 0 < i < |rest| ensures rest[i - 1].offset + |rest[i - 1].data| == rest[i].offset {
      assert rest[i] == mine[i + 1];
    }
    assert rest != [] ==> rest[0] == mine[1] && rest[|rest| - 1] == mine[|mine| - 1];
  }

  lemma TilePrepend(piece: Piece, tail: seq<Piece>, end: nat)
    requires Tile(tail, piece.offset + |piece.data|, end)
    ensures Tile([piece] + tail, piece.offset, end)
  {
    TileAppend([], piece.offset, piece.offset, piece);
    assert [] + [piece] == [piece];
    TileJoin([piece], tail, piece.offset, piece.offset + |piece.data|, end);
  }

  /** On a contiguous history the range is found exactly when it is empty or its start is still retained. */
  lemma {:induction false} RangeExact<S>(mine: seq<Entry<S>>, start: nat, end: nat, last: nat)
    requires Contiguous(mine, last) && NonEmpty(mine) && end <= last
    ensures RangeOf(mine, start, end).Some? <==> start == end || (start < end && StartOf(mine, last) <= start)
  {
    if mine != [] && start < end {
      RestFollows(mine, last);
      hide Contiguous;
      var entry := mine[0];
      if entry.offset + |entry.data| <= start {
        RangeExact(mine[1..], start, end, last);
      } else if entry.offset <= start {
        var skip := start - entry.offset;
        var length := if |entry.data| - skip > end - start then end - start else |entry.data| - skip;
        RangeExact(mine[1..], start + length, end, last);
      }
    }
  }

  /** The frames of a range tile it. */
  lemma {:induction false} RangeTiles<S>(mine: seq<Entry<S>>, start: nat, end: nat)
    requires RangeOf(mine, start, end).Some?
    ensures start <= end && Tile(RangeOf(mine, start, end).value, start, end)
    ensures var frames := RangeOf(mine, start, end).value; forall i | 0 <= i < |frames| :: frames[i].data != []
  {
    if mine != [] && start < end {
      var entry := mine[0];
      if entry.offset + |entry.data| <= start {
        RangeTiles(mine[1..], start, end);
      } else {
        var skip := start - entry.offset;
        var length := if |entry.data| - skip > end - start then end - start else |entry.data| - skip;
        RangeTiles(mine[1..], start + length, end);
        TilePrepend(Piece(start, entry.data[skip..skip + length]), RangeOf(mine[1..], start + length, end).value, end);
      }
    }
  }

  lemma SliceOfSlice(produced: seq<Byte>, low: nat, high: nat, skip: nat, length: nat)
    requires low <= high <= |produced| && skip + length <= high - low
    ensures produced[low..high][skip..skip + length] == produced[low + skip..low + skip + length]
  {
    var inner := produced[low..high][skip..skip + length];
    var outer := produced[low + skip..low + skip + length];
    forall i | 0 <= i < length ensures inner[i] == outer[i] {
    }
  }

  /** The frames of a range show what was produced, in pieces no larger than the entries. */
  lemma {:induction false} RangeShows<S>(mine: seq<Entry<S>>, start: nat, end: nat, produced: seq<Byte>, limit: nat)
    requires forall i | 0 <= i < |mine| ::
               && mine[i].offset + |mine[i].data| <= |produced| && |mine[i].data| <= limit
               && mine[i].data == produced[mine[i].offset..mine[i].offset + |mine[i].data|]
    requires RangeOf(mine, start, end).Some?
    ensures Shows(RangeOf(mine, start, end).value, produced)
    ensures var frames := RangeOf(mine, start, end).value; forall i | 0 <= i < |frames| :: |frames[i].data| <= limit
  {
    if mine != [] && start < end {
      var entry := mine[0];
      if entry.offset + |entry.data| <= start {
        RangeShows(mine[1..], start, end, produced, limit);
      } else {
        var skip := start - entry.offset;
        var length := if |entry.data| - skip > end - start then end - start else |entry.data| - skip;
        RangeShows(mine[1..], start + length, end, produced, limit);
        var piece := Piece(start, entry.data[skip..skip + length]);
        SliceOfSlice(produced, entry.offset, entry.offset + |entry.data|, skip, length);
      }
    }
  }
}
