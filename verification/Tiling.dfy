/** Pieces of a byte stream, each at its offset. */
module Tiling {
  import opened Protocol

  datatype Piece = Piece(offset: nat, data: seq<Byte>)

  /** The pieces cover [start, end) one after the other. */
  ghost predicate Tile(pieces: seq<Piece>, start: nat, end: nat) {
    if pieces == [] then start == end
    else
      var last := pieces[|pieces| - 1];
      last.offset + |last.data| == end && Tile(pieces[..|pieces| - 1], start, last.offset)
  }

  function Joined(pieces: seq<Piece>): seq<Byte> {
    if pieces == [] then [] else Joined(pieces[..|pieces| - 1]) + pieces[|pieces| - 1].data
  }

  /** Each piece shows what was produced at its offset. */
  ghost predicate Shows(pieces: seq<Piece>, produced: seq<Byte>) {
    forall i | 0 <= i < |pieces| ::
      && pieces[i].offset + |pieces[i].data| <= |produced|
      && pieces[i].data == produced[pieces[i].offset..pieces[i].offset + |pieces[i].data|]
  }

  lemma TileAppend(pieces: seq<Piece>, start: nat, end: nat, piece: Piece)
    requires Tile(pieces, start, end) && piece.offset == end
    ensures Tile(pieces + [piece], start, end + |piece.data|)
  {
    assert (pieces + [piece])[..|pieces|] == pieces;
  }

  lemma {:induction false} TileJoin(left: seq<Piece>, right: seq<Piece>, start: nat, middle: nat, end: nat)
    requires Tile(left, start, middle) && Tile(right, middle, end)
    ensures Tile(left + right, start, end)
  {
    if right == [] {
      assert left + right == left;
    } else {
      var last := right[|right| - 1];
      TileJoin(left, right[..|right| - 1], start, middle, last.offset);
      assert (left + right)[..|left + right| - 1] == left + right[..|right| - 1];
    }
  }

  /** A tiling's first piece is at its start, and what follows tiles the rest. */
  lemma {:induction false} TileFirst(pieces: seq<Piece>, start: nat, end: nat)
    requires Tile(pieces, start, end) && pieces != []
    ensures pieces[0].offset == start && start + |pieces[0].data| <= end
    ensures Tile(pieces[1..], start + |pieces[0].data|, end)
  {
    if |pieces| > 1 {
      var front := pieces[..|pieces| - 1];
      TileFirst(front, start, pieces[|pieces| - 1].offset);
      assert pieces[1..][..|pieces| - 2] == front[1..];
    } else {
      assert pieces[1..] == pieces[..0];
    }
  }

  /** Pieces that tile a range and show the stream join to exactly that slice of it. */
  lemma {:induction false} TiledSlice(pieces: seq<Piece>, start: nat, end: nat, produced: seq<Byte>)
    requires Tile(pieces, start, end) && Shows(pieces, produced) && end <= |produced|
    ensures start <= end && Joined(pieces) == produced[start..end]
  {
    if pieces != [] {
      var last := pieces[|pieces| - 1];
      TiledSlice(pieces[..|pieces| - 1], start, last.offset, produced);
      assert produced[start..end] == produced[start..last.offset] + produced[last.offset..end];
    }
  }

  /** The piece of the stream a payload carries, if any. */
  function PieceOf(payload: Payload): seq<Piece> {
    match payload
    case HistoryChunk(_, offset, data) => [Piece(offset, data)]
    case TerminalOutput(_, offset, data) => [Piece(offset, data)]
    case _ => []
  }

  /** The pieces a list of payloads carries. */
  function PiecesIn(payloads: seq<Payload>): seq<Piece> {
    if payloads == [] then [] else PiecesIn(payloads[..|payloads| - 1]) + PieceOf(payloads[|payloads| - 1])
  }

  lemma {:induction false} PiecesInJoin(left: seq<Payload>, right: seq<Payload>)
    ensures PiecesIn(left + right) == PiecesIn(left) + PiecesIn(right)
  {
    hide PieceOf;
    if right == [] {
      assert left + right == left;
    } else {
      PiecesInJoin(left, right[..|right| - 1]);
      assert (left + right)[..|left + right| - 1] == left + right[..|right| - 1];
    }
  }

  /** Every prefix of a tiling tiles from the same start. */
  lemma {:induction false} TilePrefix(pieces: seq<Piece>, start: nat, end: nat, n: nat) returns (middle: nat)
    requires Tile(pieces, start, end) && n <= |pieces|
    ensures Tile(pieces[..n], start, middle) && middle <= end
  {
    if n == |pieces| {
      assert pieces[..n] == pieces;
      middle := end;
    } else {
      middle := TilePrefix(pieces[..|pieces| - 1], start, pieces[|pieces| - 1].offset, n);
      assert pieces[..|pieces| - 1][..n] == pieces[..n];
    }
  }

  lemma TileOrder(pieces: seq<Piece>, start: nat, end: nat)
    requires Tile(pieces, start, end)
    ensures start <= end
  {
    var middle := TilePrefix(pieces, start, end, 0);
    assert pieces[..0] == [];
  }
}
