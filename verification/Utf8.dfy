/** UTF-8 as RFC 3629 defines it, and how a paste is cut into frames. */
module Utf8 {
  import opened Protocol

  predicate Continuation(b: Byte) {
    b / 64 == 2
  }

  /** The length of the well-formed character the bytes begin with, by the table in section 4 of RFC 3629; 0 if none. */
  function Leading(bytes: seq<Byte>): (n: nat)
    ensures n <= |bytes| && n <= 4
    ensures n > 0 ==> !Continuation(bytes[0])
    ensures forall i | 0 < i < n :: Continuation(bytes[i])
  {
    if bytes == [] then 0
    else
      var first := bytes[0];
      if first < 0x80 then 1
      else if |bytes| >= 2 && Continuation(bytes[1]) && 0xC2 <= first <= 0xDF then 2
      else if |bytes| >= 3 && Continuation(bytes[1]) && Continuation(bytes[2]) && ThreeBytes(first, bytes[1]) then 3
      else if |bytes| >= 4 && Continuation(bytes[1]) && Continuation(bytes[2]) && Continuation(bytes[3])
          && FourBytes(first, bytes[1]) then 4
      else 0
  }

  predicate ThreeBytes(first: Byte, second: Byte) {
    (first == 0xE0 && second >= 0xA0) || 0xE1 <= first <= 0xEC || (first == 0xED && second <= 0x9F)
    || 0xEE <= first <= 0xEF
  }

  predicate FourBytes(first: Byte, second: Byte) {
    (first == 0xF0 && second >= 0x90) || 0xF1 <= first <= 0xF3 || (first == 0xF4 && second <= 0x8F)
  }

  ghost predicate Valid(bytes: seq<Byte>) {
    bytes == [] || (Leading(bytes) > 0 && Valid(bytes[Leading(bytes)..]))
  }

  /** No character is cut at position n. */
  predicate Boundary(bytes: seq<Byte>, n: nat)
    requires n <= |bytes|
  {
    n == |bytes| || !Continuation(bytes[n])
  }

  lemma LeadingPrefix(bytes: seq<Byte>, n: nat)
    requires Leading(bytes) <= n <= |bytes| && Leading(bytes) > 0
    ensures Leading(bytes[..n]) == Leading(bytes)
  {
  }

  lemma StartBoundary(bytes: seq<Byte>)
    requires Valid(bytes)
    ensures Boundary(bytes, 0)
  {
  }

  /** Cutting valid UTF-8 where no character is cut leaves two valid parts. */
  lemma {:induction false} CutValid(bytes: seq<Byte>, n: nat)
    requires Valid(bytes) && n <= |bytes| && Boundary(bytes, n)
    ensures Valid(bytes[..n]) && Valid(bytes[n..])
  {
    if n == 0 {
      assert bytes[0..] == bytes;
    } else {
      var k := Leading(bytes);
      assert n >= k;
      var rest := bytes[k..];
      assert n < |bytes| ==> rest[n - k] == bytes[n];
      CutValid(rest, n - k);
      LeadingPrefix(bytes, n);
      assert bytes[..n][k..] == rest[..n - k];
      assert rest[n - k..] == bytes[n..];
    }
  }

  /** No four neighbours in valid UTF-8 are all continuation bytes. */
  lemma {:induction false} BoundaryNear(bytes: seq<Byte>, n: nat) returns (m: nat)
    requires Valid(bytes) && n <= |bytes|
    ensures m <= n && n - m <= 3 && Boundary(bytes, m)
  {
    if n == 0 {
      m := 0;
    } else {
      var k := Leading(bytes);
      if n < k {
        m := 0;
      } else {
        m := BoundaryNear(bytes[k..], n - k);
        m := m + k;
      }
    }
  }

  function Joined(chunks: seq<seq<Byte>>): seq<Byte> {
    if chunks == [] then [] else Joined(chunks[..|chunks| - 1]) + chunks[|chunks| - 1]
  }

  lemma JoinedNone()
    ensures Joined([]) == []
  {
  }

  lemma JoinedMore(chunks: seq<seq<Byte>>, chunk: seq<Byte>)
    ensures Joined(chunks + [chunk]) == Joined(chunks) + chunk
  {
    assert (chunks + [chunk])[..|chunks|] == chunks;
  }

  /** The end of the next chunk: as far as one frame reaches, then back to where no character is cut. */
  method ChunkEnd(bytes: seq<Byte>, offset: nat) returns (end: nat)
    requires Valid(bytes) && offset < |bytes| && Boundary(bytes, offset) && Valid(bytes[offset..])
    ensures offset < end <= |bytes| && end - offset <= MAX_TERMINAL_INPUT && Boundary(bytes, end)
    ensures end == |bytes| || end - offset >= MAX_TERMINAL_INPUT - 3
  {
    end := if offset + MAX_TERMINAL_INPUT < |bytes| then offset + MAX_TERMINAL_INPUT else |bytes|;
    ghost var near := BoundaryNear(bytes, end);
    while end < |bytes| && Continuation(bytes[end])
      invariant offset < end <= |bytes| && end - offset <= MAX_TERMINAL_INPUT
      invariant end < |bytes| ==> near <= end && end - offset >= MAX_TERMINAL_INPUT - 3
      invariant end < |bytes| ==> near >= offset + MAX_TERMINAL_INPUT - 3
      decreases end
    {
      end := end - 1;
    }
  }

  lemma CutChunk(bytes: seq<Byte>, offset: nat, end: nat)
    requires offset < end <= |bytes| && Valid(bytes[offset..]) && Boundary(bytes, end)
    ensures Valid(bytes[offset..end]) && Valid(bytes[end..]) && bytes[..offset] + bytes[offset..end] == bytes[..end]
  {
    hide Valid;
    var rest := bytes[offset..];
    assert end < |bytes| ==> rest[end - offset] == bytes[end];
    CutValid(rest, end - offset);
    assert bytes[offset..][..end - offset] == bytes[offset..end] && bytes[offset..][end - offset..] == bytes[end..];
  }

  /** The chunks of a paste: each is valid UTF-8 that fits one frame, together they are the paste. */
  method Split(bytes: seq<Byte>) returns (chunks: seq<seq<Byte>>)
    requires Valid(bytes)
    ensures Joined(chunks) == bytes
    ensures forall i | 0 <= i < |chunks| :: Valid(chunks[i]) && 0 < |chunks[i]| <= MAX_TERMINAL_INPUT
    ensures forall i | 0 <= i < |chunks| - 1 :: |chunks[i]| >= MAX_TERMINAL_INPUT - 3
  {
    hide Valid;
    hide Joined;
    chunks := [];
    var offset := 0;
    JoinedNone();
    assert bytes[0..] == bytes && bytes[..0] == [] && bytes[..|bytes|] == bytes;
    StartBoundary(bytes);
    while offset < |bytes|
      invariant offset <= |bytes| && Boundary(bytes, offset) && Valid(bytes[offset..])
      invariant Joined(chunks) == bytes[..offset]
      invariant forall i | 0 <= i < |chunks| :: Valid(chunks[i]) && 0 < |chunks[i]| <= MAX_TERMINAL_INPUT
      invariant offset < |bytes| ==> forall i | 0 <= i < |chunks| :: |chunks[i]| >= MAX_TERMINAL_INPUT - 3
      invariant forall i | 0 <= i < |chunks| - 1 :: |chunks[i]| >= MAX_TERMINAL_INPUT - 3
    {
      var end := ChunkEnd(bytes, offset);
      CutChunk(bytes, offset, end);
      JoinedMore(chunks, bytes[offset..end]);
      chunks := chunks + [bytes[offset..end]];
      offset := end;
    }
  }

  /** The first chunks of a paste carry the beginning of what was pasted. */
  lemma {:induction false} FirstChunks(chunks: seq<seq<Byte>>, n: nat)
    requires n <= |chunks|
    ensures Joined(chunks[..n]) <= Joined(chunks)
  {
    if n == |chunks| {
      assert chunks[..n] == chunks;
    } else {
      FirstChunks(chunks[..|chunks| - 1], n);
      assert chunks[..|chunks| - 1][..n] == chunks[..n];
    }
  }
}
