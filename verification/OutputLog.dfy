/** The agent's bounded output history as a value: one log of entries, oldest first, shared by all sessions. */
module OutputLog {
  import opened Protocol

  datatype Entry<S> = Entry(session: S, offset: nat, data: seq<Byte>)

  /** The entries of one session, in order. */
  function Of<S(==)>(log: seq<Entry<S>>, session: S): seq<Entry<S>> {
    if log == [] then []
    else if log[0].session == session then [log[0]] + Of(log[1..], session)
    else Of(log[1..], session)
  }

  /** How many bytes the entries hold. */
  function Size<S>(log: seq<Entry<S>>): nat {
    if log == [] then 0 else |log[0].data| + Size(log[1..])
  }

  /** The bytes the entries hold, oldest first. */
  function Content<S>(log: seq<Entry<S>>): seq<Byte> {
    if log == [] then [] else log[0].data + Content(log[1..])
  }

  ghost predicate NonEmpty<S>(log: seq<Entry<S>>) {
    forall i | 0 <= i < |log| :: log[i].data != []
  }

  /** The entries follow one another without gap and end at the given offset. */
  ghost predicate Contiguous<S>(entries: seq<Entry<S>>, end: nat) {
    && (forall i | 0 < i < |entries| :: entries[i - 1].offset + |entries[i - 1].data| == entries[i].offset)
    && (entries != [] ==> entries[|entries| - 1].offset + |entries[|entries| - 1].data| == end)
  }

  // ---------- Eviction ----------

  /** Evicting count bytes from the front of entry i; a consumed entry leaves the log. */
  function EvictAt<S>(log: seq<Entry<S>>, i: nat, count: nat): seq<Entry<S>>
    requires i < |log|
  {
    if count == 0 then log
    else if count >= |log[i].data| then log[..i] + log[i + 1..]
    else log[i := Entry(log[i].session, log[i].offset + count, log[i].data[count..])]
  }

  /** The oldest entry of a session. */
  function First<S(==)>(log: seq<Entry<S>>, session: S): (i: nat)
    requires Of(log, session) != []
    ensures i < |log| && log[i].session == session && log[i] == Of(log, session)[0]
  {
    if log[0].session == session then 0 else First(log[1..], session) + 1
  }

  lemma EvictHead<S>(log: seq<Entry<S>>, count: nat)
    requires log != []
    ensures EvictAt(log, 0, count) ==
            if count == 0 then log
            else if count >= |log[0].data| then log[1..]
            else [Entry(log[0].session, log[0].offset + count, log[0].data[count..])] + log[1..]
  {
    assert log[..0] + log[1..] == log[1..];
  }

  lemma EvictTail<S>(log: seq<Entry<S>>, i: nat, count: nat)
    requires 0 < i < |log|
    ensures EvictAt(log, i, count) == [log[0]] + EvictAt(log[1..], i - 1, count)
    ensures ([log[0]] + EvictAt(log[1..], i - 1, count))[1..] == EvictAt(log[1..], i - 1, count)
  {
  }

  lemma OfHead<S>(head: Entry<S>, tail: seq<Entry<S>>, session: S)
    ensures Of([head] + tail, session) ==
            if head.session == session then [head] + Of(tail, session) else Of(tail, session)
  {
    assert ([head] + tail)[1..] == tail;
  }

  lemma {:induction false} OfEvict<S>(log: seq<Entry<S>>, i: nat, count: nat, session: S)
    requires i < |log| && Of(log[..i], log[i].session) == []
    ensures Of(log, log[i].session) != []
    ensures Of(EvictAt(log, i, count), session) ==
            if session == log[i].session then EvictAt(Of(log, session), 0, count) else Of(log, session)
  {
    hide EvictAt;
    if i == 0 {
      EvictHead(log, count);
      if session == log[0].session {
        EvictHead(Of(log, session), count);
        assert Of(log, session)[1..] == Of(log[1..], session);
      }
      if 0 < count < |log[0].data| {
        OfHead(Entry(log[0].session, log[0].offset + count, log[0].data[count..]), log[1..], session);
      }
    } else {
      assert log[1..][..i - 1] == log[..i][1..];
      OfEvict(log[1..], i - 1, count, session);
      EvictTail(log, i, count);
      OfHead(log[0], EvictAt(log[1..], i - 1, count), session);
    }
  }

  /** Dropping the oldest k bytes. */
  function Drop<S>(entries: seq<Entry<S>>, k: nat): seq<Entry<S>> {
    if k == 0 || entries == [] then entries
    else if k >= |entries[0].data| then Drop(entries[1..], k - |entries[0].data|)
    else EvictAt(entries, 0, k)
  }

  lemma {:induction false} EvictShrinks<S>(log: seq<Entry<S>>, i: nat, count: nat)
    requires i < |log|
    ensures count <= |log[i].data| ==> Size(EvictAt(log, i, count)) == Size(log) - count
    ensures count >= |log[i].data| && count > 0 ==> |EvictAt(log, i, count)| == |log| - 1
    ensures |EvictAt(log, i, count)| <= |log|
    ensures Size(EvictAt(log, i, count)) <= Size(log)
  {
    hide EvictAt;
    if i == 0 {
      EvictHead(log, count);
      if 0 < count < |log[0].data| {
        assert EvictAt(log, 0, count)[1..] == log[1..];
      }
    } else {
      EvictShrinks(log[1..], i - 1, count);
      EvictTail(log, i, count);
    }
  }

  /** The loop that keeps one session within its limit. */
  function TrimSession<S(==)>(log: seq<Entry<S>>, session: S, limit: nat): seq<Entry<S>>
    decreases |log|, Size(log)
  {
    var size := Size(Of(log, session));
    if size <= limit then log
    else
      var i := First(log, session);
      EvictShrinks(log, i, size - limit);
      TrimSession(EvictAt(log, i, size - limit), session, limit)
  }

  /** The loop that keeps the whole log within its limit. */
  function TrimAll<S>(log: seq<Entry<S>>, limit: nat): seq<Entry<S>>
    decreases |log|, Size(log)
  {
    var size := Size(log);
    if size <= limit then log
    else
      EvictShrinks(log, 0, size - limit);
      TrimAll(EvictAt(log, 0, size - limit), limit)
  }

  /** The log after one read of a session's output. */
  function Appended<S(==)>(log: seq<Entry<S>>, session: S, offset: nat, data: seq<Byte>): seq<Entry<S>> {
    TrimAll(TrimSession(log + [Entry(session, offset, data)], session, MAX_SESSION_HISTORY), MAX_AGENT_HISTORY)
  }

  /** The log once a closed session's history is gone. */
  function Without<S(==)>(log: seq<Entry<S>>, session: S): seq<Entry<S>> {
    if log == [] then []
    else if log[0].session == session then Without(log[1..], session)
    else [log[0]] + Without(log[1..], session)
  }

  function Excess(size: nat, limit: nat): nat {
    if size <= limit then 0 else size - limit
  }

  lemma {:induction false} FirstIsFirst<S>(log: seq<Entry<S>>, session: S)
    requires Of(log, session) != []
    ensures Of(log[..First(log, session)], session) == []
  {
    if log[0].session != session {
      FirstIsFirst(log[1..], session);
      var i := First(log, session);
      assert log[..i][1..] == log[1..][..i - 1];
    }
  }

  lemma {:induction false} OfNonEmpty<S>(log: seq<Entry<S>>, session: S)
    requires NonEmpty(log)
    ensures NonEmpty(Of(log, session))
  {
    if log != [] {
      OfNonEmpty(log[1..], session);
    }
  }

  lemma EvictNonEmpty<S>(log: seq<Entry<S>>, i: nat, count: nat)
    requires NonEmpty(log) && i < |log|
    ensures NonEmpty(EvictAt(log, i, count))
  {
  }

  lemma DropOne<S>(entries: seq<Entry<S>>, k: nat)
    requires NonEmpty(entries) && entries != []
    ensures Drop(entries, k) == if k > |entries[0].data| then Drop(EvictAt(entries, 0, k), k - |entries[0].data|)
                                else EvictAt(entries, 0, k)
  {
    assert entries[..0] + entries[1..] == entries[1..];
  }

  lemma {:induction false} TrimSessionNonEmpty<S>(log: seq<Entry<S>>, session: S, limit: nat)
    requires NonEmpty(log)
    ensures NonEmpty(TrimSession(log, session, limit))
    decreases |log|, Size(log)
  {
    var size := Size(Of(log, session));
    if size > limit {
      var i := First(log, session);
      EvictShrinks(log, i, size - limit);
      EvictNonEmpty(log, i, size - limit);
      TrimSessionNonEmpty(EvictAt(log, i, size - limit), session, limit);
    }
  }

  /** One turn of the session loop evicts the session's own oldest bytes. */
  lemma TrimTurn<S>(log: seq<Entry<S>>, session: S, count: nat, other: S)
    requires NonEmpty(log) && Of(log, session) != [] && 0 < count <= Size(Of(log, session))
    ensures var next := EvictAt(log, First(log, session), count);
            Of(next, other) == if other == session then EvictAt(Of(log, session), 0, count) else Of(log, other)
    ensures var next := EvictAt(log, First(log, session), count);
            var head := |Of(log, session)[0].data|;
            && Size(Of(next, session)) == Size(Of(log, session)) - (if count < head then count else head)
            && Drop(Of(log, session), count) ==
               if count > head then Drop(Of(next, session), count - head) else Of(next, session)
  {
    var i := First(log, session);
    FirstIsFirst(log, session);
    OfEvict(log, i, count, other);
    OfEvict(log, i, count, session);
    hide Size;
    hide EvictAt;
    hide Drop;
    OfNonEmpty(log, session);
    DropOne(Of(log, session), count);
    EvictedSize(Of(log, session), count);
  }

  /** Trimming one session drops exactly its oldest excess bytes and touches no other session. */
  lemma {:induction false} TrimSessionDrops<S>(log: seq<Entry<S>>, session: S, limit: nat, other: S)
    requires NonEmpty(log)
    ensures NonEmpty(TrimSession(log, session, limit))
    ensures Of(TrimSession(log, session, limit), other) ==
            if other == session then Drop(Of(log, session), Excess(Size(Of(log, session)), limit)) else Of(log, other)
    decreases |log|, Size(log)
  {
    hide EvictAt;
    hide First;
    hide NonEmpty;
    TrimSessionNonEmpty(log, session, limit);
    var size := Size(Of(log, session));
    if size > limit {
      var i := First(log, session);
      EvictShrinks(log, i, size - limit);
      EvictNonEmpty(log, i, size - limit);
      TrimTurn(log, session, size - limit, other);
      TrimTurn(log, session, size - limit, session);
      TrimSessionDrops(EvictAt(log, i, size - limit), session, limit, other);
    }
  }

  lemma EvictedSize<S>(entries: seq<Entry<S>>, k: nat)
    requires entries != []
    ensures Size(EvictAt(entries, 0, k)) == Size(entries) - if k < |entries[0].data| then k else |entries[0].data|
  {
    assert entries[..0] + entries[1..] == entries[1..];
    if 0 < k < |entries[0].data| {
      assert EvictAt(entries, 0, k)[1..] == entries[1..];
    }
  }

  /** Trimming the log drops exactly its oldest excess bytes, whosever they are. */
  lemma {:induction false} TrimAllDrops<S>(log: seq<Entry<S>>, limit: nat)
    requires NonEmpty(log)
    ensures TrimAll(log, limit) == Drop(log, Excess(Size(log), limit))
    decreases |log|, Size(log)
  {
    var size := Size(log);
    if size > limit {
      EvictShrinks(log, 0, size - limit);
      EvictNonEmpty(log, 0, size - limit);
      EvictedSize(log, size - limit);
      TrimAllDrops(EvictAt(log, 0, size - limit), limit);
      DropOne(log, size - limit);
    }
  }

  // ---------- What dropping does ----------

  lemma {:induction false} ContentSize<S>(entries: seq<Entry<S>>)
    ensures |Content(entries)| == Size(entries)
  {
    if entries != [] {
      ContentSize(entries[1..]);
    }
  }

  /** Dropping k bytes leaves the rest of the content. */
  lemma {:induction false} DropContent<S>(entries: seq<Entry<S>>, k: nat)
    requires k <= Size(entries)
    ensures Size(Drop(entries, k)) == Size(entries) - k
    ensures |Content(entries)| == Size(entries) && Content(Drop(entries, k)) == Content(entries)[k..]
  {
    ContentSize(entries);
    if k > 0 && entries != [] {
      var first := entries[0].data;
      if k >= |first| {
        DropContent(entries[1..], k - |first|);
      } else {
        assert EvictAt(entries, 0, k)[1..] == entries[1..];
      }
    }
  }

  lemma {:induction false} DropShape<S>(entries: seq<Entry<S>>, k: nat, end: nat)
    requires NonEmpty(entries) && Contiguous(entries, end)
    ensures NonEmpty(Drop(entries, k)) && Contiguous(Drop(entries, k), end)
  {
    if k > 0 && entries != [] && k >= |entries[0].data| {
      var rest := entries[1..];
      forall i | 0 < i < |rest| ensures rest[i - 1].offset + |rest[i - 1].data| == rest[i].offset {
        assert rest[i] == entries[i + 1];
      }
      DropShape(rest, k - |entries[0].data|, end);
    }
  }

  /** Dropping from the log drops from the front of each session's part of it. */
  lemma {:induction false} OfDrop<S>(log: seq<Entry<S>>, k: nat, session: S) returns (share: nat)
    requires NonEmpty(log)
    ensures share <= Size(Of(log, session))
    ensures Of(Drop(log, k), session) == Drop(Of(log, session), share)
  {
    var mine := Of(log, session);
    if k == 0 || log == [] {
      share := 0;
    } else if k >= |log[0].data| {
      share := OfDrop(log[1..], k - |log[0].data|, session);
      if log[0].session == session {
        assert mine[1..] == Of(log[1..], session);
        share := share + |log[0].data|;
      }
    } else {
      OfEvict(log, 0, k, session);
      share := if log[0].session == session then k else 0;
    }
  }

  // ---------- What a session's part of the log holds ----------

  /** The entries hold exactly the newest bytes of what was produced, in pieces that follow one another up to
      the end and are small enough for one frame. */
  ghost predicate Suffix<S>(mine: seq<Entry<S>>, produced: seq<Byte>) {
    && Contiguous(mine, |produced|)
    && Size(mine) <= |produced|
    && Content(mine) == produced[|produced| - Size(mine)..]
    && forall i | 0 <= i < |mine| :: |mine[i].data| <= MAX_TERMINAL_OUTPUT
  }

  ghost predicate Holds<S>(log: seq<Entry<S>>, session: S, produced: seq<Byte>) {
    Suffix(Of(log, session), produced)
  }

  lemma {:induction false} OfAppend<S>(log: seq<Entry<S>>, entry: Entry<S>, session: S)
    ensures Of(log + [entry], session) ==
            if entry.session == session then Of(log, session) + [entry] else Of(log, session)
  {
    if log == [] {
      assert log + [entry] == [entry];
    } else {
      OfAppend(log[1..], entry, session);
      assert (log + [entry])[1..] == log[1..] + [entry];
    }
  }

  lemma {:induction false} ContentAppend<S>(entries: seq<Entry<S>>, entry: Entry<S>)
    ensures Content(entries + [entry]) == Content(entries) + entry.data
    ensures Size(entries + [entry]) == Size(entries) + |entry.data|
  {
    if entries == [] {
      assert entries + [entry] == [entry];
    } else {
      ContentAppend(entries[1..], entry);
      assert (entries + [entry])[1..] == entries[1..] + [entry];
    }
  }

  lemma GrownSizes<S>(log: seq<Entry<S>>, entry: Entry<S>, session: S)
    ensures Size(Of(log + [entry], session)) == Size(Of(log, session)) + if entry.session == session then |entry.data|
            else 0
  {
    OfAppend(log, entry, session);
    ContentAppend(Of(log, session), entry);
  }

  lemma {:induction false} DropPieces<S>(entries: seq<Entry<S>>, k: nat, limit: nat)
    requires forall i | 0 <= i < |entries| :: |entries[i].data| <= limit
    ensures forall i | 0 <= i < |Drop(entries, k)| :: |Drop(entries, k)[i].data| <= limit
  {
    if k > 0 && entries != [] && k >= |entries[0].data| {
      DropPieces(entries[1..], k - |entries[0].data|, limit);
    }
  }

  /** What one append leaves of each session: its entries, with the new one if it is the appender's, less a share
      of the oldest bytes. */
  lemma AppendDrops<S>(log: seq<Entry<S>>, session: S, offset: nat, data: seq<Byte>, other: S) returns (share: nat)
    requires NonEmpty(log) && data != []
    ensures NonEmpty(Appended(log, session, offset, data))
    ensures var grown := Of(log, other) + if other == session then [Entry(session, offset, data)] else [];
            && share <= Size(grown) && Of(Appended(log, session, offset, data), other) == Drop(grown, share)
            && (other == session ==> Size(grown) - share <= MAX_SESSION_HISTORY)
    ensures Size(Appended(log, session, offset, data)) <= MAX_AGENT_HISTORY
  {
    hide TrimSession;
    hide TrimAll;
    hide Drop;
    var pushed := log + [Entry(session, offset, data)];
    var trimmed := TrimSession(pushed, session, MAX_SESSION_HISTORY);
    OfAppend(log, Entry(session, offset, data), other);
    TrimSessionDrops(pushed, session, MAX_SESSION_HISTORY, other);
    TrimAllDrops(trimmed, MAX_AGENT_HISTORY);
    DropContent(trimmed, Excess(Size(trimmed), MAX_AGENT_HISTORY));
    DropKeeps(trimmed, Excess(Size(trimmed), MAX_AGENT_HISTORY));
    var later := OfDrop(trimmed, Excess(Size(trimmed), MAX_AGENT_HISTORY), other);
    OfNonEmpty(pushed, other);
    assert Of(log, other) + [] == Of(log, other);
    var grown := Of(pushed, other);
    var first := if other == session then Excess(Size(grown), MAX_SESSION_HISTORY) else 0;
    DropContent(grown, first);
    DropTwice(grown, first, later);
    share := first + later;
  }

  lemma {:induction false} DropKeeps<S>(entries: seq<Entry<S>>, k: nat)
    requires NonEmpty(entries)
    ensures NonEmpty(Drop(entries, k))
  {
    if k > 0 && entries != [] && k >= |entries[0].data| {
      DropKeeps(entries[1..], k - |entries[0].data|);
    }
  }

  lemma {:induction false} DropTwice<S>(entries: seq<Entry<S>>, a: nat, b: nat)
    requires NonEmpty(entries)
    ensures Drop(Drop(entries, a), b) == Drop(entries, a + b)
  {
    if a > 0 && entries != [] {
      var first := entries[0].data;
      if a >= |first| {
        DropTwice(entries[1..], a - |first|, b);
      } else {
        assert EvictAt(entries, 0, a)[1..] == entries[1..];
        if 0 < b < |first| - a {
          assert EvictAt(EvictAt(entries, 0, a), 0, b) == EvictAt(entries, 0, a + b);
        }
      }
    }
  }

  lemma SuffixGrows<S>(mine: seq<Entry<S>>, produced: seq<Byte>, session: S, data: seq<Byte>)
    requires Suffix(mine, produced) && |data| <= MAX_TERMINAL_OUTPUT
    ensures Suffix(mine + [Entry(session, |produced|, data)], produced + data)
  {
    ContentAppend(mine, Entry(session, |produced|, data));
  }

  lemma SuffixDrops<S>(mine: seq<Entry<S>>, produced: seq<Byte>, share: nat)
    requires Suffix(mine, produced) && NonEmpty(mine) && share <= Size(mine)
    ensures Suffix(Drop(mine, share), produced)
  {
    DropContent(mine, share);
    DropShape(mine, share, |produced|);
    DropPieces(mine, share, MAX_TERMINAL_OUTPUT);
  }

  /** One append keeps every session's part of the log an exact suffix of what that session has produced. */
  lemma AppendHolds<S>(log: seq<Entry<S>>, session: S, data: seq<Byte>, produced: seq<Byte>, other: S,
                       otherProduced: seq<Byte>)
    requires NonEmpty(log) && 0 < |data| <= MAX_TERMINAL_OUTPUT
    requires Holds(log, session, produced) && Holds(log, other, otherProduced)
    requires (other == session ==> produced == otherProduced)
    ensures Holds(Appended(log, session, |produced|, data), other, otherProduced + if other == session then data
                  else [])
  {
    hide Appended;
    var share := AppendDrops(log, session, |produced|, data, other);
    var mine := Of(log, other);
    OfNonEmpty(log, other);
    if other == session {
      SuffixGrows(mine, produced, session, data);
      SuffixDrops(mine + [Entry(session, |produced|, data)], produced + data, share);
    } else {
      assert mine + [] == mine && otherProduced + [] == otherProduced;
      SuffixDrops(mine, otherProduced, share);
    }
  }

  /** After one append the log is within both limits, if every other session was within its own. */
  lemma AppendWithinLimits<S>(log: seq<Entry<S>>, session: S, offset: nat, data: seq<Byte>, other: S)
    requires NonEmpty(log) && data != [] && (other != session ==> Size(Of(log, other)) <= MAX_SESSION_HISTORY)
    ensures Size(Appended(log, session, offset, data)) <= MAX_AGENT_HISTORY
    ensures Size(Of(Appended(log, session, offset, data), other)) <= MAX_SESSION_HISTORY
  {
    var share := AppendDrops(log, session, offset, data, other);
    var grown := Of(log, other) + if other == session then [Entry(session, offset, data)] else [];
    DropContent(grown, share);
    assert Of(log, other) + [] == Of(log, other);
  }

  /** Nothing is evicted that both limits leave room for. */
  lemma AppendEvictsOnlyExcess<S>(log: seq<Entry<S>>, session: S, offset: nat, data: seq<Byte>)
    requires NonEmpty(log) && data != []
    requires Size(Of(log, session)) + |data| <= MAX_SESSION_HISTORY && Size(log) + |data| <= MAX_AGENT_HISTORY
    ensures Appended(log, session, offset, data) == log + [Entry(session, offset, data)]
  {
    var entry := Entry(session, offset, data);
    OfAppend(log, entry, session);
    ContentAppend(log, entry);
    ContentAppend(Of(log, session), entry);
  }

  // ---------- Closing ----------

  lemma {:induction false} WithoutKeeps<S>(log: seq<Entry<S>>, session: S, other: S)
    ensures Of(Without(log, session), other) == if other == session then [] else Of(log, other)
    ensures NonEmpty(log) ==> NonEmpty(Without(log, session))
    ensures Size(Without(log, session)) <= Size(log)
  {
    if log != [] {
      WithoutKeeps(log[1..], session, other);
    }
  }

  /** Removing a session's oldest entry first reaches the same log. */
  lemma {:induction false} WithoutFirst<S>(log: seq<Entry<S>>, session: S)
    requires Of(log, session) != []
    ensures var i := First(log, session); Without(log[..i] + log[i + 1..], session) == Without(log, session)
  {
    var i := First(log, session);
    if log[0].session == session {
      assert log[..0] + log[1..] == log[1..];
    } else {
      WithoutFirst(log[1..], session);
      assert (log[..i] + log[i + 1..])[1..] == log[1..][..i - 1] + log[1..][i..];
    }
  }

  /** The byte counts after evicting from an entry that is its session's oldest. */
  lemma EvictSizes<S>(log: seq<Entry<S>>, i: nat, count: nat, session: S)
    requires i < |log| && Of(log[..i], log[i].session) == []
    ensures var taken := if count < |log[i].data| then count else |log[i].data|;
            && taken <= Size(log) && taken <= Size(Of(log, log[i].session))
            && Size(EvictAt(log, i, count)) == Size(log) - taken
            && Size(Of(EvictAt(log, i, count), session)) ==
                 Size(Of(log, session)) - if session == log[i].session then taken else 0
  {
    OfEvict(log, i, count, session);
    OfEvict(log, i, count, log[i].session);
    EvictShrinks(log, i, count);
    EvictShrinks(log, i, |log[i].data|);
    if Of(log, log[i].session) != [] {
      FirstUnique(log, i);
      EvictedSize(Of(log, log[i].session), count);
    }
    if count > |log[i].data| {
      assert EvictAt(log, i, count) ==
             if |log[i].data| == 0 then log[..i] + log[i + 1..] else EvictAt(log, i, |log[i].data|);
      EvictGone(log, i);
    }
  }

  lemma {:induction false} EvictGone<S>(log: seq<Entry<S>>, i: nat)
    requires i < |log|
    ensures Size(log[..i] + log[i + 1..]) == Size(log) - |log[i].data|
  {
    if i == 0 {
      assert log[..0] + log[1..] == log[1..];
    } else {
      EvictGone(log[1..], i - 1);
      assert (log[..i] + log[i + 1..])[1..] == log[1..][..i - 1] + log[1..][i..];
    }
  }

  lemma {:induction false} FirstUnique<S>(log: seq<Entry<S>>, i: nat)
    requires i < |log| && Of(log[..i], log[i].session) == []
    ensures Of(log, log[i].session) != [] && Of(log, log[i].session)[0] == log[i] && First(log, log[i].session) == i
  {
    if i > 0 {
      assert log[..i][1..] == log[1..][..i - 1];
      FirstUnique(log[1..], i - 1);
    }
  }

  lemma EvictedWhole<S>(log: seq<Entry<S>>, i: nat)
    requires i < |log| && log[i].data != []
    ensures EvictAt(log, i, |log[i].data|) == log[..i] + log[i + 1..]
  {
  }

  lemma {:induction false} WithoutNothing<S>(log: seq<Entry<S>>, session: S)
    requires Of(log, session) == []
    ensures Without(log, session) == log
  {
    if log != [] {
      WithoutNothing(log[1..], session);
    }
  }
}
