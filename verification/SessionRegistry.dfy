/** The agent's session registry: managed sessions, and the output history threaded through two lists. */
module SessionRegistry {
  import opened Protocol
  import opened Tiling
  import opened OutputLog
  import opened HistoryFrames
  import opened RegistrySteps
  import Steps = RegistrySteps

  /** One stretch of output, on its session's list and on the registry's list at once. */
  class HistoryEntry {
    const session: ManagedSession
    var offset: nat
    var data: seq<Byte>

    constructor (session: ManagedSession, offset: nat, data: seq<Byte>)
      ensures this.session == session && this.offset == offset && this.data == data
    {
      this.session, this.offset, this.data := session, offset, data;
    }

    ghost function Value(): Entry<ManagedSession>
      reads this
    {
      Entry(session, offset, data)
    }
  }

  /** A browser connection, as far as the registry looks at one. */
  class Connection {
    const device: string
    var credentialId: string
    var done: bool

    constructor (device: string, credentialId: string)
      ensures this.device == device && this.credentialId == credentialId && !done
    {
      this.device, this.credentialId, done := device, credentialId, false;
    }
  }

  function OwnerOf(owner: Connection?): Option<Connection> {
    if owner == null then None else Some(owner as Connection)
  }

  class ManagedSession {
    const id: string
    const credentialId: string
    const deviceIdentity: string
    var owner: Connection?
    var detached: bool
    var replaying: bool
    var history: seq<HistoryEntry>
    var historyBytes: nat
    var nextOffset: nat
    var closed: bool
    var closeErr: Option<int>
    var terminalCloses: nat

    constructor (id: string, credentialId: string, deviceIdentity: string, owner: Connection)
      ensures Value() == Session(id, credentialId, deviceIdentity, Some(owner), false, false, false, 0)
      ensures history == [] && historyBytes == 0 && terminalCloses == 0
    {
      this.id, this.credentialId, this.deviceIdentity, this.owner := id, credentialId, deviceIdentity, owner;
      detached, replaying, closed := false, false, false;
      history, historyBytes, nextOffset := [], 0, 0;
      closeErr, terminalCloses := None, 0;
    }

    ghost function Value(): Session<Connection>
      reads this
    {
      Session(id, credentialId, deviceIdentity, OwnerOf(owner), detached, replaying, closed, nextOffset)
    }
  }

  class PendingOpen {
    const id: string
    const owner: Connection
    const credentialId: string
    var cancelled: bool

    constructor (id: string, owner: Connection, credentialId: string)
      ensures this.id == id && this.owner == owner && this.credentialId == credentialId && !cancelled
    {
      this.id, this.owner, this.credentialId, cancelled := id, owner, credentialId, false;
    }

    function Value(): Pending<Connection> {
      Pending(id, owner, credentialId)
    }
  }

  /** What a closer carries from the fence to the end of the close. */
  datatype CloseTicket = CloseTicket(managed: ManagedSession, owner: Connection?, reason: string, notify: bool,
                                     first: bool)

  // ---------- The tickets of a batch ----------

  type RegistryState = Steps.Registry<ManagedSession, PendingOpen, Connection>

  /** The ticket of one fence: a first one carries the owner the session had. */
  function Ticket(r: RegistryState, managed: ManagedSession, reason: string): CloseTicket
    requires managed in r.sessions
  {
    var session := r.sessions[managed];
    var owner := if session.closed || session.owner.None? then null else session.owner.value;
    CloseTicket(managed, owner, reason, false, !session.closed)
  }

  function Tickets(r: RegistryState, managed: seq<ManagedSession>, reason: string): seq<CloseTicket>
    requires forall s | s in managed :: s in r.sessions
  {
    if managed == [] then []
    else
      var front := managed[..|managed| - 1];
      Tickets(r, front, reason) + [Ticket(AllFenced(r, front), managed[|front|], reason)]
  }

  lemma {:induction false} FencedOnce(r: RegistryState, managed: seq<ManagedSession>, s: ManagedSession)
    requires s in r.sessions && forall m | m in managed :: m in r.sessions
    ensures s in AllFenced(r, managed).sessions
    ensures s in managed ==> AllFenced(r, managed).sessions[s].closed
    ensures s !in managed ==> AllFenced(r, managed).sessions[s] == r.sessions[s]
    ensures AllFenced(r, managed).sessions[s].closed <==> r.sessions[s].closed || s in managed
  {
    if managed != [] {
      var front, last := managed[..|managed| - 1], managed[|managed| - 1];
      assert managed == front + [last];
      FencedOnce(r, front, s);
    }
  }

  /** A batch holds one ticket a session, in order; exactly the first for a session that was still open is a first
      one, and it alone carries the owner the session had. */
  lemma {:induction false} TicketsExact(r: RegistryState, managed: seq<ManagedSession>, reason: string, i: nat)
    requires forall s | s in managed :: s in r.sessions
    requires i < |managed|
    ensures |Tickets(r, managed, reason)| == |managed|
    ensures var ticket, session := Tickets(r, managed, reason)[i], r.sessions[managed[i]];
            && ticket.managed == managed[i] && ticket.reason == reason && !ticket.notify
            && (ticket.first <==> !session.closed && managed[i] !in managed[..i])
            && OwnerOf(ticket.owner) == if ticket.first then session.owner else None
  {
    var front := managed[..|managed| - 1];
    if i < |front| {
      assert front[..i] == managed[..i];
      TicketsExact(r, front, reason, i);
    } else {
      if front != [] { TicketsExact(r, front, reason, 0); }
      FencedOnce(r, front, managed[i]);
    }
  }

  const ID_ATTEMPTS := 8

  /** After a shutdown's fences: every open still waiting for its shell is cancelled. */
  method CancelOpens(opens: set<PendingOpen>)
    modifies opens`cancelled
    ensures forall open | open in opens :: open.cancelled
  {
    var rest := opens;
    while rest != {}
      invariant rest <= opens && forall open | open in opens - rest :: open.cancelled
      decreases rest
    {
      var open :| open in rest;
      open.cancelled := true;
      rest := rest - {open};
    }
  }

  /** The entries of one session, in list order. */
  ghost function Mine(entries: seq<HistoryEntry>, session: ManagedSession): seq<HistoryEntry> {
    if entries == [] then []
    else if entries[0].session == session then [entries[0]] + Mine(entries[1..], session)
    else Mine(entries[1..], session)
  }

  /** list.Remove: the list without one element. */
  function Removed(entries: seq<HistoryEntry>, entry: HistoryEntry): seq<HistoryEntry> {
    if entries == [] then []
    else if entries[0] == entry then entries[1..]
    else [entries[0]] + Removed(entries[1..], entry)
  }

  ghost predicate Distinct(entries: seq<HistoryEntry>) {
    forall i, j | 0 <= i < j < |entries| :: entries[i] != entries[j]
  }

  ghost function Values(entries: seq<HistoryEntry>): seq<Entry<ManagedSession>>
    reads entries
  {
    seq(|entries|, i requires 0 <= i < |entries| reads entries => entries[i].Value())
  }

  lemma {:induction false} RemovedAt(entries: seq<HistoryEntry>, i: nat)
    requires Distinct(entries) && i < |entries|
    ensures Removed(entries, entries[i]) == entries[..i] + entries[i + 1..]
  {
    if i > 0 {
      RemovedAt(entries[1..], i - 1);
    }
  }

  lemma {:induction false} MineIn(entries: seq<HistoryEntry>, session: ManagedSession, entry: HistoryEntry)
    ensures entry in Mine(entries, session) <==> entry in entries && entry.session == session
  {
    if entries != [] {
      MineIn(entries[1..], session, entry);
    }
  }

  lemma {:induction false} MineAppend(entries: seq<HistoryEntry>, entry: HistoryEntry, session: ManagedSession)
    ensures Mine(entries + [entry], session) ==
            if entry.session == session then Mine(entries, session) + [entry] else Mine(entries, session)
  {
    if entries == [] {
      assert entries + [entry] == [entry];
    } else {
      MineAppend(entries[1..], entry, session);
      assert (entries + [entry])[1..] == entries[1..] + [entry];
    }
  }

  /** A session's oldest entry is the first of its own on the registry's list. */
  lemma {:induction false} MineFront(entries: seq<HistoryEntry>, session: ManagedSession, i: nat)
    requires i < |entries| && entries[i].session == session && Mine(entries[..i], session) == []
    ensures Mine(entries, session) != [] && Mine(entries, session)[0] == entries[i]
  {
    if i > 0 {
      assert entries[..i][1..] == entries[1..][..i - 1];
      MineFront(entries[1..], session, i - 1);
    }
  }

  /** Taking an entry off the registry's list takes it off its session's part. */
  lemma {:induction false} MineRemoved(entries: seq<HistoryEntry>, entry: HistoryEntry, session: ManagedSession)
    requires Distinct(entries)
    ensures Mine(Removed(entries, entry), session) ==
            if entry.session == session then Removed(Mine(entries, session), entry) else Mine(entries, session)
  {
    if entries != [] {
      if entries[0] != entry {
        MineRemoved(entries[1..], entry, session);
      }
    }
  }

  lemma {:induction false} ValuesMine(entries: seq<HistoryEntry>, session: ManagedSession)
    ensures Of(Values(entries), session) == Values(Mine(entries, session))
  {
    if entries != [] {
      ValuesMine(entries[1..], session);
      assert Values(entries)[1..] == Values(entries[1..]);
      assert Values(Mine(entries, session)) ==
             if entries[0].session == session then [entries[0].Value()] + Values(Mine(entries[1..], session))
             else Values(Mine(entries[1..], session));
    }
  }

  class Registry {
    var active: map<string, ManagedSession>
    var pending: set<PendingOpen>
    var revokedCredentials: set<string>
    var shuttingDown: bool
    var history: seq<HistoryEntry>
    var historyBytes: nat
    ghost var sessions: set<ManagedSession>  // every session ever registered

    constructor ()
      ensures Valid()
      ensures State() == Steps.Registry(map[], map[], map[], {}, false, [])
    {
      active, pending, revokedCredentials, shuttingDown := map[], {}, {}, false;
      history, historyBytes, sessions := [], 0, {};
    }

    /** The registry's state as a value. */
    ghost function State(): Steps.Registry<ManagedSession, PendingOpen, Connection>
      reads this, sessions, history
    {
      Steps.Registry(map s | s in sessions :: s.Value(), active, map p | p in pending :: p.Value(),
                             revokedCredentials, shuttingDown, Log())
    }

    ghost predicate Valid()
      reads this, sessions, history
    {
      && Listed()
      && (forall id | id in active :: active[id] in sessions && active[id].id == id)
    }

    /** The entries on the registry's list. */
    ghost function Entries(): set<HistoryEntry>
      reads this
    {
      set entry | entry in history
    }

    /** The log the two kinds of list stand for. */
    ghost function Log(): seq<Entry<ManagedSession>>
      reads this, history
    {
      Values(history)
    }

    /** Both kinds of list hold the same entries, and the byte counters count them. */
    ghost predicate Listed()
      reads this, sessions, history
    {
      && Distinct(history)
      && (forall entry | entry in history :: entry.session in sessions)
      && (forall session | session in sessions :: session.history == Mine(history, session))
      && historyBytes == Size(Log())
      && (forall session | session in sessions :: session.historyBytes == Size(Of(Log(), session)))
      && NonEmpty(Log())
    }

    /** Evicts from the front of an entry that is its session's oldest; a consumed entry leaves both lists. */
    method EvictEntryBytes(entry: HistoryEntry, count: nat, ghost i: nat)
      requires Listed() && i < |history| && history[i] == entry && Of(Log()[..i], entry.session) == []
      modifies this`history, this`historyBytes, entry, entry.session`history, entry.session`historyBytes
      ensures Listed()
      ensures Log() == EvictAt(old(Log()), i, count)
      ensures Entries() <= old(Entries())
    {
      if count >= |entry.data| {
        EvictWhole(entry, count, i);
      } else if count > 0 {
        EvictPart(entry, count, i);
      }
    }

    method EvictWhole(entry: HistoryEntry, count: nat, ghost i: nat)
      requires Listed() && i < |history| && history[i] == entry && Of(Log()[..i], entry.session) == []
      requires count >= |entry.data|
      modifies this`history, this`historyBytes, entry, entry.session`history, entry.session`historyBytes
      ensures Listed() && Entries() <= old(Entries())
      ensures Log() == EvictAt(old(Log()), i, count)
    {
      hide Mine;
      hide Of;
      hide Size;
      Evicts(i, count);
      assert Log()[i].data != [];
      TakeOff(entry, i);
    }

    method EvictPart(entry: HistoryEntry, count: nat, ghost i: nat)
      requires Listed() && i < |history| && history[i] == entry && Of(Log()[..i], entry.session) == []
      requires 0 < count < |entry.data|
      modifies this`historyBytes, entry, entry.session`historyBytes
      ensures Listed()
      ensures Log() == EvictAt(old(Log()), i, count)
    {
      hide Mine;
      hide Of;
      hide Size;
      Evicts(i, count);
      Shorten(entry, count, i);
    }

    lemma Evicts(i: nat, count: nat)
      requires Listed() && i < |history| && Of(Log()[..i], history[i].session) == []
      ensures NonEmpty(EvictAt(Log(), i, count))
      ensures EvictLeaves(Log(), EvictAt(Log(), i, count), i, count, history[i].session)
      ensures forall session | session in sessions :: EvictLeaves(Log(), EvictAt(Log(), i, count), i, count, session)
    {
      EvictNonEmpty(Log(), i, count);
      forall session | session in sessions ensures EvictLeaves(Log(), EvictAt(Log(), i, count), i, count, session) {
        EvictSizes(Log(), i, count, session);
      }
    }

    ghost predicate EvictLeaves(before: seq<Entry<ManagedSession>>, after: seq<Entry<ManagedSession>>, i: nat,
                                count: nat, session: ManagedSession)
      requires i < |before|
    {
      var taken := if count < |before[i].data| then count else |before[i].data|;
      && taken <= Size(before) && taken <= Size(Of(before, before[i].session))
      && Size(after) == Size(before) - taken
      && Size(Of(after, session)) == Size(Of(before, session)) - if session == before[i].session then taken else 0
    }

    method Shorten(entry: HistoryEntry, count: nat, ghost i: nat)
      requires Distinct(history) && i < |history| && history[i] == entry && 0 < count < |entry.data|
      requires count <= historyBytes && count <= entry.session.historyBytes
      modifies this`historyBytes, entry, entry.session`historyBytes
      ensures Log() == EvictAt(old(Log()), i, count)
      ensures historyBytes == old(historyBytes) - count
      ensures entry.session.historyBytes == old(entry.session.historyBytes) - count
    {
      entry.data := entry.data[count..];
      entry.offset := entry.offset + count;
      entry.session.historyBytes := entry.session.historyBytes - count;
      historyBytes := historyBytes - count;
    }

    method TakeOff(entry: HistoryEntry, ghost i: nat)
      requires Distinct(history) && i < |history| && history[i] == entry
      requires entry.session.history == Mine(history, entry.session)
      requires |entry.data| <= historyBytes && |entry.data| <= entry.session.historyBytes
      modifies this`history, this`historyBytes, entry, entry.session`history, entry.session`historyBytes
      ensures history == old(history)[..i] + old(history)[i + 1..] && Entries() <= old(Entries())
      ensures Log() == old(Log())[..i] + old(Log())[i + 1..]
      ensures historyBytes == old(historyBytes) - old(|entry.data|)
      ensures entry.session.historyBytes == old(entry.session.historyBytes) - old(|entry.data|)
      ensures entry.session.history == Mine(history, entry.session)
      ensures forall session | session != entry.session :: Mine(history, session) == Mine(old(history), session)
    {
      hide Mine;
      RemovedAt(history, i);
      MineRemoved(history, entry, entry.session);
      forall session: ManagedSession | session != entry.session
        ensures Mine(Removed(history, entry), session) == Mine(history, session)
      {
        MineRemoved(history, entry, session);
      }
      var count := |entry.data|;
      entry.session.history := Removed(entry.session.history, entry);
      history := Removed(history, entry);
      entry.data := [];
      entry.session.historyBytes := entry.session.historyBytes - count;
      historyBytes := historyBytes - count;
    }

    // ---------- Output ----------

    method PushBack(managed: ManagedSession, data: seq<Byte>)
      requires Listed() && managed in sessions && data != []
      modifies this`history, this`historyBytes, managed`nextOffset, managed`history, managed`historyBytes
      ensures Listed() && Log() == old(Log()) + [Entry(managed, old(managed.nextOffset), data)]
      ensures managed.nextOffset == old(managed.nextOffset) + |data|
      ensures fresh(Entries() - old(Entries()))
    {
      var entry := new HistoryEntry(managed, managed.nextOffset, data);
      managed.nextOffset := managed.nextOffset + |data|;
      Link(entry, managed);
    }

    /** A new entry goes to the end of both lists. */
    method Link(entry: HistoryEntry, managed: ManagedSession)
      requires Listed() && managed in sessions && entry.session == managed && entry !in history && entry.data != []
      modifies this`history, this`historyBytes, managed`history, managed`historyBytes
      ensures Listed() && history == old(history) + [entry] && Log() == old(Log()) + [entry.Value()]
    {
      hide Mine;
      hide Of;
      hide Size;
      Grows(entry);
      managed.history := managed.history + [entry];
      managed.historyBytes := managed.historyBytes + |entry.data|;
      history := history + [entry];
      historyBytes := historyBytes + |entry.data|;
      assert Log() == old(Log()) + [entry.Value()];
    }

    lemma Grows(entry: HistoryEntry)
      requires Listed()
      ensures Size(Log() + [entry.Value()]) == Size(Log()) + |entry.data|
      ensures forall session | session in sessions ::
                Mine(history + [entry], session) ==
                    if session == entry.session then session.history + [entry] else session.history
      ensures forall session | session in sessions ::
                Size(Of(Log() + [entry.Value()], session)) == session.historyBytes + if session == entry.session
                    then |entry.data| else 0
    {
      ContentAppend(Log(), entry.Value());
      forall session | session in sessions
        ensures Mine(history + [entry], session) ==
                if session == entry.session then session.history + [entry] else session.history
        ensures Size(Of(Log() + [entry.Value()], session)) == session.historyBytes + if session == entry.session
                then |entry.data| else 0
      {
        MineAppend(history, entry, session);
        GrownSizes(Log(), entry.Value(), session);
      }
    }

    /** A session's front entry is the first of its own in the log. */
    lemma Oldest(managed: ManagedSession) returns (i: nat)
      requires Listed() && managed in sessions && Of(Log(), managed) != []
      ensures i == First(Log(), managed) && i < |history|
      ensures managed.history != [] && managed.history[0] == history[i] && history[i].session == managed
      ensures Of(Log()[..i], managed) == []
    {
      i := First(Log(), managed);
      FirstIsFirst(Log(), managed);
      assert Values(history[..i]) == Log()[..i];
      ValuesMine(history[..i], managed);
      MineFront(history, managed, i);
    }

    method EvictOldest(managed: ManagedSession, count: nat)
      requires Listed() && managed in sessions && Of(Log(), managed) != []
      modifies this`history, this`historyBytes, sessions`history, sessions`historyBytes, Entries()
      ensures Listed() && Entries() <= old(Entries())
      ensures Log() == EvictAt(old(Log()), First(old(Log()), managed), count)
    {
      ghost var i := Oldest(managed);
      assert managed.history[0] in Entries();
      EvictEntryBytes(managed.history[0], count, i);
    }

    method EvictSession(managed: ManagedSession)
      requires Listed() && managed in sessions
      modifies this`history, this`historyBytes, sessions`history, sessions`historyBytes, Entries()
      ensures Listed() && Log() == TrimSession(old(Log()), managed, MAX_SESSION_HISTORY)
      ensures Entries() <= old(Entries())
    {
      hide Listed;
      hide Of;
      hide Size;
      hide First;
      while managed.historyBytes > MAX_SESSION_HISTORY
        invariant Listed()
        invariant Entries() <= old(Entries())
        invariant TrimSession(Log(), managed, MAX_SESSION_HISTORY) == TrimSession(old(Log()), managed,
                                                                                  MAX_SESSION_HISTORY)
        decreases |Log()|, Size(Log())
      {
        EvictExcess(managed);
      }
      Counted(managed);
    }

    /** One turn of the session's eviction loop. */
    method EvictExcess(managed: ManagedSession)
      requires Listed() && managed in sessions && managed.historyBytes > MAX_SESSION_HISTORY
      modifies this`history, this`historyBytes, sessions`history, sessions`historyBytes, Entries()
      ensures Listed() && Entries() <= old(Entries())
      ensures TrimSession(Log(), managed, MAX_SESSION_HISTORY) == TrimSession(old(Log()), managed, MAX_SESSION_HISTORY)
      ensures |Log()| < |old(Log())| || (|Log()| == |old(Log())| && Size(Log()) < Size(old(Log())))
    {
      hide Listed;
      Counted(managed);
      EvictShrinks(Log(), First(Log(), managed), managed.historyBytes - MAX_SESSION_HISTORY);
      EvictOldest(managed, managed.historyBytes - MAX_SESSION_HISTORY);
    }

    lemma Counted(managed: ManagedSession)
      requires Listed() && managed in sessions
      ensures managed.historyBytes == Size(Of(Log(), managed))
      ensures managed.historyBytes > 0 ==> Of(Log(), managed) != []
    {
    }

    method EvictAgent()
      requires Listed()
      modifies this`history, this`historyBytes, sessions`history, sessions`historyBytes, Entries()
      ensures Listed() && Log() == TrimAll(old(Log()), MAX_AGENT_HISTORY)
      ensures Entries() <= old(Entries())
    {
      while historyBytes > MAX_AGENT_HISTORY
        invariant Listed()
        invariant Entries() <= old(Entries())
        invariant TrimAll(Log(), MAX_AGENT_HISTORY) == TrimAll(old(Log()), MAX_AGENT_HISTORY)
        decreases |history|, historyBytes
      {
        EvictShrinks(Log(), 0, historyBytes - MAX_AGENT_HISTORY);
        assert history[0] in history;
        EvictEntryBytes(history[0], historyBytes - MAX_AGENT_HISTORY, 0);
      }
    }

    method Extend(managed: ManagedSession, data: seq<Byte>)
      requires Listed() && managed in sessions && data != []
      modifies this`history, this`historyBytes, managed`nextOffset, sessions`history, sessions`historyBytes, Entries()
      ensures Listed()
      ensures Log() == Appended(old(Log()), managed, old(managed.nextOffset), data)
      ensures managed.nextOffset == old(managed.nextOffset) + |data|
    {
      hide Listed;
      hide TrimSession;
      hide TrimAll;
      PushBack(managed, data);
      EvictSession(managed);
      EvictAgent();
    }

    /** Appends one read of output and evicts what exceeds the session's limit, then the agent's. */
    method AppendHistory(managed: ManagedSession, data: seq<Byte>) returns (offset: nat, appended: bool)
      requires Valid() && managed in sessions
      modifies this`history, this`historyBytes, managed`nextOffset, sessions`history, sessions`historyBytes, Entries()
      ensures Valid()
      ensures appended == MayAppend(old(managed.Value()), data)
      ensures appended ==> offset == old(managed.nextOffset)
      ensures State() == if appended then Grown(old(State()), managed, data) else old(State())
    {
      if managed.closed || |data| == 0 || managed.nextOffset > MAX_SEQUENCE - |data| { return 0, false; }
      offset, appended := managed.nextOffset, true;
      hide Listed;
      hide Grown;
      ExtendState(managed, data);
    }

    method ExtendState(managed: ManagedSession, data: seq<Byte>)
      requires Valid() && managed in sessions && data != []
      modifies this`history, this`historyBytes, managed`nextOffset, sessions`history, sessions`historyBytes, Entries()
      ensures Valid()
      ensures State() == Grown(old(State()), managed, data)
    {
      hide Listed;
      hide Appended;
      hide Log;
      Extend(managed, data);
      forall session | session in sessions && session != managed ensures session.Value() == old(session.Value()) {
      }
      NextOffset(managed);
      OneChanged(managed);
    }

    twostate lemma NextOffset(managed: ManagedSession)
      requires managed.owner == old(managed.owner) && managed.detached == old(managed.detached)
      requires managed.replaying == old(managed.replaying) && managed.closed == old(managed.closed)
      ensures managed.Value() == old(managed.Value()).(nextOffset := managed.nextOffset)
      ensures old(managed.Value()).nextOffset == old(managed.nextOffset)
    {
    }

    /** When only one session's control fields and the log have changed, the state is the old one with them put in. */
    twostate lemma OneChanged(managed: ManagedSession)
      requires managed in sessions && sessions == old(sessions)
      requires active == old(active) && pending == old(pending) && revokedCredentials == old(revokedCredentials)
      requires shuttingDown == old(shuttingDown)
      requires forall session | session in sessions && session != managed :: session.Value() == old(session.Value())
      ensures State() == old(State()).With(managed, managed.Value()).(log := Log())
    {
    }

    // ---------- Reading the history ----------

    method SnapshotHistory(managed: ManagedSession) returns (snapshot: Snapshot<ManagedSession>)
      requires Valid() && managed in sessions
      ensures snapshot == SnapshotOf(State(), managed)
    {
      ValuesMine(history, managed);
      var start := if managed.history == [] then managed.nextOffset else managed.history[0].offset;
      var frames: seq<Piece> := [];
      var i := 0;
      ghost var mine := Of(Log(), managed);
      assert mine[..0] == [];
      while i < |managed.history|
        invariant 0 <= i <= |managed.history| == |mine|
        invariant frames == FramesOf(mine[..i])
      {
        frames := frames + [Piece(managed.history[i].offset, managed.history[i].data)];
        assert mine[..i + 1][..i] == mine[..i];
        i := i + 1;
      }
      assert mine[..i] == mine;
      snapshot := Snapshot(managed, managed.id, start, managed.nextOffset, start > 0, frames);
    }

    method HistoryRange(managed: ManagedSession, start: nat, end: nat) returns (frames: seq<Piece>, ok: bool)
      requires Valid() && managed in sessions
      ensures RangeOf(Of(Log(), managed), start, end) == if ok then Some(frames) else None
    {
      ValuesMine(history, managed);
      var cursor: nat := start;
      frames := [];
      var i := 0;
      ghost var mine := Of(Log(), managed);
      ghost var whole := RangeOf(mine, start, end);
      assert mine[0..] == mine;
      PrependedNothing(whole);
      while i < |managed.history| && cursor < end
        invariant 0 <= i <= |managed.history| == |mine|
        invariant whole == Prepended(frames, RangeOf(mine[i..], cursor, end))
      {
        var entry := managed.history[i];
        assert mine[i..][0] == entry.Value() && mine[i..][1..] == mine[i + 1..];
        if entry.offset + |entry.data| > cursor {
          if entry.offset > cursor { return [], false; }
          var skip := cursor - entry.offset;
          var length := if |entry.data| - skip > end - cursor then end - cursor else |entry.data| - skip;
          var piece := Piece(cursor, entry.data[skip..skip + length]);
          PrependedMore(frames, piece, RangeOf(mine[i + 1..], cursor + length, end));
          frames := frames + [piece];
          cursor := cursor + length;
        }
        i := i + 1;
      }
      ok := cursor == end;
      assert frames + [] == frames;
    }

    // ---------- Attaching and detaching ----------

    /** Writes the three ownership fields of one session. */
    method SetOwnership(managed: ManagedSession, owner: Connection?, detached: bool, replaying: bool)
      requires Valid() && managed in sessions
      modifies managed`owner, managed`detached, managed`replaying
      ensures Valid()
      ensures State() == old(State()).With(managed,
                old(managed.Value()).(owner := OwnerOf(owner), detached := detached, replaying := replaying))
    {
      managed.owner := owner;
      managed.detached := detached;
      managed.replaying := replaying;
      Unmoved();
      OneChanged(managed);
    }

    /** The history side of the registry is as it was. */
    twostate lemma Unmoved()
      requires old(Listed()) && sessions == old(sessions) && history == old(history)
      requires historyBytes == old(historyBytes)
      requires forall session | session in sessions ::
                 session.history == old(session.history) && session.historyBytes == old(session.historyBytes)
      requires forall entry | entry in history :: unchanged(entry)
      ensures Listed() && Log() == old(Log())
    {
      forall i | 0 <= i < |history| ensures Log()[i] == old(Log())[i] {
        assert history[i] in history && unchanged(history[i]);
      }
      assert Log() == old(Log());
    }

    method Owned(owner: Connection, id: string) returns (managed: ManagedSession?)
      requires Valid()
      ensures managed == null <==> Steps.Owned(State(), owner, id).None?
      ensures managed != null ==>
                Steps.Owned(State(), owner, id) == Some(managed) && managed in sessions && !managed.replaying
    {
      hide Listed;
      if id !in active || active[id].owner != owner || active[id].detached || active[id].replaying
         || active[id].closed {
        return null;
      }
      managed := active[id];
    }

    method Detach(owner: Connection, id: string) returns (ok: bool)
      requires Valid()
      modifies sessions`owner, sessions`detached, sessions`replaying
      ensures Valid()
      ensures ok <==> Steps.Detached(old(State()), owner, id).Some?
      ensures State() == if ok then Steps.Detached(old(State()), owner, id).value else old(State())
    {
      hide Listed;
      var managed := Owned(owner, id);
      if managed == null { return false; }
      SetOwnership(managed, null, true, managed.replaying);
      ok := true;
    }

    /** The locked part of beginReopen; the snapshot is taken in the same section as the claim. */
    method BeginReopen(owner: Connection, id: string) returns (snapshot: Option<Snapshot<ManagedSession>>)
      requires Valid()
      modifies sessions`owner, sessions`detached, sessions`replaying
      ensures Valid()
      ensures snapshot.Some? <==> MayReopen(old(State()), id, owner.credentialId, owner.device, owner.done)
      ensures snapshot.None? ==> State() == old(State())
      ensures snapshot.Some? ==>
                && State() == Reopened(old(State()), active[id], owner)
                && snapshot.value == SnapshotOf(State(), active[id])
    {
      hide Listed;
      var managed := Reopenable(owner, id);
      if managed == null { return None; }
      SetOwnership(managed, owner, false, true);
      var taken := SnapshotHistory(managed);
      snapshot := Some(taken);
    }

    method Reopenable(owner: Connection, id: string) returns (managed: ManagedSession?)
      requires Valid()
      ensures managed != null <==> MayReopen(State(), id, owner.credentialId, owner.device, owner.done)
      ensures managed != null ==> id in active && managed == active[id]
    {
      hide Listed;
      if id !in active { return null; }
      managed := active[id];
      if managed.closed || !managed.detached || managed.replaying || managed.owner != null
         || managed.credentialId != owner.credentialId || managed.deviceIdentity == "" || owner.device == ""
         || managed.deviceIdentity != owner.device || shuttingDown || managed.credentialId in revokedCredentials
            || owner.done {
        return null;
      }
    }

    method IsHolding(owner: Connection, managed: ManagedSession) returns (holding: bool)
      requires Valid() && managed in sessions
      ensures holding == Holding(State(), managed, owner)
    {
      hide Listed;
      holding := managed.id in active && active[managed.id] == managed && !managed.closed && managed.owner == owner
      && managed.replaying;
    }

    method ReleaseReopen(owner: Connection, managed: ManagedSession)
      requires Valid() && managed in sessions
      modifies managed`owner, managed`detached, managed`replaying
      ensures Valid()
      ensures State() == Released(old(State()), managed, owner)
    {
      hide Listed;
      var holding := IsHolding(owner, managed);
      if holding { SetOwnership(managed, null, true, false); }
    }

    /** One locked turn of the catch-up loop. */
    method CatchUpTurn(owner: Connection, managed: ManagedSession, cursor: nat) returns (turn: CatchUp)
      requires Valid() && managed in sessions
      modifies managed`owner, managed`detached, managed`replaying
      ensures Valid()
      ensures (State(), turn) == CaughtUp(old(State()), managed, owner, cursor)
    {
      hide Listed;
      var holding := IsHolding(owner, managed);
      if !holding { return Lost; }
      var start := RetainedFrom(managed);
      if cursor < start { return Evicted; }
      var end := managed.nextOffset;
      if cursor == end {
        SetOwnership(managed, managed.owner, managed.detached, false);
        return Done;
      }
      var frames, ok := HistoryRange(managed, cursor, end);
      turn := if ok then More(frames) else Broken;
    }

    method RetainedFrom(managed: ManagedSession) returns (start: nat)
      requires Valid() && managed in sessions
      ensures start == StartOf(Of(Log(), managed), managed.nextOffset)
    {
      ValuesMine(history, managed);
      start := if managed.history == [] then managed.nextOffset else managed.history[0].offset;
    }

    method DetachAfterTransportSendFailure(managed: ManagedSession, owner: Connection)
      requires Valid() && managed in sessions
      modifies managed`owner, managed`detached, managed`replaying
      ensures Valid()
      ensures State() == SendFailed(old(State()), managed, owner)
    {
      hide Listed;
      if managed.id in active && active[managed.id] == managed && !managed.closed && managed.owner == owner {
        SetOwnership(managed, null, true, false);
      }
    }

    // ---------- Closing ----------

    method RemoveHistory(managed: ManagedSession)
      requires Listed() && managed in sessions
      modifies this`history, this`historyBytes, sessions`history, sessions`historyBytes, Entries()
      ensures Listed() && Log() == Without(old(Log()), managed)
      ensures Entries() <= old(Entries())
    {
      hide Listed;
      while |managed.history| > 0
        invariant Listed()
        invariant Entries() <= old(Entries())
        invariant Without(Log(), managed) == Without(old(Log()), managed)
        decreases |Log()|
      {
        HasHistory(managed);
        ghost var before := Log();
        WithoutFirst(before, managed);
        var count := FrontBytes(managed);
        EvictOldest(managed, count);
        EvictedWhole(before, First(before, managed));
      }
      HasHistory(managed);
      WithoutNothing(Log(), managed);
    }

    method FrontBytes(managed: ManagedSession) returns (count: nat)
      requires Listed() && managed in sessions && Of(Log(), managed) != []
      ensures count == |Log()[First(Log(), managed)].data| > 0
    {
      ghost var i := Oldest(managed);
      assert Log()[i] == managed.history[0].Value();
      assert Log()[i].data != [];
      count := |managed.history[0].data|;
    }

    lemma HasHistory(managed: ManagedSession)
      requires Listed() && managed in sessions
      ensures |Of(Log(), managed)| == |managed.history|
    {
      ValuesMine(history, managed);
    }

    /** The first fence closes the session and takes its owner and history; a later one finds it closed. */
    method FenceManaged(managed: ManagedSession, reason: string, notify: bool) returns (ticket: CloseTicket)
      requires Valid() && managed in sessions
      modifies this`history, this`historyBytes, sessions`history, sessions`historyBytes, Entries(), managed`closed,
               managed`owner
      ensures Valid() && Entries() <= old(Entries())
      ensures State() == Fenced(old(State()), managed)
      ensures ticket == CloseTicket(managed, if old(managed.closed) then null
                                    else old(managed.owner), reason, notify, !old(managed.closed))
      ensures managed.closed
    {
      hide Listed;
      ticket := CloseTicket(managed, null, reason, notify, false);
      if managed.closed { return; }
      ticket := CloseTicket(managed, managed.owner, reason, notify, true);
      CloseOff(managed);
    }

    method CloseOff(managed: ManagedSession)
      requires Valid() && managed in sessions
      modifies this`history, this`historyBytes, sessions`history, sessions`historyBytes, Entries(), managed`closed,
               managed`owner
      ensures Valid() && Entries() <= old(Entries())
      ensures State() == old(State()).With(managed,
                                           old(managed.Value()).(closed := true,
                                                                 owner := None)).(log := Without(old(Log()), managed))
    {
      hide Listed;
      RemoveHistory(managed);
      Mark(managed);
      OneChanged(managed);
    }

    method Mark(managed: ManagedSession)
      requires Listed() && managed in sessions
      modifies managed`closed, managed`owner
      ensures Listed() && Log() == old(Log())
      ensures managed.Value() == old(managed.Value()).(closed := true, owner := None)
    {
      managed.closed := true;
      managed.owner := null;
      Unmoved();
    }

    /** Fences a batch in one section. */
    method FenceAll(managed: seq<ManagedSession>, reason: string) returns (tickets: seq<CloseTicket>)
      requires Valid() && forall s | s in managed :: s in sessions
      modifies this`history, this`historyBytes, sessions`history, sessions`historyBytes, Entries(), sessions`closed,
               sessions`owner
      ensures Valid()
      ensures State() == AllFenced(old(State()), managed)
      ensures tickets == Tickets(old(State()), managed, reason)
    {
      hide Listed;
      hide Tickets;
      hide AllFenced;
      tickets := [];
      var i := 0;
      ghost var before := State();
      NoneYet(before, managed, reason);
      while i < |managed|
        invariant 0 <= i <= |managed| && Valid() && Entries() <= old(Entries())
        invariant State() == AllFenced(before, managed[..i])
        invariant tickets == Tickets(before, managed[..i], reason)
      {
        var ticket := FenceNext(managed, i, reason, before);
        tickets := tickets + [ticket];
        i := i + 1;
      }
      assert managed[..i] == managed;
    }

    method FenceNext(managed: seq<ManagedSession>, i: nat, reason: string, ghost before: RegistryState)
        returns (ticket: CloseTicket)
      requires Valid() && i < |managed| && managed[i] in sessions && forall s | s in managed :: s in before.sessions
      requires State() == AllFenced(before, managed[..i])
      modifies this`history, this`historyBytes, sessions`history, sessions`historyBytes, Entries(), sessions`closed,
               sessions`owner
      ensures Valid() && Entries() <= old(Entries())
      ensures State() == AllFenced(before, managed[..i + 1])
      ensures Tickets(before, managed[..i + 1], reason) == Tickets(before, managed[..i], reason) + [ticket]
    {
      hide Listed;
      hide Tickets;
      hide AllFenced;
      OneMore(before, managed, i, reason);
      ticket := FenceManaged(managed[i], reason, false);
    }

    lemma NoneYet(before: RegistryState, managed: seq<ManagedSession>, reason: string)
      requires forall s | s in managed :: s in before.sessions
      ensures AllFenced(before, managed[..0]) == before && Tickets(before, managed[..0], reason) == []
    {
    }

    /** The next session of a batch. */
    lemma OneMore(before: RegistryState, managed: seq<ManagedSession>, i: nat, reason: string)
      requires i < |managed| && forall s | s in managed :: s in before.sessions
      ensures AllFenced(before, managed[..i + 1]) == Fenced(AllFenced(before, managed[..i]), managed[i])
      ensures Tickets(before, managed[..i + 1], reason) ==
              Tickets(before, managed[..i], reason) + [Ticket(AllFenced(before, managed[..i]), managed[i], reason)]
    {
      assert managed[..i + 1][..i] == managed[..i];
    }

    /** An active session, of this credential if one is given. */
    ghost predicate IsActive(session: ManagedSession, credential: Option<string>)
      reads this`active
    {
      exists id ::
            id in active && active[id] == session && (credential.None? || session.credentialId == credential.value)
    }

    /** The active sessions, or those of one credential, in some order. */
    method ActiveSessions(credential: Option<string>) returns (managed: seq<ManagedSession>)
      requires Valid()
      ensures forall s | s in managed :: s in sessions
      ensures forall s :: s in managed <==> IsActive(s, credential)
    {
      hide Listed;
      managed := [];
      var rest := active.Keys;
      while rest != {}
        invariant rest <= active.Keys
        invariant forall s :: s in managed <==>
                    exists id ::
                          id in active.Keys - rest && active[id] == s
                          && (credential.None? || s.credentialId == credential.value)
        decreases rest
      {
        var id :| id in rest;
        if credential.None? || active[id].credentialId == credential.value { managed := managed + [active[id]]; }
        rest := rest - {id};
      }
    }

    /** Marks a credential revoked and fences its active sessions, in one section. */
    method FenceCredentialRevocation(credentialId: string)
        returns (tickets: seq<CloseTicket>, ghost managed: seq<ManagedSession>)
      requires Valid()
      modifies this`revokedCredentials, this`history, this`historyBytes, sessions`history, sessions`historyBytes,
               Entries(), sessions`closed, sessions`owner
      ensures Valid()
      ensures forall s | s in managed :: s in old(sessions)
      ensures State() == AllFenced(Revoked(old(State()), credentialId), managed)
      ensures forall s :: s in managed <==> IsActive(s, Some(credentialId))
      ensures tickets == Tickets(Revoked(old(State()), credentialId), managed, "credential_revoked")
    {
      hide Listed;
      var found := ActiveSessions(Some(credentialId));
      managed := found;
      revokedCredentials := revokedCredentials + {credentialId};
      StillListed();
      assert State() == Revoked(old(State()), credentialId);
      tickets := FenceAll(found, "credential_revoked");
    }

    /** Closes admission and fences every active session, in one section. */
    method FenceShutdown()
        returns (tickets: seq<CloseTicket>, opens: set<PendingOpen>, ghost managed: seq<ManagedSession>)
      requires Valid()
      modifies this`shuttingDown, this`history, this`historyBytes, sessions`history, sessions`historyBytes, Entries(),
               sessions`closed, sessions`owner
      ensures Valid()
      ensures forall s | s in managed :: s in old(sessions)
      ensures State() == AllFenced(ShuttingDown(old(State())), managed)
      ensures forall s :: s in managed <==> IsActive(s, None)
      ensures tickets == Tickets(ShuttingDown(old(State())), managed, "agent_shutdown") && opens == old(pending)
    {
      hide Listed;
      var found := ActiveSessions(None);
      managed := found;
      shuttingDown := true;
      opens := pending;
      StillListed();
      assert State() == ShuttingDown(old(State()));
      tickets := FenceAll(found, "agent_shutdown");
    }

    twostate lemma StillListed()
      requires old(Listed()) && sessions == old(sessions) && history == old(history)
      requires historyBytes == old(historyBytes)
      requires forall session | session in sessions :: unchanged(session)
      requires forall entry | entry in history :: unchanged(entry)
      ensures Listed() && Log() == old(Log())
    {
      Unmoved();
    }

    method LetGo(managed: ManagedSession, owner: Connection)
      requires Valid() && managed in sessions
      modifies managed`owner, managed`detached, managed`replaying
      ensures Valid()
      ensures State() == if old(State()).sessions[managed].owner == Some(owner)
                         then old(State()).With(managed, Unowned(old(State()).sessions[managed])) else old(State())
    {
      hide Listed;
      if managed.owner == owner {
        SetOwnership(managed, null, true, false);
      }
    }

    /** The locked part of disconnected, for a connection whose shells are kept. */
    method DetachOwned(owner: Connection)
      requires Valid()
      modifies sessions`owner, sessions`detached, sessions`replaying
      ensures Valid()
      ensures State() == Abandoned(old(State()), owner)
    {
      hide Listed;
      var rest := active.Keys;
      ghost var before := State();
      assert before.sessions == AbandonedAmong(before, owner, {}).sessions;
      assert active.Keys - rest == {};
      while rest != {}
        invariant Valid() && rest <= active.Keys
        invariant State() == AbandonedAmong(before, owner, active.Keys - rest)
        decreases rest
      {
        var id :| id in rest;
        assert active.Keys - (rest - {id}) == (active.Keys - rest) + {id};
        LetGoNext(owner, id, before, active.Keys - rest);
        rest := rest - {id};
      }
      assert active.Keys - rest == active.Keys;
    }

    method LetGoNext(owner: Connection, id: string, ghost before: RegistryState, ghost ids: set<string>)
      requires Valid() && id in active && id !in ids && ids <= active.Keys
      requires active == before.active && WellListed(before)
      requires State() == AbandonedAmong(before, owner, ids)
      modifies sessions`owner, sessions`detached, sessions`replaying
      ensures Valid() && State() == AbandonedAmong(before, owner, ids + {id})
    {
      hide Listed;
      AbandonedOneMore(before, owner, ids, id);
      LetGo(active[id], owner);
    }

    /** The last section of a close: the terminal's error is kept for all closers, and the session leaves the table. */
    method FinishClose(managed: ManagedSession, err: Option<int>)
      requires Valid() && managed in sessions
      modifies this`active, managed`closeErr
      ensures Valid() && managed.closeErr == err
      ensures State() == Unlisted(old(State()), managed)
    {
      hide Listed;
      StoreCloseErr(managed, err);
      Unlist(managed);
    }

    method StoreCloseErr(managed: ManagedSession, err: Option<int>)
      requires Valid() && managed in sessions
      modifies managed`closeErr
      ensures Valid() && managed.closeErr == err && State() == old(State())
    {
      managed.closeErr := err;
      Unmoved();
      OneChanged(managed);
    }

    method Unlist(managed: ManagedSession)
      requires Valid() && managed in sessions
      modifies this`active
      ensures Valid()
      ensures State() == Unlisted(old(State()), managed)
    {
      hide Listed;
      if managed.id in active && active[managed.id] == managed {
        active := active - {managed.id};
        StillListed();
      }
    }

    // ---------- Opening ----------

    method AdmissionError(owner: Connection, credentialId: string) returns (refused: bool)
      requires Valid()
      ensures refused == !Admissible(State(), credentialId, owner.done)
    {
      refused := shuttingDown || credentialId in revokedCredentials || owner.done;
    }

    method InUse(id: string) returns (used: bool)
      requires Valid()
      ensures used == IdInUse(State(), id)
    {
      used := id in active || exists p | p in pending :: p.id == id;
      assert forall p | p in pending :: State().pending[p].id == p.id;
    }

    /** Ids were generated without error, and none is well formed and free. */
    ghost predicate Unusable(generated: seq<Option<string>>, valid: string -> bool)
      reads this, sessions, history
    {
      forall j | 0 <= j < |generated| ::
        generated[j].Some? && (!valid(generated[j].value) || IdInUse(State(), generated[j].value))
    }

    /** Tries at most eight generated ids and takes the first that is well formed and free; a generator error before
        that, or eight unusable ids, and there is none. */
    method ReserveSessionId(generated: seq<Option<string>>, valid: string -> bool) returns (id: Option<string>)
      requires Valid() && |generated| == ID_ATTEMPTS
      ensures id.Some? ==> valid(id.value) && !IdInUse(State(), id.value)
      ensures id.Some? ==> exists i | 0 <= i < ID_ATTEMPTS :: id == generated[i] && Unusable(generated[..i], valid)
      ensures forall i | 0 <= i < ID_ATTEMPTS && Unusable(generated[..i], valid) && generated[i].Some?
                         && valid(generated[i].value) && !IdInUse(State(), generated[i].value) :: id == generated[i]
    {
      hide Listed;
      var attempt := 0;
      while attempt < ID_ATTEMPTS
        invariant 0 <= attempt <= ID_ATTEMPTS
        invariant Unusable(generated[..attempt], valid)
      {
        if generated[attempt].None? { return None; }
        var used := InUse(generated[attempt].value);
        if valid(generated[attempt].value) && !used { return generated[attempt]; }
        assert generated[..attempt + 1] == generated[..attempt] + [generated[attempt]];
        attempt := attempt + 1;
      }
      id := None;
    }

    /** The first section of open, once an id is reserved. */
    method AddPending(id: string, owner: Connection, credentialId: string) returns (open: PendingOpen)
      requires Valid()
      modifies this`pending
      ensures Valid() && fresh(open)
      ensures State() == Reserved(old(State()), open, id, owner, credentialId)
    {
      hide Listed;
      open := new PendingOpen(id, owner, credentialId);
      pending := pending + {open};
      StillListed();
      assert State().pending == old(State()).pending[open := open.Value()];
    }

    method RemovePending(open: PendingOpen)
      requires Valid()
      modifies this`pending
      ensures Valid() && State() == PendingRemoved(old(State()), open)
    {
      hide Listed;
      pending := pending - {open};
      StillListed();
      assert State().pending == old(State()).pending - {open};
    }

    /** The second section of open: the shell exists, and is registered only if it is still admissible; else its
        terminal is closed. */
    method FinishOpen(open: PendingOpen) returns (managed: ManagedSession, result: OpenResult)
      requires Valid() && open in pending
      modifies this`pending, this`active, this`sessions
      ensures Valid() && fresh(managed) && managed.terminalCloses == if result == Registered then 0 else 1
      ensures (State(), result) == OpenFinished(old(State()), open, managed, open.owner.device, open.owner.done)
    {
      hide Listed;
      managed := new ManagedSession(open.id, open.credentialId, open.owner.device, open.owner);
      RemovePending(open);
      result := Admit(managed, open.owner);
    }

    /** Registers a shell whose open is no longer pending, or closes it. */
    method Admit(managed: ManagedSession, owner: Connection) returns (result: OpenResult)
      requires Valid() && managed !in sessions && managed.history == [] && managed.historyBytes == 0
      requires managed.terminalCloses == 0
      modifies this`active, this`sessions, managed`terminalCloses
      ensures Valid() && managed.terminalCloses == if result == Registered then 0 else 1
      ensures result == if !Admissible(old(State()), managed.credentialId, owner.done) then Refused
                        else if managed.id in old(State()).active then Collision else Registered
      ensures State() == if result != Registered then old(State())
                         else old(State()).(active := old(State()).active[managed.id := managed],
                                            sessions := old(State()).sessions[managed := managed.Value()])
    {
      hide Listed;
      var refused := AdmissionError(owner, managed.credentialId);
      if !refused && managed.id !in active {
        Register(managed);
        return Registered;
      }
      CloseTerminal(managed);
      result := if refused then Refused else Collision;
    }

    method CloseTerminal(managed: ManagedSession)
      requires Valid() && managed !in sessions && managed.terminalCloses == 0
      modifies managed`terminalCloses
      ensures Valid() && State() == old(State())
      ensures managed.terminalCloses == 1
    {
      hide Listed;
      managed.terminalCloses := 1;
      StillListed();
    }

    method Register(managed: ManagedSession)
      requires Valid() && managed !in sessions && managed.id !in active && managed.history == []
      requires managed.historyBytes == 0
      modifies this`active, this`sessions
      ensures Valid()
      ensures State() == old(State()).(active := old(State()).active[managed.id := managed],
                                       sessions := old(State()).sessions[managed := managed.Value()])
    {
      ValuesMine(history, managed);
      NobodysEntries(history, managed);
      active := active[managed.id := managed];
      sessions := sessions + {managed};
      assert State().sessions == old(State()).sessions[managed := managed.Value()];
    }
  }

  /** More frames in front of a range that may be missing. */
  function Prepended(frames: seq<Piece>, rest: Option<seq<Piece>>): Option<seq<Piece>> {
    match rest
    case None => None
    case Some(more) => Some(frames + more)
  }

  lemma PrependedNothing(rest: Option<seq<Piece>>)
    ensures Prepended([], rest) == rest
  {
    if rest.Some? {
      assert [] + rest.value == rest.value;
    }
  }

  lemma PrependedMore(frames: seq<Piece>, piece: Piece, rest: Option<seq<Piece>>)
    ensures Prepended(frames, Prepended([piece], rest)) == Prepended(frames + [piece], rest)
  {
    if rest.Some? {
      assert frames + ([piece] + rest.value) == frames + [piece] + rest.value;
    }
  }

  lemma {:induction false} NobodysEntries(entries: seq<HistoryEntry>, session: ManagedSession)
    requires forall entry | entry in entries :: entry.session != session
    ensures Mine(entries, session) == []
  {
    if entries != [] {
      assert entries[0] in entries;
      NobodysEntries(entries[1..], session);
    }
  }
}
