/** The critical sections of the session registry, each as one function on the registry's state.
    S names sessions, P pending opens, C connections. */
module RegistrySteps {
  import opened Protocol
  import opened Tiling
  import opened OutputLog
  import opened HistoryFrames

  datatype Session<C> = Session(
    id: string, credential: string, device: string,
    owner: Option<C>, detached: bool, replaying: bool, closed: bool, nextOffset: nat)

  datatype Pending<C> = Pending(id: string, owner: C, credential: string)

  datatype Registry<S, P, C> = Registry(
    sessions: map<S, Session<C>>,  // every session ever registered
    active: map<string, S>,
    pending: map<P, Pending<C>>,
    revoked: set<string>,
    shuttingDown: bool,
    log: seq<Entry<S>>)
  {
    /** The session is still the one listed under its id. */
    predicate Listed(session: S)
      requires session in sessions
    {
      sessions[session].id in active && active[sessions[session].id] == session
    }

    function With(session: S, value: Session<C>): Registry<S, P, C> {
      this.(sessions := sessions[session := value])
    }
  }

  // ---------- Opening ----------

  predicate Admissible<S, P, C>(r: Registry<S, P, C>, credential: string, done: bool) {
    !r.shuttingDown && credential !in r.revoked && !done
  }

  predicate IdInUse<S, P, C>(r: Registry<S, P, C>, id: string) {
    id in r.active || exists p | p in r.pending :: r.pending[p].id == id
  }

  /** The first section of open: a free id is reserved while the shell is created outside the lock. */
  function Reserved<S, P, C>(r: Registry<S, P, C>, pending: P, id: string, owner: C,
                             credential: string): Registry<S, P, C> {
    r.(pending := r.pending[pending := Pending(id, owner, credential)])
  }

  function PendingRemoved<S, P, C>(r: Registry<S, P, C>, pending: P): Registry<S, P, C> {
    r.(pending := r.pending - {pending})
  }

  datatype OpenResult = Registered | Refused | Collision

  /** The second section of open: registered only if still admissible. */
  function OpenFinished<S, P, C>(r: Registry<S, P, C>, pending: P, session: S, device: string,
                                 done: bool): (Registry<S, P, C>, OpenResult)
    requires pending in r.pending
  {
    var Pending(id, owner, credential) := r.pending[pending];
    var removed := PendingRemoved(r, pending);
    if !Admissible(r, credential, done) then (removed, Refused)
    else if id in r.active then (removed, Collision)
    else
      (removed.(active := r.active[id := session],
                sessions := r.sessions[session := Session(id, credential, device, Some(owner), false, false, false,
                                                          0)]),
       Registered)
  }

  // ---------- Attaching and detaching ----------

  function Owned<S, P, C(==)>(r: Registry<S, P, C>, owner: C, id: string): Option<S>
    requires forall k | k in r.active :: r.active[k] in r.sessions
  {
    if id !in r.active then None
    else
      var session := r.sessions[r.active[id]];
      if session.owner != Some(owner) || session.detached || session.replaying || session.closed then None
      else Some(r.active[id])
  }

  function Unowned<C>(session: Session<C>): Session<C> {
    session.(owner := None, detached := true, replaying := false)
  }

  function Detached<S, P, C(==)>(r: Registry<S, P, C>, owner: C, id: string): Option<Registry<S, P, C>>
    requires forall k | k in r.active :: r.active[k] in r.sessions
  {
    match Owned(r, owner, id)
    case None => None
    case Some(session) => Some(r.With(session, r.sessions[session].(owner := None, detached := true)))
  }

  /** Why a connection may claim a detached session. */
  predicate MayReopen<S, P, C>(r: Registry<S, P, C>, id: string, credential: string, device: string, done: bool)
    requires forall k | k in r.active :: r.active[k] in r.sessions
  {
    && id in r.active
    && var session := r.sessions[r.active[id]];
       && !session.closed && session.detached && !session.replaying && session.owner.None?
       && session.credential == credential && session.device != "" && device != "" && session.device == device
       && !r.shuttingDown && session.credential !in r.revoked && !done
  }

  /** What a reopen hands its connection. */
  datatype Snapshot<S> = Snapshot(managed: S, id: string, start: nat, end: nat, truncated: bool, frames: seq<Piece>)

  function SnapshotOf<S, P, C>(r: Registry<S, P, C>, session: S): Snapshot<S>
    requires session in r.sessions
  {
    var mine := Of(r.log, session);
    var end := r.sessions[session].nextOffset;
    Snapshot(session, r.sessions[session].id, StartOf(mine, end), end, StartOf(mine, end) > 0, FramesOf(mine))
  }

  function Reopened<S, P, C>(r: Registry<S, P, C>, session: S, owner: C): Registry<S, P, C>
    requires session in r.sessions
  {
    r.With(session, r.sessions[session].(owner := Some(owner), detached := false, replaying := true))
  }

  /** The replay still owns the session. */
  predicate Holding<S, P, C(==)>(r: Registry<S, P, C>, session: S, owner: C)
    requires session in r.sessions
  {
    r.Listed(session) && !r.sessions[session].closed && r.sessions[session].owner == Some(owner)
    && r.sessions[session].replaying
  }

  function Released<S, P, C(==)>(r: Registry<S, P, C>, session: S, owner: C): Registry<S, P, C>
    requires session in r.sessions
  {
    if Holding(r, session, owner) then r.With(session, Unowned(r.sessions[session])) else r
  }

  /** One turn of the loop that catches up with output captured during the replay. */
  datatype CatchUp = Lost | Evicted | Done | More(frames: seq<Piece>) | Broken

  function CaughtUp<S, P, C(==)>(r: Registry<S, P, C>, session: S, owner: C, cursor: nat): (Registry<S, P, C>, CatchUp)
    requires session in r.sessions
  {
    if !Holding(r, session, owner) then (r, Lost)
    else
      var mine := Of(r.log, session);
      var end := r.sessions[session].nextOffset;
      if cursor < StartOf(mine, end) then (r, Evicted)
      else if cursor == end then (r.With(session, r.sessions[session].(replaying := false)), Done)
      else
        match RangeOf(mine, cursor, end)
        case Some(frames) => (r, More(frames))
        case None => (r, Broken)
  }

  /** A live send failed: the session goes back to detached if this connection still owns it. */
  function SendFailed<S, P, C(==)>(r: Registry<S, P, C>, session: S, owner: C): Registry<S, P, C>
    requires session in r.sessions
  {
    if r.Listed(session) && !r.sessions[session].closed && r.sessions[session].owner == Some(owner)
    then r.With(session, Unowned(r.sessions[session]))
    else r
  }

  // ---------- Output ----------

  predicate MayAppend<C>(session: Session<C>, data: seq<Byte>) {
    !session.closed && data != [] && session.nextOffset <= MAX_SEQUENCE - |data|
  }

  function Grown<S, P, C>(r: Registry<S, P, C>, session: S, data: seq<Byte>): Registry<S, P, C>
    requires session in r.sessions
  {
    var next := r.sessions[session].nextOffset;
    r.(log := Appended(r.log, session, next, data),
       sessions := r.sessions[session := r.sessions[session].(nextOffset := next + |data|)])
  }

  // ---------- Closing ----------

  /** A session is fenced once: no owner, no history, and closed for good. */
  function Fenced<S, P, C>(r: Registry<S, P, C>, session: S): Registry<S, P, C>
    requires session in r.sessions
  {
    if r.sessions[session].closed then r
    else
      r.(sessions := r.sessions[session := r.sessions[session].(closed := true, owner := None)],
         log := Without(r.log, session))
  }

  function AllFenced<S, P, C>(r: Registry<S, P, C>, sessions: seq<S>): (f: Registry<S, P, C>)
    requires forall s | s in sessions :: s in r.sessions
    ensures f.sessions.Keys == r.sessions.Keys
  {
    if sessions == [] then r else Fenced(AllFenced(r, sessions[..|sessions| - 1]), sessions[|sessions| - 1])
  }

  function Revoked<S, P, C>(r: Registry<S, P, C>, credential: string): Registry<S, P, C> {
    r.(revoked := r.revoked + {credential})
  }

  function ShuttingDown<S, P, C>(r: Registry<S, P, C>): Registry<S, P, C> {
    r.(shuttingDown := true)
  }

  /** The last section of a close: the session leaves the table, if it is still listed there. */
  function Unlisted<S, P, C>(r: Registry<S, P, C>, session: S): Registry<S, P, C>
    requires session in r.sessions
  {
    if r.Listed(session) then r.(active := r.active - {r.sessions[session].id}) else r
  }

  /** A connection is gone and its shells are kept: every session it owned, among those listed under the given
      ids, is detached. */
  function AbandonedAmong<S, P, C(==)>(r: Registry<S, P, C>, owner: C, ids: set<string>): Registry<S, P, C> {
    r.(sessions := map s | s in r.sessions ::
         if r.Listed(s) && r.sessions[s].id in ids && r.sessions[s].owner == Some(owner) then Unowned(r.sessions[s])
         else r.sessions[s])
  }

  function Abandoned<S, P, C(==)>(r: Registry<S, P, C>, owner: C): Registry<S, P, C> {
    AbandonedAmong(r, owner, r.active.Keys)
  }

  /** Each id lists a session that carries it. */
  ghost predicate WellListed<S, P, C>(r: Registry<S, P, C>) {
    forall id | id in r.active :: r.active[id] in r.sessions && r.sessions[r.active[id]].id == id
  }

  lemma AbandonedOneMore<S, P, C>(r: Registry<S, P, C>, owner: C, ids: set<string>, id: string)
    requires WellListed(r) && id in r.active && id !in ids
    ensures var before := AbandonedAmong(r, owner, ids);
            var session := r.active[id];
            && before.sessions[session] == r.sessions[session]
            && AbandonedAmong(r, owner, ids + {id}) ==
                 if r.sessions[session].owner == Some(owner) then before.With(session, Unowned(r.sessions[session]))
                 else before
  {
    var before := AbandonedAmong(r, owner, ids);
    var session := r.active[id];
    var after := AbandonedAmong(r, owner, ids + {id});
    assert after.sessions.Keys == before.sessions.Keys;
    forall s | s in r.sessions && s != session ensures after.sessions[s] == before.sessions[s] {
      assert r.Listed(s) ==> r.sessions[s].id != id;
    }
    assert after.sessions == if r.sessions[session].owner == Some(owner)
                             then before.sessions[session := Unowned(r.sessions[session])] else before.sessions;
  }
}
