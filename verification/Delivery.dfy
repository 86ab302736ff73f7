/** The agent as a transition system: every critical section of the registry, every send and every event outside
    the lock is one step, and steps of any number of sessions and connections interleave freely. */
module Delivery {
  import opened Protocol
  import opened Tiling
  import opened RegistrySteps
  import Steps = RegistrySteps

  type Reg = Registry<nat, nat, nat>

  /** The thread that copies one shell's output. */
  datatype Copier =
    | Reading
    | Sending(to: nat, offset: nat, data: seq<Byte>)  // appended, and about to be sent to the owner it saw
    | SendBroke(to: nat)                              // that send failed; the owner is still to be detached
    | Stopped

  /** The replay of a reopened session on its connection. */
  datatype Replay =
    | Idle
    | InReplay(todo: seq<Payload>, cleared: bool, cursor: nat)  // cleared: ownership was checked, the next send is on
    | Releasing

  /** One connection. `queued` lists what the agent has decided to send it, `wire` what its socket was handed. */
  datatype Conn = Conn(
    device: string, credential: string, done: bool, gone: bool, asked: bool, session: Option<nat>,
    start: nat, reach: nat, historyEnd: Option<nat>, queued: seq<Payload>, wire: seq<Payload>, replay: Replay)

  /** `discarded` are the shells whose terminal was closed instead of being registered. */
  datatype Agent = Agent(
    reg: Reg, conns: map<nat, Conn>, produced: map<nat, seq<Byte>>, copiers: map<nat, Copier>, discarded: set<nat>)
  {
    function WithConn(c: nat, conn: Conn): Agent {
      this.(conns := conns[c := conn])
    }
  }

  const INITIAL := Agent(Registry.Registry(map[], map[], map[], {}, false, []), map[], map[], map[], {})

  /** How a send ended: frames may reach the socket although the send reports an error. */
  datatype Sent = Sent(delivered: bool, ok: bool, backpressure: bool)

  datatype Step =
    | Connect(c: nat, device: string, credential: string)
    | MarkDone(c: nat)
    | Disconnect(c: nat)
    | StartOpen(c: nat, p: nat, id: string)
    | AbortOpen(p: nat)
    | FinishOpen(p: nat, s: nat)
    | DetachBy(c: nat, id: string)
    | BeginReopen(c: nat, id: string)
    | ResizeFailed(c: nat)
    | ReplayCheck(c: nat)
    | ReplaySend(c: nat, sent: Sent)
    | ReplayTurn(c: nat)
    | ReplayRelease(c: nat)
    | CopyRead(s: nat, data: seq<Byte>)
    | CopySend(s: nat, sent: Sent)
    | CopyDetach(s: nat)
    | Fence(s: nat)
    | Revoke(credential: string, sessions: seq<nat>)
    | Shutdown(sessions: seq<nat>)
    | Unlist(s: nat)

  function ChunkPayloads(id: string, pieces: seq<Piece>): seq<Payload> {
    if pieces == [] then []
    else
      var last := pieces[|pieces| - 1];
      ChunkPayloads(id, pieces[..|pieces| - 1]) + [HistoryChunk(id, last.offset, last.data)]
  }

  function OutputPayloads(id: string, pieces: seq<Piece>): seq<Payload> {
    if pieces == [] then []
    else
      var last := pieces[|pieces| - 1];
      OutputPayloads(id, pieces[..|pieces| - 1]) + [TerminalOutput(id, last.offset, last.data)]
  }

  /** What a replay sends before it catches up. */
  function Script(snapshot: Snapshot<nat>): seq<Payload> {
    [SessionReopened(snapshot.id), HistoryBegin(snapshot.id, snapshot.start, snapshot.end, snapshot.truncated)]
    + ChunkPayloads(snapshot.id, snapshot.frames) + [HistoryEnd(snapshot.id, snapshot.end)]
  }

  ghost predicate Known(a: Agent) {
    && (forall id | id in a.reg.active :: a.reg.active[id] in a.reg.sessions)
    && a.copiers.Keys == a.produced.Keys == a.reg.sessions.Keys
  }

  /** A batch closes exactly the active sessions, of one credential or all. */
  ghost predicate Batch(r: Reg, sessions: seq<nat>, credential: Option<string>) {
    && (forall s | s in sessions ::
          s in r.sessions && r.Listed(s) && (credential.None? || r.sessions[s].credential == credential.value))
    && (forall id | id in r.active && r.active[id] in r.sessions &&
          (credential.None? || r.sessions[r.active[id]].credential == credential.value) :: r.active[id] in sessions)
  }

  /** A browser connects. */
  ghost function AfterConnect(a: Agent, c: nat, device: string, credential: string): Option<Agent>
    requires Known(a)
  {
    if c in a.conns then None
    else Some(a.WithConn(c, Conn(device, credential, false, false, false, None, 0, 0, None, [], [], Idle)))
  }

  /** The connection is done; its shutdown has begun. */
  ghost function AfterMarkDone(a: Agent, c: nat): Option<Agent>
    requires Known(a)
  {
    if c !in a.conns then None else Some(a.WithConn(c, a.conns[c].(done := true)))
  }

  /** The registry hears of the disconnect and keeps the shells. */
  ghost function AfterDisconnect(a: Agent, c: nat): Option<Agent>
    requires Known(a)
  {
    if c !in a.conns || !a.conns[c].done then None
    else Some(a.WithConn(c, a.conns[c].(gone := true)).(reg := Abandoned(a.reg, c)))
  }

  /** open, first section. */
  ghost function AfterStartOpen(a: Agent, c: nat, p: nat, id: string): Option<Agent>
    requires Known(a)
  {
    if c !in a.conns || a.conns[c].asked || p in a.reg.pending || IdInUse(a.reg, id)
       || !Admissible(a.reg, a.conns[c].credential, a.conns[c].done) then None
    else Some(a.WithConn(c, a.conns[c].(asked := true)).(reg := Reserved(a.reg, p, id, c, a.conns[c].credential)))
  }

  /** The shell could not be created. */
  ghost function AfterAbortOpen(a: Agent, p: nat): Option<Agent>
    requires Known(a)
  {
    Some(a.(reg := PendingRemoved(a.reg, p)))
  }

  /** open, second section. */
  ghost function AfterFinishOpen(a: Agent, p: nat, s: nat): Option<Agent>
    requires Known(a)
  {
    if p !in a.reg.pending || s in a.reg.sessions || s in a.discarded || a.reg.pending[p].owner !in a.conns then None
    else
      var c := a.reg.pending[p].owner;
      var (reg, result) := OpenFinished(a.reg, p, s, a.conns[c].device, a.conns[c].done);
      if result == Registered then
        Some(a.WithConn(c, a.conns[c].(session := Some(s)))
              .(reg := reg, produced := a.produced[s := []], copiers := a.copiers[s := Reading]))
      else Some(a.(reg := reg, discarded := a.discarded + {s}))
  }

  /** The connection asks to detach. */
  ghost function AfterDetachBy(a: Agent, c: nat, id: string): Option<Agent>
    requires Known(a)
  {
    match Steps.Detached(a.reg, c, id)
    case None => None
    case Some(reg) => Some(a.(reg := reg))
  }

  /** The claim and its snapshot, in one section. */
  ghost function AfterBeginReopen(a: Agent, c: nat, id: string): Option<Agent>
    requires Known(a)
  {
    if c !in a.conns || a.conns[c].asked
       || !MayReopen(a.reg, id, a.conns[c].credential, a.conns[c].device, a.conns[c].done) then None
    else
      var s := a.reg.active[id];
      var snapshot := SnapshotOf(a.reg, s);
      var script := Script(snapshot);
      Some(a.WithConn(c, a.conns[c].(asked := true, session := Some(s), start := snapshot.start, reach := snapshot.end,
                                     historyEnd := Some(snapshot.end), queued := script,
                                     replay := InReplay(script, false, snapshot.end)))
            .(reg := Reopened(a.reg, s, c)))
  }

  /** The claimed shell refuses its new size; its close follows. */
  ghost function AfterResizeFailed(a: Agent, c: nat): Option<Agent>
    requires Known(a)
  {
    if c !in a.conns || !a.conns[c].replay.InReplay? || a.conns[c].replay.cleared || a.conns[c].wire != [] then None
    else Some(a.WithConn(c, a.conns[c].(replay := Idle)))
  }

  /** sendReplay checks ownership before each frame. */
  ghost function AfterReplayCheck(a: Agent, c: nat): Option<Agent>
    requires Known(a)
  {
    if c !in a.conns || a.conns[c].session.None? || a.conns[c].session.value !in a.reg.sessions then None
    else if !a.conns[c].replay.InReplay? || a.conns[c].replay.cleared || a.conns[c].replay.todo == [] then None
    else if Holding(a.reg, a.conns[c].session.value, c)
    then Some(a.WithConn(c, a.conns[c].(replay := a.conns[c].replay.(cleared := true))))
    else Some(a.WithConn(c, a.conns[c].(replay := Releasing)))
  }

  /** sendReplay sends the frame, outside the lock. */
  ghost function AfterReplaySend(a: Agent, c: nat, sent: Sent): Option<Agent>
    requires Known(a)
  {
    if c !in a.conns || !a.conns[c].replay.InReplay? || !a.conns[c].replay.cleared || a.conns[c].replay.todo == []
       || (sent.ok && !sent.delivered) then None
    else
      var todo := a.conns[c].replay.todo;
      var wire := if sent.delivered then a.conns[c].wire + [todo[0]] else a.conns[c].wire;
      var replay := if sent.ok then InReplay(todo[1..], false, a.conns[c].replay.cursor) else Releasing;
      Some(a.WithConn(c, a.conns[c].(wire := wire, replay := replay)))
  }

  /** One turn of the catch-up loop. */
  ghost function AfterReplayTurn(a: Agent, c: nat): Option<Agent>
    requires Known(a)
  {
    if c !in a.conns || a.conns[c].session.None? || a.conns[c].session.value !in a.reg.sessions then None
    else if !a.conns[c].replay.InReplay? || a.conns[c].replay.todo != [] then None
    else
      var s := a.conns[c].session.value;
      var (reg, turn) := CaughtUp(a.reg, s, c, a.conns[c].replay.cursor);
      var next := match turn
                  case Done => a.conns[c].(replay := Idle)
                  case More(frames) =>
                    var outputs := OutputPayloads(reg.sessions[s].id, frames);
                    var end := reg.sessions[s].nextOffset;
                    a.conns[c].(queued := a.conns[c].queued + outputs, reach := end,
                                replay := InReplay(outputs, false, end))
                  case Lost => a.conns[c].(replay := Idle)
                  case Evicted => a.conns[c].(replay := Releasing)
                  case Broken => a.conns[c].(replay := Releasing);
      Some(a.WithConn(c, next).(reg := reg))
  }

  /** A replay that failed lets its claim go. */
  ghost function AfterReplayRelease(a: Agent, c: nat): Option<Agent>
    requires Known(a)
  {
    if c !in a.conns || a.conns[c].replay != Releasing || a.conns[c].session.None?
       || a.conns[c].session.value !in a.reg.sessions then None
    else Some(a.WithConn(c, a.conns[c].(replay := Idle)).(reg := Released(a.reg, a.conns[c].session.value, c)))
  }

  /** One read of output is appended, and the owner of that moment noted. */
  ghost function AfterCopyRead(a: Agent, s: nat, data: seq<Byte>): Option<Agent>
    requires Known(a)
  {
    if s !in a.reg.sessions || a.copiers[s] != Reading || !(0 < |data| <= MAX_TERMINAL_OUTPUT) then None
    else if !MayAppend(a.reg.sessions[s], data) then Some(a.(copiers := a.copiers[s := Stopped]))
    else
      var session := a.reg.sessions[s];
      var grown := a.(reg := Grown(a.reg, s, data), produced := a.produced[s := a.produced[s] + data]);
      if session.owner.Some? && !session.replaying && session.owner.value in a.conns then
        var c := session.owner.value;
        var output := TerminalOutput(session.id, session.nextOffset, data);
        Some(grown.WithConn(c,
                            a.conns[c].(queued := a.conns[c].queued + [output], reach := session.nextOffset + |data|))
                  .(copiers := a.copiers[s := Sending(c, session.nextOffset, data)]))
      else Some(grown)
  }

  /** The noted owner is sent the output, outside the lock. */
  ghost function AfterCopySend(a: Agent, s: nat, sent: Sent): Option<Agent>
    requires Known(a)
  {
    if s !in a.reg.sessions || !a.copiers[s].Sending? || a.copiers[s].to !in a.conns || (sent.ok && !sent.delivered)
    then None
    else
      var Sending(c, offset, data) := a.copiers[s];
      var output := TerminalOutput(a.reg.sessions[s].id, offset, data);
      var copier := if sent.ok then Reading else if sent.backpressure then Stopped else SendBroke(c);
      var conn := if sent.delivered then a.conns[c].(wire := a.conns[c].wire + [output]) else a.conns[c];
      Some(a.WithConn(c, conn).(copiers := a.copiers[s := copier]))
  }

  /** After a failed send the noted owner is detached. */
  ghost function AfterCopyDetach(a: Agent, s: nat): Option<Agent>
    requires Known(a)
  {
    if s !in a.reg.sessions || !a.copiers[s].SendBroke? then None
    else Some(a.(reg := SendFailed(a.reg, s, a.copiers[s].to), copiers := a.copiers[s := Reading]))
  }

  /** Any closer fences the session. */
  ghost function AfterFence(a: Agent, s: nat): Option<Agent>
    requires Known(a)
  {
    if s !in a.reg.sessions then None else Some(a.(reg := Fenced(a.reg, s)))
  }

  /** A credential is revoked and its active sessions fenced, in one section. */
  ghost function AfterRevoke(a: Agent, credential: string, sessions: seq<nat>): Option<Agent>
    requires Known(a)
  {
    if !Batch(a.reg, sessions, Some(credential)) then None
    else Some(a.(reg := AllFenced(Revoked(a.reg, credential), sessions)))
  }

  /** Admission closes and every active session is fenced, in one section. */
  ghost function AfterShutdown(a: Agent, sessions: seq<nat>): Option<Agent>
    requires Known(a)
  {
    if !Batch(a.reg, sessions, None) then None
    else Some(a.(reg := AllFenced(ShuttingDown(a.reg), sessions)))
  }

  /** A close ends and the session leaves the table. */
  ghost function AfterUnlist(a: Agent, s: nat): Option<Agent>
    requires Known(a)
  {
    if s !in a.reg.sessions || !a.reg.sessions[s].closed then None else Some(a.(reg := Unlisted(a.reg, s)))
  }

  /** The agent after one step, or None when the step cannot happen. */
  ghost function Next(a: Agent, step: Step): Option<Agent>
    requires Known(a)
  {
    match step
    case Connect(c, device, credential) => AfterConnect(a, c, device, credential)
    case MarkDone(c) => AfterMarkDone(a, c)
    case Disconnect(c) => AfterDisconnect(a, c)
    case StartOpen(c, p, id) => AfterStartOpen(a, c, p, id)
    case AbortOpen(p) => AfterAbortOpen(a, p)
    case FinishOpen(p, s) => AfterFinishOpen(a, p, s)
    case DetachBy(c, id) => AfterDetachBy(a, c, id)
    case BeginReopen(c, id) => AfterBeginReopen(a, c, id)
    case ResizeFailed(c) => AfterResizeFailed(a, c)
    case ReplayCheck(c) => AfterReplayCheck(a, c)
    case ReplaySend(c, sent) => AfterReplaySend(a, c, sent)
    case ReplayTurn(c) => AfterReplayTurn(a, c)
    case ReplayRelease(c) => AfterReplayRelease(a, c)
    case CopyRead(s, data) => AfterCopyRead(a, s, data)
    case CopySend(s, sent) => AfterCopySend(a, s, sent)
    case CopyDetach(s) => AfterCopyDetach(a, s)
    case Fence(s) => AfterFence(a, s)
    case Revoke(credential, sessions) => AfterRevoke(a, credential, sessions)
    case Shutdown(sessions) => AfterShutdown(a, sessions)
    case Unlist(s) => AfterUnlist(a, s)
  }
}
