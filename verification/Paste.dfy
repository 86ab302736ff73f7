/** A paste in progress: its chunks share the connection with the keyboard. */
module Paste {
  import opened Protocol
  import Base64Url
  import SendPath

  // ---------- A chunk always fits ----------

  const BEFORE_NAME: string := "{\"version\":\"0.2\",\"type\":\"terminal_input\",\"connectionId\":\""
  const BEFORE_SEQUENCE: string := "\",\"sequence\":"
  const BEFORE_SESSION: string := ",\"payload\":{\"sessionId\":\""
  const BEFORE_DATA: string := "\",\"data\":\""
  const CLOSING: string := "\"}}"

  /** The encoded length of a terminal_input frame but for its sequence number. */
  function InputBase(connectionId: string, sessionId: string, data: seq<Byte>): nat {
    |BEFORE_NAME| + |connectionId| + |BEFORE_SEQUENCE| + |BEFORE_SESSION| + |sessionId| + |BEFORE_DATA|
    + |Base64Url.Encode(data)| + |CLOSING|
  }

  /** After the wait for half the limit, sendFrame admits any chunk: on an open connection no paste can run into the
      reservation limit. */
  lemma ChunkAdmitted(s: SendPath.State, payload: Payload, connectionId: string, sessionId: string, data: seq<Byte>)
    requires s.live && s.open && s.buffered + s.outbound <= SendPath.MAX_FRAME_BYTES / 2
    requires |connectionId| == 36 && |sessionId| == 14 && |data| <= MAX_TERMINAL_INPUT
    ensures SendPath.Submitted(s, payload, InputBase(connectionId, sessionId, data)).1 == SendPath.Admitted
  {
    SendPath.LongestNumber();
    hide SendPath.Digits;
  }

  // ---------- Pastes and keys ----------

  datatype Source = Chunk(paste: nat, index: nat) | Key(interrupt: bool, cancelled: Option<nat>)

  /** A terminal_input frame that got its place in the queue of a connection's work. */
  datatype Item = Item(work: nat, source: Source)

  datatype Phase =
    | Poised             // about to check and send, or to stop
    | Waiting(place: nat)  // its chunk is in the queue
    | Back(sent: bool)   // the send is over, the paste has not looked yet
    | Over

  datatype PasteRun = PasteRun(chunks: seq<seq<Byte>>, work: nat, next: nat, phase: Phase)

  /** A frame handed to a socket: its place among the admitted ones, and the connection whose socket it was. */
  datatype OnWire = OnWire(place: nat, connection: nat)

  /** current is pasteOperation; submitted lists every admitted input frame, queue and wire hold places in it. */
  datatype State = State(
    current: Option<nat>, pastes: seq<PasteRun>, work: nat, connected: bool,
    submitted: seq<Item>, queue: seq<nat>, wire: seq<OnWire>)
  {
    /** The paste may go on. */
    predicate Current(p: nat)
      requires p < |pastes|
    {
      current == Some(p) && pastes[p].work == work && connected
    }

    function WithPhase(p: nat, phase: Phase): State
      requires p < |pastes|
    {
      this.(pastes := pastes[p := pastes[p].(phase := phase)])
    }

    function Enqueued(source: Source): State {
      this.(submitted := submitted + [Item(work, source)], queue := queue + [|submitted|])
    }
  }

  const INITIAL := State(None, [], 0, false, [], [], [])

  datatype Move =
    | Connect                                 // a new connection takes over
    | Release                                 // the connection is let go
    | StateChanges(connected: bool)           // connected, replaying, detaching, ...; the socket may close
    | Begin(chunks: seq<seq<Byte>>)
    | SendChunk(p: nat, admitted: bool)
    | GiveUp(p: nat)                          // done, timed out or no longer current
    | Look(p: nat)                            // the paste resumes after its send
    | Press(interrupt: bool, admitted: bool)
    | Turn(q: nat, sent: bool)                // the q-th queued frame has its turn at its connection's lock

  /** finally: the paste is over, and if it still held pasteOperation it clears it. */
  function Ended(s: State, p: nat): State
    requires p < |s.pastes|
  {
    s.WithPhase(p, Over).(current := if s.current == Some(p) then None else s.current)
  }

  function AfterBegin(s: State, chunks: seq<seq<Byte>>): Option<State> {
    if s.current.Some? then Some(s)
    else
      var p := |s.pastes|;
      Some(s.(current := Some(p), pastes := s.pastes + [PasteRun(chunks, s.work, 0, Poised)]))
  }

  function AfterSendChunk(s: State, p: nat, admitted: bool): Option<State> {
    if p >= |s.pastes| || s.pastes[p].phase != Poised || s.pastes[p].next >= |s.pastes[p].chunks| || !s.Current(p)
    then None
    else if !admitted then Some(Ended(s, p))
    else
      var run := s.pastes[p];
      var waiting := run.(next := run.next + 1, phase := Waiting(|s.submitted|));
      Some(s.Enqueued(Chunk(p, run.next)).(pastes := s.pastes[p := waiting]))
  }

  function AfterGiveUp(s: State, p: nat): Option<State> {
    if p >= |s.pastes| || s.pastes[p].phase != Poised then None else Some(Ended(s, p))
  }

  function AfterLook(s: State, p: nat): Option<State> {
    if p >= |s.pastes| || !s.pastes[p].phase.Back? then None
    else if s.pastes[p].phase.sent && s.Current(p) then Some(s.WithPhase(p, Poised))
    else Some(Ended(s, p))
  }

  /** sendInput: during a paste only Control-C passes, and it ends the paste first. */
  function AfterPress(s: State, interrupt: bool, admitted: bool): Option<State> {
    if s.current.Some? && !interrupt then Some(s)
    else
      var idle := s.(current := None);
      if !s.connected || !admitted then Some(idle) else Some(idle.Enqueued(Key(interrupt, s.current)))
  }

  /** A frame of replaced work is dropped in silence; another reaches the socket or fails. */
  function AfterTurn(s: State, q: nat, sent: bool): Option<State> {
    if q >= |s.queue| || s.queue[q] >= |s.submitted|
       || exists r ::
            0 <= r < q && s.queue[r] < |s.submitted| && s.submitted[s.queue[r]].work == s.submitted[s.queue[q]].work
                then None
    else
      var place := s.queue[q];
      var item := s.submitted[place];
      var live := item.work == s.work;
      var popped := s.(queue := s.queue[..q] + s.queue[q + 1..], wire :=
                       if live && sent then s.wire + [OnWire(place, s.work)] else s.wire);
      if item.source.Chunk? && item.source.paste < |s.pastes|
      then Some(popped.WithPhase(item.source.paste, Back(!live || sent)))
      else Some(popped)
  }

  function Next(s: State, move: Move): Option<State> {
    match move
    case Connect => Some(s.(work := s.work + 1, connected := false, current := None))
    case Release => Some(s.(work := s.work + 1, connected := false))
    case StateChanges(connected) => Some(s.(connected := connected))
    case Begin(chunks) => AfterBegin(s, chunks)
    case SendChunk(p, admitted) => AfterSendChunk(s, p, admitted)
    case GiveUp(p) => AfterGiveUp(s, p)
    case Look(p) => AfterLook(s, p)
    case Press(interrupt, admitted) => AfterPress(s, interrupt, admitted)
    case Turn(q, sent) => AfterTurn(s, q, sent)
  }

  function Run(moves: seq<Move>): Option<State> {
    if moves == [] then Some(INITIAL)
    else
      match Run(moves[..|moves| - 1])
      case None => None
      case Some(before) => Next(before, moves[|moves| - 1])
  }

  // ---------- What every move keeps ----------

  predicate ChunkAt(submitted: seq<Item>, i: nat, p: nat, k: nat) {
    i < |submitted| && submitted[i].source == Chunk(p, k)
  }

  ghost predicate Increasing(places: seq<nat>) {
    forall q, r | 0 <= q < r < |places| :: places[q] < places[r]
  }

  /** Later admissions are of later work. */
  ghost predicate WorkOrder(submitted: seq<Item>, work: nat) {
    && (forall i, j | 0 <= i < j < |submitted| :: submitted[i].work <= submitted[j].work)
    && (forall i | 0 <= i < |submitted| :: submitted[i].work <= work)
  }

  /** The wire keeps the order of admission. */
  ghost predicate WireOrder(wire: seq<OnWire>, submitted: seq<Item>) {
    && (forall x | 0 <= x < |wire| ::
          wire[x].place < |submitted| && submitted[wire[x].place].work == wire[x].connection)
    && (forall x, y | 0 <= x < y < |wire| :: wire[x].place < wire[y].place)
  }

  /** What is queued for a connection comes after what it was handed. */
  ghost predicate Behind(wire: seq<OnWire>, queue: seq<nat>, submitted: seq<Item>) {
    && (forall a | a in queue :: a < |submitted|)
    && (forall x, a | 0 <= x < |wire| && a in queue && submitted[a].work == wire[x].connection :: wire[x].place < a)
  }

  ghost predicate Ordered(s: State) {
    && WorkOrder(s.submitted, s.work) && WireOrder(s.wire, s.submitted)
    && Increasing(s.queue) && Behind(s.wire, s.queue, s.submitted)
  }

  predicate Preceded(submitted: seq<Item>, i: nat, p: nat, k: nat)
    requires k > 0
  {
    i > 0 && ChunkAt(submitted, i - 1, p, k - 1)
  }

  predicate Follows(wire: seq<OnWire>, x: nat) {
    0 < x < |wire| && wire[x - 1].place == wire[x].place - 1
  }

  /** The chunks of a paste are admitted one after the other with nothing between, all for the paste's connection. */
  ghost predicate Blocks(s: State) {
    && (forall i, p: nat, k: nat | 0 <= i < |s.submitted| && ChunkAt(s.submitted, i, p, k) ::
          && p < |s.pastes| && k < s.pastes[p].next && s.submitted[i].work == s.pastes[p].work
          && (k > 0 ==> Preceded(s.submitted, i, p, k)))
    && (forall i, j, p: nat, k: nat, l: nat | 0 <= i < j < |s.submitted| && ChunkAt(s.submitted, i, p, k)
        && ChunkAt(s.submitted, j, p, l) :: k < l)
    && (forall p | 0 <= p < |s.pastes| :: s.pastes[p].next <= |s.pastes[p].chunks| && s.pastes[p].work <= s.work)
  }

  /** The paste that holds pasteOperation was the last to have a frame admitted. */
  ghost predicate Holds(s: State) {
    s.current.Some? ==>
      && s.current.value < |s.pastes|
      && (s.pastes[s.current.value].next > 0 ==>
          s.submitted != []
          && ChunkAt(s.submitted, |s.submitted| - 1, s.current.value, s.pastes[s.current.value].next - 1))
  }

  /** After the Control-C that ended a paste nothing of it is admitted. */
  ghost predicate Cancelled(s: State) {
    forall i, p: nat | 0 <= i < |s.submitted| && s.submitted[i].source.Key?
        && s.submitted[i].source.cancelled == Some(p) ::
      p < |s.pastes| && s.current != Some(p) && forall j, k: nat | i < j < |s.submitted| ::
            !ChunkAt(s.submitted, j, p, k)
  }

  ghost predicate Wired(wire: seq<OnWire>, i: nat) {
    exists x :: 0 <= x < |wire| && wire[x].place == i
  }

  /** A paste's only queued frame is the one it waits for; all before it are on the wire, and it too once the paste
      goes on. */
  ghost predicate Phases(s: State) {
    && (forall a, p: nat, k: nat | a in s.queue && ChunkAt(s.submitted, a, p, k) ::
          p < |s.pastes| && s.pastes[p].phase == Waiting(a))
    && (forall p | 0 <= p < |s.pastes| && s.pastes[p].phase.Waiting? ::
          s.pastes[p].next > 0 && ChunkAt(s.submitted, s.pastes[p].phase.place, p, s.pastes[p].next - 1))
    && (forall i, p: nat, k: nat | 0 <= i < |s.submitted| && ChunkAt(s.submitted, i, p, k) && p < |s.pastes| ::
          (k + 1 < s.pastes[p].next || s.pastes[p].phase == Poised
           || (s.pastes[p].phase == Back(true) && s.pastes[p].work == s.work))
            ==> Wired(s.wire, i))
    && (forall p | 0 <= p < |s.pastes| && s.current == Some(p) :: s.pastes[p].phase != Over)
  }

  /** On the wire, too, each chunk follows its predecessor at once. */
  ghost predicate Adjacent(s: State) {
    forall x, p: nat, k: nat | 0 < k && 0 <= x < |s.wire| && ChunkAt(s.submitted, s.wire[x].place, p, k) ::
      Follows(s.wire, x)
  }

  ghost predicate Inv(s: State) {
    Ordered(s) && Blocks(s) && Holds(s) && Cancelled(s) && Phases(s) && Adjacent(s)
  }

  lemma {:induction false} InitialInv()
    ensures Inv(INITIAL)
  {
  }
}
