/** Which runs the browser machine accepts carry their history and output without gap or overlap. */
module BrowserTiling {
  import opened Protocol
  import opened Tiling
  import opened WholeRuns
  import opened MachineSteps
  import B = BrowserMachine

  /** The frame begins, or begins anew, a history. */
  predicate Begins(event: Event) {
    event.Deliver? && event.frame.payload.HistoryBegin?
  }

  /** The frame answers a history_begin: with history, or by ending it. */
  predicate Answers(event: Event) {
    event.Deliver? && (event.frame.payload.HistoryChunk? || event.frame.payload.HistoryEnd?)
  }

  /** Where the latest history_begin starts, while no frame has answered it. */
  function Unanswered(events: seq<Event>): Option<nat> {
    if events == [] then None
    else
      var last := events[|events| - 1];
      if Begins(last) then Some(last.frame.payload.startOffset)
      else if Answers(last) then None
      else Unanswered(events[..|events| - 1])
  }

  predicate EndsAt(pieces: seq<Piece>, offset: nat) {
    pieces == [] || pieces[|pieces| - 1].offset + |pieces[|pieces| - 1].data| == offset
  }

  /** Every history_begin that is answered starts where the history so far ends. */
  ghost predicate Continues(events: seq<Event>) {
    if events == [] then true
    else
      var last := events[|events| - 1];
      var front := events[..|events| - 1];
      && Continues(front)
      && (Answers(last) && Unanswered(front).Some? ==> EndsAt(Pieces(front), Unanswered(front).value))
  }

  ghost predicate TilesTo(pieces: seq<Piece>, end: nat) {
    exists start :: Tile(pieces, start, end)
  }

  ghost predicate Tiles(pieces: seq<Piece>) {
    exists end :: TilesTo(pieces, end)
  }

  lemma TilesToAppend(pieces: seq<Piece>, piece: Piece)
    ensures TilesTo(pieces + [piece], piece.offset + |piece.data|) <==> TilesTo(pieces, piece.offset)
  {
    var more := pieces + [piece];
    assert more[..|pieces|] == pieces;
    if TilesTo(pieces, piece.offset) {
      var start :| Tile(pieces, start, piece.offset);
      assert Tile(more, start, piece.offset + |piece.data|);
    }
    if TilesTo(more, piece.offset + |piece.data|) {
      var start :| Tile(more, start, piece.offset + |piece.data|);
      assert Tile(pieces, start, piece.offset);
    }
  }

  /** Pieces tile to an offset exactly when they tile at all and end there. */
  lemma TilesToEnd(pieces: seq<Piece>, offset: nat)
    ensures TilesTo(pieces, offset) <==> Tiles(pieces) && EndsAt(pieces, offset)
  {
    if pieces == [] {
      assert Tile(pieces, offset, offset);
    } else {
      if TilesTo(pieces, offset) {
        var start :| Tile(pieces, start, offset);
      }
      if Tiles(pieces) {
        var end :| TilesTo(pieces, end);
        var start :| Tile(pieces, start, end);
      }
    }
  }

  /** What an accepted run and the machine's offsets have to do with each other. */
  ghost predicate Tracked(t: B.State, continues: bool, unanswered: Option<nat>, pieces: seq<Piece>) {
    && (Rank(t.session) <= 1 ==> pieces == [] && continues && unanswered.None? && t.history.None?)
    && (t.session == Replaying && t.history.None? ==> pieces == [] && continues && unanswered.None?)
    && (t.session == Replaying && t.history.Some? && unanswered.None? ==>
        EndsAt(pieces, t.history.value.cursor) && (continues <==> TilesTo(pieces, t.history.value.cursor)))
    && (t.session == Replaying && t.history.Some? && unanswered.Some? ==>
        t.history.value.cursor == unanswered.value && (continues <==> Tiles(pieces)))
    && (Rank(t.session) >= 3 ==> unanswered.None? && t.history.None? && (continues <==> TilesTo(pieces, t.nextOutput)))
  }

  /** What the data checks do to the fields that matter here. */
  ghost predicate Moves(t: B.State, payload: Payload, next: B.State) {
    match payload
    case HistoryBegin(_, start, end, _) => next.history == Some(B.History(true, start, end))
    case HistoryChunk(_, offset, data) =>
      && t.history.Some? && offset == t.history.value.cursor
      && next.history == Some(t.history.value.(cursor := offset + |data|))
    case HistoryEnd(_, end) =>
      && t.history.Some? && t.history.value.cursor == t.history.value.endOffset == end
      && next.history.None? && next.nextOutput == end
    case TerminalOutput(_, offset, data) =>
      offset == t.nextOutput && next.nextOutput == offset + |data| && next.history == t.history
    case SessionOpened(_) => next.nextOutput == 0 && next.history == t.history
    case _ => next.nextOutput == t.nextOutput && next.history == t.history
  }

  lemma ValidationMoves(t: B.State, payload: Payload)
    requires B.ValidateSessionData(t, payload).outcome.Accepted?
    ensures Moves(t, payload, B.ValidateSessionData(t, payload).state)
  {
  }

  lemma AppliedMoves(t: B.State, direction: Direction, frame: Frame)
    requires B.Applied(t, direction, frame).outcome.Accepted?
    ensures Moves(t, frame.payload, B.Applied(t, direction, frame).state)
  {
    hide B.ValidateSessionData;
    hide B.FindTransition;
    ValidationMoves(B.CheckEnvelope(t, direction, frame).state, frame.payload);
  }

  lemma ChunkTracked(t: B.State, continues: bool, unanswered: Option<nat>, pieces: seq<Piece>, payload: Payload,
                     next: B.State)
    requires Tracked(t, continues, unanswered, pieces) && Moves(t, payload, next)
    requires payload.HistoryChunk? && t.session == next.session == Replaying
    ensures var still := continues && (unanswered.Some? ==> EndsAt(pieces, unanswered.value));
            Tracked(next, still, None, pieces + PieceOf(payload))
  {
    hide TilesTo;
    hide Tiles;
    TilesToAppend(pieces, Piece(payload.offset, payload.data));
    TilesToEnd(pieces, payload.offset);
  }

  lemma EndTracked(t: B.State, continues: bool, unanswered: Option<nat>, pieces: seq<Piece>, payload: Payload,
                   next: B.State)
    requires Tracked(t, continues, unanswered, pieces) && Moves(t, payload, next)
    requires payload.HistoryEnd? && t.session == Replaying && next.session == Open
    ensures var still := continues && (unanswered.Some? ==> EndsAt(pieces, unanswered.value));
            Tracked(next, still, None, pieces)
  {
    hide TilesTo;
    hide Tiles;
    TilesToEnd(pieces, payload.endOffset);
  }

  lemma BeginTracked(t: B.State, continues: bool, unanswered: Option<nat>, pieces: seq<Piece>, payload: Payload,
                     next: B.State)
    requires Tracked(t, continues, unanswered, pieces) && Moves(t, payload, next)
    requires payload.HistoryBegin? && t.session == next.session == Replaying
    ensures Tracked(next, continues, Some(payload.startOffset), pieces)
  {
    hide TilesTo;
    hide Tiles;
    if t.history.Some? {
      TilesToEnd(pieces, t.history.value.cursor);
    }
    if pieces == [] {
      TilesToEnd([], 0);
      NothingTiles();
    }
  }

  lemma NothingTiles()
    ensures forall offset :: TilesTo([], offset)
    ensures Tiles([])
  {
    forall offset ensures TilesTo([], offset) {
      assert Tile([], offset, offset);
    }
    assert TilesTo([], 0);
  }

  lemma OutputTracked(t: B.State, continues: bool, unanswered: Option<nat>, pieces: seq<Piece>, payload: Payload,
                      next: B.State)
    requires Tracked(t, continues, unanswered, pieces) && Moves(t, payload, next)
    requires payload.TerminalOutput? && t.session == next.session == Open
    ensures Tracked(next, continues, unanswered, pieces + PieceOf(payload))
  {
    hide TilesTo;
    hide Tiles;
    TilesToAppend(pieces, Piece(payload.offset, payload.data));
  }

  lemma OtherTracked(t: B.State, continues: bool, unanswered: Option<nat>, pieces: seq<Piece>, direction: Direction,
                     payload: Payload, next: B.State)
    requires Tracked(t, continues, unanswered, pieces) && Moves(t, payload, next)
    requires !payload.HistoryBegin? && !payload.HistoryChunk? && !payload.HistoryEnd? && !payload.TerminalOutput?
    requires Row(direction, (t.connection, t.session), payload.Type(), (next.connection, next.session))
    ensures Tracked(next, continues, unanswered, pieces)
  {
    hide TilesTo;
    hide Tiles;
    hide Row;
    NothingTiles();
    RowSessions(direction, (t.connection, t.session), payload.Type(), (next.connection, next.session));
    OpenedRow(direction, (t.connection, t.session), payload.Type(), (next.connection, next.session));
  }

  lemma OpenedRow(direction: Direction, from: (ConnectionState, SessionState), message: MessageType,
                  to: (ConnectionState, SessionState))
    requires Row(direction, from, message, to)
    ensures message == TSessionOpened <==> from.1 == Opening && to.1 == Open
  {
  }

  /** Over every run the browser machine accepts: once the session is open, history and output tile one range up to
      the output offset exactly when every history_begin that was answered started where the history so far ended. */
  lemma {:induction false} BrowserPiecesTile(events: seq<Event>)
    requires B.Run(B.INITIAL, events).Some?
    ensures Tracked(B.Run(B.INITIAL, events).value, Continues(events), Unanswered(events), Pieces(events))
  {
    if events != [] {
      hide B.Applied;
      hide Tracked;
      hide Tile;
      hide Row;
      var front := events[..|events| - 1];
      var last := events[|events| - 1];
      BrowserPiecesTile(front);
      if last.SetOutput? {
        assert Pieces(front) + [] == Pieces(front);
      } else {
        TrackedStep(B.Run(B.INITIAL, front).value, Continues(front), Unanswered(front), Pieces(front), last.direction,
                    last.frame);
      }
    } else {
      NothingTiles();
    }
  }

  lemma TrackedStep(t: B.State, continues: bool, unanswered: Option<nat>, pieces: seq<Piece>, direction: Direction,
                    frame: Frame)
    requires Tracked(t, continues, unanswered, pieces) && B.Applied(t, direction, frame).outcome.Accepted?
    ensures var event := Deliver(direction, frame);
            Tracked(B.Applied(t, direction, frame).state,
                    continues && (Answers(event) && unanswered.Some? ==> EndsAt(pieces, unanswered.value)),
                    if Begins(event) then Some(frame.payload.startOffset) else if Answers(event) then None
                    else unanswered,
                    pieces + PieceOf(frame.payload))
  {
    hide B.Applied;
    hide Tracked;
    hide Row;
    hide Moves;
    hide EndsAt;
    var next := B.Applied(t, direction, frame).state;
    AppliedMoves(t, direction, frame);
    BrowserStepFollowsRow(t, direction, frame);
    RowSessions(direction, (t.connection, t.session), frame.payload.Type(), (next.connection, next.session));
    assert pieces + [] == pieces;
    if frame.payload.HistoryBegin? {
      BeginTracked(t, continues, unanswered, pieces, frame.payload, next);
    } else if frame.payload.HistoryChunk? {
      ChunkTracked(t, continues, unanswered, pieces, frame.payload, next);
    } else if frame.payload.HistoryEnd? {
      EndTracked(t, continues, unanswered, pieces, frame.payload, next);
    } else if frame.payload.TerminalOutput? {
      OutputTracked(t, continues, unanswered, pieces, frame.payload, next);
    } else {
      OtherTracked(t, continues, unanswered, pieces, direction, frame.payload, next);
    }
  }

  /** The reading of BrowserPiecesTile for a session that has opened. */
  lemma BrowserTilesExactly(events: seq<Event>)
    requires B.Run(B.INITIAL, events).Some? && Rank(B.Run(B.INITIAL, events).value.session) >= 3
    ensures TilesTo(Pieces(events), B.Run(B.INITIAL, events).value.nextOutput) <==> Continues(events)
  {
    BrowserPiecesTile(events);
  }

  // ---------- One history_begin ----------

  function BeginCount(events: seq<Event>): nat {
    if events == [] then 0 else BeginCount(events[..|events| - 1]) + if Begins(events[|events| - 1]) then 1 else 0
  }

  lemma {:induction false} BeginsFirst(events: seq<Event>)
    requires B.Run(B.INITIAL, events).Some? && BeginCount(events) <= 1
    ensures var t := B.Run(B.INITIAL, events).value;
            && Continues(events)
            && (BeginCount(events) == 0 ==> t.history.None?)
            && (BeginCount(events) == 0 && t.session == Replaying ==> Pieces(events) == [])
            && (Unanswered(events).Some? ==> BeginCount(events) == 1 && Pieces(events) == [] && t.session == Replaying)
  {
    hide Tile;
    hide B.FindTransition;
    hide B.ValidateSessionData;
    if events != [] {
      hide B.Applied;
      hide Row;
      var front := events[..|events| - 1];
      var last := events[|events| - 1];
      BeginsFirst(front);
      BrowserPiecesTile(front);
      if last.Deliver? {
        var t := B.Run(B.INITIAL, front).value;
        var next := B.Applied(t, last.direction, last.frame).state;
        AppliedMoves(t, last.direction, last.frame);
        BrowserStepFollowsRow(t, last.direction, last.frame);
        RowSessions(last.direction, (t.connection, t.session), last.frame.payload.Type(),
                    (next.connection, next.session));
      }
    }
  }

  /** With at most one history_begin, history and output always tile, up to the output offset once open. */
  lemma OneBeginTiles(events: seq<Event>)
    requires B.Run(B.INITIAL, events).Some? && BeginCount(events) <= 1
    ensures Continues(events)
    ensures Rank(B.Run(B.INITIAL, events).value.session) >= 3 ==>
              TilesTo(Pieces(events), B.Run(B.INITIAL, events).value.nextOutput)
  {
    BeginsFirst(events);
    BrowserPiecesTile(events);
  }
}
