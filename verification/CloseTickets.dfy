/** Racing closers: the tickets that fences hand out, and who waits for whom. Every goroutine is a list of jobs. */
module CloseTickets {
  import opened Protocol

  datatype Job =
    | Close(sessions: seq<nat>, between: seq<Job>)  // fence all in one section, do between, finish the tickets
    | Settle(session: nat, first: bool, at: nat)    // one ticket, from the fence taken at that time
    | Finish(session: nat, at: nat)                 // the terminal is closed and closeErr stored; closeDone is next
    | Once(once: nat, body: seq<Job>)               // sync.Once: run the body, or wait for whoever runs it
    | Leave(once: nat)

  /** A session as its closers see it; the counters say how often each thing was done. */
  datatype Cell = Cell(firsts: nat, fencedAt: nat, fencer: nat, closes: nat, closeErr: int, dones: nat)

  datatype Owner = Unused | Running(runner: nat) | Used

  datatype Answer = Answer(session: nat, closeErr: int)

  datatype State = State(threads: seq<seq<Job>>, cells: map<nat, Cell>, onces: map<nat, Owner>, clock: nat,
                         answers: seq<Answer>)
  {
    function At(session: nat): Cell {
      if session in cells then cells[session] else Cell(0, 0, 0, 0, 0, 0)
    }

    function Once(once: nat): Owner {
      if once in onces then onces[once] else Unused
    }
  }

  /** Nothing is closed and no Once has run. */
  function Start(threads: seq<seq<Job>>): State {
    State(threads, map[], map[], 0, [])
  }

  /** The cells after one fence section over the given sessions. */
  function FenceCells(cells: map<nat, Cell>, sessions: seq<nat>, thread: nat, at: nat): map<nat, Cell> {
    map s | s in cells.Keys + (set x | x in sessions) ::
      if s in cells && cells[s].firsts > 0 then cells[s]
      else if s in sessions then Cell(1, at, thread, 0, 0, 0)
      else cells[s]
  }

  /** One ticket a session: the first of all its closers, or a later one. */
  function Tickets(state: State, sessions: seq<nat>): seq<Job> {
    seq(|sessions|,
        i requires 0 <= i < |sessions| => Settle(sessions[i], state.At(sessions[i]).firsts == 0, state.clock + 1))
  }

  predicate Enabled(state: State, i: nat) {
    && i < |state.threads| && state.threads[i] != []
    && match state.threads[i][0]
       case Settle(session, first, _) => first || state.At(session).dones > 0
       case Once(once, _) => !state.Once(once).Running?
       case _ => true
  }

  /** Goroutine i does the next thing on its list; err is what closing a terminal returns. */
  function Step(state: State, i: nat, err: int): State
    requires Enabled(state, i)
  {
    var head := state.threads[i][0];
    var rest := state.threads[i][1..];
    var popped := state.(threads := state.threads[i := rest]);
    match head
    case Close(sessions, between) =>
      state.(threads := state.threads[i := between + Tickets(state, sessions) + rest],
             cells := FenceCells(state.cells, sessions, i, state.clock + 1), clock := state.clock + 1)
    case Settle(session, first, at) =>
      if first then
        var cell := state.At(session);
        state.(threads := state.threads[i := [Finish(session, at)] + rest],
               cells := state.cells[session := cell.(closes := cell.closes + 1, closeErr := err)])
      else popped.(answers := state.answers + [Answer(session, state.At(session).closeErr)])
    case Finish(session, _) =>
      var cell := state.At(session);
      popped.(cells := state.cells[session := cell.(dones := cell.dones + 1)],
              answers := state.answers + [Answer(session, cell.closeErr)])
    case Once(once, body) =>
      if state.Once(once).Used? then popped
      else state.(threads := state.threads[i := body + [Leave(once)] + rest], onces := state.onces[once := Running(i)])
    case Leave(once) =>
      popped.(onces := state.onces[once := Used])
  }

  datatype Choice = Choice(thread: nat, err: int)

  /** The state after a run, or None when some step was not enabled. */
  function Run(state: State, choices: seq<Choice>): Option<State> {
    if choices == [] then Some(state)
    else
      match Run(state, choices[..|choices| - 1])
      case None => None
      case Some(before) =>
        var last := choices[|choices| - 1];
        if Enabled(before, last.thread) then Some(Step(before, last.thread, last.err)) else None
  }

  // ---------- Every run is finite ----------

  function Weight(jobs: seq<Job>): nat {
    if jobs == [] then 0 else JobWeight(jobs[0]) + Weight(jobs[1..])
  }

  function JobWeight(job: Job): nat {
    match job
    case Close(sessions, between) => 1 + 2 * |sessions| + Weight(between)
    case Settle(_, _, _) => 2
    case Finish(_, _) => 1
    case Once(_, body) => 2 + Weight(body)
    case Leave(_) => 1
  }

  function TotalWeight(threads: seq<seq<Job>>): nat {
    if threads == [] then 0 else Weight(threads[0]) + TotalWeight(threads[1..])
  }

  lemma {:induction false} WeightJoin(left: seq<Job>, right: seq<Job>)
    ensures Weight(left + right) == Weight(left) + Weight(right)
  {
    if left == [] {
      assert left + right == right;
    } else {
      WeightJoin(left[1..], right);
      assert (left + right)[1..] == left[1..] + right;
    }
  }

  lemma {:induction false} WeightSettles(jobs: seq<Job>)
    requires forall i | 0 <= i < |jobs| :: jobs[i].Settle?
    ensures Weight(jobs) == 2 * |jobs|
  {
    if jobs != [] {
      WeightSettles(jobs[1..]);
    }
  }

  lemma {:induction false} TotalUpdate(threads: seq<seq<Job>>, i: nat, jobs: seq<Job>)
    requires i < |threads|
    ensures TotalWeight(threads[i := jobs]) == TotalWeight(threads) - Weight(threads[i]) + Weight(jobs)
  {
    if i > 0 {
      TotalUpdate(threads[1..], i - 1, jobs);
      assert threads[i := jobs][1..] == threads[1..][i - 1 := jobs];
    } else {
      assert threads[0 := jobs][1..] == threads[1..];
    }
  }

  /** Each step uses up some of the finite work there is. */
  lemma StepWeighs(state: State, i: nat, err: int)
    requires Enabled(state, i)
    ensures TotalWeight(Step(state, i, err).threads) < TotalWeight(state.threads)
  {
    var jobs := state.threads[i];
    var rest := jobs[1..];
    var after := Step(state, i, err).threads[i];
    TotalUpdate(state.threads, i, after);
    match jobs[0] {
      case Close(sessions, between) =>
        var tickets := Tickets(state, sessions);
        WeightSettles(tickets);
        WeightJoin(between, tickets);
        WeightJoin(between + tickets, rest);
      case Settle(session, first, at) =>
        if first {
          assert ([Finish(session, at)] + rest)[1..] == rest;
        }
      case Once(once, body) =>
        WeightJoin(body, [Leave(once)]);
        WeightJoin(body + [Leave(once)], rest);
      case _ =>
    }
  }

  /** No run is longer than the work there is. */
  lemma {:induction false} RunsEnd(state: State, choices: seq<Choice>)
    requires Run(state, choices).Some?
    ensures |choices| + TotalWeight(Run(state, choices).value.threads) <= TotalWeight(state.threads)
  {
    if choices != [] {
      var last := choices[|choices| - 1];
      RunsEnd(state, choices[..|choices| - 1]);
      StepWeighs(Run(state, choices[..|choices| - 1]).value, last.thread, last.err);
    }
  }

  // ---------- One first ticket a session ----------

  ghost predicate Distinct(sessions: seq<nat>) {
    forall i, j | 0 <= i < j < |sessions| :: sessions[i] != sessions[j]
  }

  /** What a goroutine may be given to do: closes and Onces, each close over distinct sessions. */
  ghost predicate Program(jobs: seq<Job>) {
    forall i | 0 <= i < |jobs| ::
      match jobs[i]
      case Close(sessions, between) => Distinct(sessions) && Program(between)
      case Once(_, body) => Program(body)
      case _ => false
  }

  /** What is left of a program, tickets included. */
  ghost predicate Clean(jobs: seq<Job>) {
    forall i | 0 <= i < |jobs| ::
      && (jobs[i].Close? ==> Distinct(jobs[i].sessions) && Program(jobs[i].between))
      && (jobs[i].Once? ==> Program(jobs[i].body))
  }

  predicate FirstFor(job: Job, session: nat) {
    job.Settle? && job.first && job.session == session
  }

  predicate FinishFor(job: Job, session: nat) {
    job.Finish? && job.session == session
  }

  /** Unsettled first tickets for a session. */
  function Firsts(jobs: seq<Job>, session: nat): nat {
    if jobs == [] then 0 else (if FirstFor(jobs[0], session) then 1 else 0) + Firsts(jobs[1..], session)
  }

  /** Closed terminals whose closeDone is still to be closed. */
  function Finishes(jobs: seq<Job>, session: nat): nat {
    if jobs == [] then 0 else (if FinishFor(jobs[0], session) then 1 else 0) + Finishes(jobs[1..], session)
  }

  lemma {:induction false} CountJoin(left: seq<Job>, right: seq<Job>, session: nat)
    ensures Firsts(left + right, session) == Firsts(left, session) + Firsts(right, session)
    ensures Finishes(left + right, session) == Finishes(left, session) + Finishes(right, session)
  {
    if left == [] {
      assert left + right == right;
    } else {
      CountJoin(left[1..], right, session);
      assert (left + right)[1..] == left[1..] + right;
    }
  }

  lemma {:induction false} CountNone(jobs: seq<Job>, session: nat)
    requires forall i | 0 <= i < |jobs| :: !FirstFor(jobs[i], session)
    ensures Firsts(jobs, session) == 0
  {
    if jobs != [] {
      CountNone(jobs[1..], session);
    }
  }

  lemma {:induction false} FinishNone(jobs: seq<Job>, session: nat)
    requires forall i | 0 <= i < |jobs| :: !FinishFor(jobs[i], session)
    ensures Finishes(jobs, session) == 0
  {
    if jobs != [] {
      FinishNone(jobs[1..], session);
    }
  }

  lemma {:induction false} CountSome(jobs: seq<Job>, session: nat) returns (i: nat)
    requires Firsts(jobs, session) + Finishes(jobs, session) > 0
    ensures i < |jobs| && (FirstFor(jobs[i], session) || FinishFor(jobs[i], session))
  {
    if FirstFor(jobs[0], session) || FinishFor(jobs[0], session) {
      i := 0;
    } else {
      i := CountSome(jobs[1..], session);
      i := i + 1;
    }
  }

  /** A fence hands out one first ticket for each session that had none, and no other. */
  lemma {:induction false} TicketCounts(tickets: seq<Job>, sessions: seq<nat>, state: State, session: nat)
    requires |tickets| == |sessions| && Distinct(sessions)
    requires forall i | 0 <= i < |tickets| ::
               tickets[i] == Settle(sessions[i], state.At(sessions[i]).firsts == 0, state.clock + 1)
    ensures Firsts(tickets, session) == if session in sessions && state.At(session).firsts == 0 then 1 else 0
    ensures Finishes(tickets, session) == 0
  {
    if tickets != [] {
      forall i | 0 <= i < |tickets[1..]|
        ensures tickets[1..][i] == Settle(sessions[1..][i], state.At(sessions[1..][i]).firsts == 0, state.clock + 1)
      {
        assert tickets[1..][i] == tickets[i + 1];
      }
      TicketCounts(tickets[1..], sessions[1..], state, session);
      assert session in sessions <==> session == sessions[0] || session in sessions[1..];
    }
  }

  /** What goroutine i still holds of a session, against the session's cell. */
  ghost predicate Holds(jobs: seq<Job>, i: nat, session: nat, cell: Cell) {
    && Firsts(jobs, session) == (if cell.firsts == 1 && cell.fencer == i && cell.closes == 0 then 1 else 0)
    && Finishes(jobs, session) == (if cell.firsts == 1 && cell.fencer == i && cell.closes == 1 && cell.dones == 0 then 1
                                   else 0)
  }

  ghost predicate CellOk(cell: Cell, clock: nat, threads: nat) {
    && cell.dones <= cell.closes <= cell.firsts <= 1
    && (cell.firsts == 1 ==> cell.fencedAt <= clock && cell.fencer < threads)
  }

  /** A ticket carries the time of its fence; a later ticket's is later than the first one's. */
  ghost predicate TimeOk(job: Job, state: State) {
    && (job.Settle? ==> job.at <= state.clock)
    && (job.Settle? && job.first ==> state.At(job.session).fencedAt == job.at)
    && (job.Settle? && !job.first ==> state.At(job.session).firsts == 1 && state.At(job.session).fencedAt < job.at)
    && (job.Finish? ==> state.At(job.session).fencedAt == job.at)
  }

  ghost predicate Counted(state: State) {
    && (forall s: nat :: CellOk(state.At(s), state.clock, |state.threads|))
    && (forall i, s: nat | 0 <= i < |state.threads| :: Holds(state.threads[i], i, s, state.At(s)))
  }

  ghost predicate Timed(state: State) {
    forall i, j | 0 <= i < |state.threads| && 0 <= j < |state.threads[i]| :: TimeOk(state.threads[i][j], state)
  }

  /** Every answer given is the one error its session closed with. */
  ghost predicate Answered(state: State) {
    forall k | 0 <= k < |state.answers| ::
      state.At(state.answers[k].session).closes == 1
      && state.answers[k].closeErr == state.At(state.answers[k].session).closeErr
  }

  ghost predicate Inv(state: State) {
    && (forall i | 0 <= i < |state.threads| :: Clean(state.threads[i]))
    && Counted(state) && Timed(state) && Answered(state)
  }

  lemma StartInv(threads: seq<seq<Job>>)
    requires forall i | 0 <= i < |threads| :: Program(threads[i])
    ensures Inv(Start(threads))
  {
    forall i, s: nat | 0 <= i < |threads| ensures Holds(threads[i], i, s, Start(threads).At(s)) {
      CountNone(threads[i], s);
      FinishNone(threads[i], s);
    }
  }

  lemma PopCounts(jobs: seq<Job>, session: nat)
    requires jobs != []
    ensures Firsts(jobs, session) == Firsts(jobs[1..], session) + if FirstFor(jobs[0], session) then 1 else 0
    ensures Finishes(jobs, session) == Finishes(jobs[1..], session) + if FinishFor(jobs[0], session) then 1 else 0
  {
  }

  lemma FencedCell(state: State, sessions: seq<nat>, i: nat, s: nat)
    ensures var next := state.(cells := FenceCells(state.cells, sessions, i, state.clock + 1),
                               clock := state.clock + 1);
            next.At(s) ==
                if s in sessions && state.At(s).firsts == 0 then Cell(1, state.clock + 1, i, 0, 0, 0) else state.At(s)
  {
  }

  lemma ProgramCounts(jobs: seq<Job>, s: nat)
    requires Program(jobs)
    ensures Firsts(jobs, s) == 0 && Finishes(jobs, s) == 0
  {
    CountNone(jobs, s);
    FinishNone(jobs, s);
  }

  /** The counts after one step, one session and goroutine at a time. */
  lemma StepHolds(state: State, i: nat, err: int, k: nat, s: nat)
    requires Inv(state) && Enabled(state, i) && k < |state.threads|
    ensures Holds(Step(state, i, err).threads[k], k, s, Step(state, i, err).At(s))
    ensures CellOk(Step(state, i, err).At(s), Step(state, i, err).clock, |state.threads|)
  {
    hide Timed;
    hide Answered;
    hide FenceCells;
    hide Tickets;
    hide Firsts;
    hide Finishes;
    hide Program;
    var jobs := state.threads[i];
    var rest := jobs[1..];
    assert Clean(jobs);
    assert Holds(state.threads[k], k, s, state.At(s)) && CellOk(state.At(s), state.clock, |state.threads|);
    PopCounts(jobs, s);
    match jobs[0] {
      case Close(sessions, between) =>
        var tickets := Tickets(state, sessions);
        FencedCell(state, sessions, i, s);
        TicketsListed(state, sessions);
        TicketCounts(tickets, sessions, state, s);
        ProgramCounts(between, s);
        CountJoin(between, tickets, s);
        CountJoin(between + tickets, rest, s);
      case Settle(session, first, at) =>
        if first {
          CountJoin([Finish(session, at)], rest, s);
          PopCounts([Finish(session, at)], s);
          assert [Finish(session, at)][1..] == [];
          CountNone([], s);
          FinishNone([], s);
          assert Holds(jobs, i, session, state.At(session));
          PopCounts(jobs, session);
        }
      case Finish(session, at) =>
        assert Holds(jobs, i, session, state.At(session));
        PopCounts(jobs, session);
      case Once(once, body) =>
        ProgramCounts(body, s);
        CountJoin(body, [Leave(once)], s);
        CountJoin(body + [Leave(once)], rest, s);
        CountNone([Leave(once)], s);
        FinishNone([Leave(once)], s);
      case Leave(once) =>
    }
  }

  lemma TicketsListed(state: State, sessions: seq<nat>)
    ensures |Tickets(state, sessions)| == |sessions|
    ensures forall i | 0 <= i < |sessions| ::
              Tickets(state, sessions)[i] == Settle(sessions[i], state.At(sessions[i]).firsts == 0, state.clock + 1)
  {
  }

  lemma StepClean(state: State, i: nat, err: int, k: nat)
    requires Inv(state) && Enabled(state, i) && k < |state.threads|
    ensures Clean(Step(state, i, err).threads[k])
  {
    hide Counted;
    hide Timed;
    hide Answered;
    hide FenceCells;
    hide Tickets;
    assert Clean(state.threads[i]) && Clean(state.threads[k]);
    if state.threads[i][0].Close? {
      TicketsListed(state, state.threads[i][0].sessions);
    }
  }

  /** A waiting ticket's session stays fenced, at the same time. */
  lemma StepCell(state: State, i: nat, err: int, s: nat)
    requires Inv(state) && Enabled(state, i)
    ensures var cell, next := state.At(s), Step(state, i, err).At(s);
            && (cell.firsts == 1 ==> next.firsts == 1 && next.fencedAt == cell.fencedAt && next.fencer == cell.fencer)
            && (cell.closes == 1 ==> next.closes == 1 && next.closeErr == cell.closeErr)
            && cell.dones <= next.dones
  {
    hide Timed;
    hide Answered;
    hide FenceCells;
    hide Tickets;
    assert CellOk(state.At(s), state.clock, |state.threads|);
    if state.threads[i][0].Close? {
      FencedCell(state, state.threads[i][0].sessions, i, s);
    } else if state.threads[i][0].Settle? && state.threads[i][0].first {
      assert Holds(state.threads[i], i, s, state.At(s));
      PopCounts(state.threads[i], s);
    }
  }

  lemma StepTimed(state: State, i: nat, err: int, k: nat, j: nat)
    requires Inv(state) && Enabled(state, i) && k < |state.threads| && j < |Step(state, i, err).threads[k]|
    ensures TimeOk(Step(state, i, err).threads[k][j], Step(state, i, err))
  {
    var next := Step(state, i, err);
    var job := next.threads[k][j];
    if job.Settle? || job.Finish? {
      hide Answered;
      hide FenceCells;
      hide Tickets;
      StepCell(state, i, err, job.session);
      assert CellOk(state.At(job.session), state.clock, |state.threads|);
      if job in state.threads[k] {
        OldTicket(state, i, err, k, job);
      } else {
        NewTicket(state, i, err, k, j);
      }
    }
  }

  /** A ticket somebody held before the step is of a fenced session. */
  lemma OldTicket(state: State, i: nat, err: int, k: nat, job: Job)
    requires Inv(state) && Enabled(state, i) && k < |state.threads| && job in state.threads[k]
    requires (job.Settle? || job.Finish?)
    ensures TimeOk(job, Step(state, i, err))
  {
    hide Answered;
    hide FenceCells;
    hide Tickets;
    hide Clean;
    var j :| 0 <= j < |state.threads[k]| && state.threads[k][j] == job;
    assert TimeOk(state.threads[k][j], state);
    StepCell(state, i, err, job.session);
    if !(job.Settle? && !job.first) {
      TicketCounted(state.threads[k], j, job.session);
      assert Holds(state.threads[k], k, job.session, state.At(job.session));
    }
  }

  lemma {:induction false} TicketCounted(jobs: seq<Job>, j: nat, session: nat)
    requires j < |jobs|
    ensures FirstFor(jobs[j], session) ==> Firsts(jobs, session) > 0
    ensures FinishFor(jobs[j], session) ==> Finishes(jobs, session) > 0
  {
    if j > 0 {
      TicketCounted(jobs[1..], j - 1, session);
    }
  }

  /** A ticket the step brought in: from a fence, or the second half of a first one. */
  lemma NewTicket(state: State, i: nat, err: int, k: nat, j: nat)
    requires Inv(state) && Enabled(state, i) && k < |state.threads| && j < |Step(state, i, err).threads[k]|
    requires var job := Step(state, i, err).threads[k][j]; job !in state.threads[k] && (job.Settle? || job.Finish?)
    ensures TimeOk(Step(state, i, err).threads[k][j], Step(state, i, err))
  {
    hide Answered;
    hide FenceCells;
    hide Tickets;
    var job := Step(state, i, err).threads[k][j];
    var jobs := state.threads[i];
    assert k == i && Clean(jobs);
    assert forall x | 0 < x < |jobs| :: jobs[x] in jobs;
    match jobs[0] {
      case Close(sessions, between) =>
        TicketsListed(state, sessions);
        var n := j - |between|;
        assert 0 <= n < |sessions| && job == Tickets(state, sessions)[n];
        FencedCell(state, sessions, i, job.session);
        assert sessions[n] in sessions;
        assert CellOk(state.At(job.session), state.clock, |state.threads|);
      case Settle(session, first, at) =>
        assert TimeOk(jobs[0], state);
      case _ =>
    }
  }

  lemma StepAnswered(state: State, i: nat, err: int)
    requires Inv(state) && Enabled(state, i)
    ensures Answered(Step(state, i, err))
  {
    hide FenceCells;
    hide Tickets;
    hide Clean;
    var next := Step(state, i, err);
    var job := state.threads[i][0];
    forall k | 0 <= k < |next.answers|
      ensures next.At(next.answers[k].session).closes == 1
      ensures next.answers[k].closeErr == next.At(next.answers[k].session).closeErr
    {
      var s := next.answers[k].session;
      StepCell(state, i, err, s);
      assert CellOk(state.At(s), state.clock, |state.threads|);
      if k == |state.answers| && job.Finish? {
        assert Holds(state.threads[i], i, s, state.At(s));
        TicketCounted(state.threads[i], 0, s);
      }
    }
  }

  /** Every step keeps the accounts of fences and tickets. */
  lemma StepKeeps(state: State, i: nat, err: int)
    requires Inv(state) && Enabled(state, i)
    ensures Inv(Step(state, i, err))
  {
    var next := Step(state, i, err);
    forall k | 0 <= k < |next.threads| ensures Clean(next.threads[k]) {
      StepClean(state, i, err, k);
    }
    forall s: nat ensures CellOk(next.At(s), next.clock, |next.threads|) {
      StepHolds(state, i, err, i, s);
    }
    forall k, s: nat | 0 <= k < |next.threads| ensures Holds(next.threads[k], k, s, next.At(s)) {
      StepHolds(state, i, err, k, s);
    }
    forall k, j | 0 <= k < |next.threads| && 0 <= j < |next.threads[k]| ensures TimeOk(next.threads[k][j], next) {
      StepTimed(state, i, err, k, j);
    }
    StepAnswered(state, i, err);
    hide Clean;
    hide CellOk;
    hide Holds;
    hide TimeOk;
    hide Step;
  }
}
