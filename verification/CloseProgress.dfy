/** Whether every closer gets its answer. */
module CloseProgress {
  import opened CloseTickets

  lemma {:induction false} RunKeeps(state: State, choices: seq<Choice>)
    requires Inv(state) && Run(state, choices).Some?
    ensures Inv(Run(state, choices).value) && |Run(state, choices).value.threads| == |state.threads|
  {
    hide Inv;
    hide Step;
    if choices != [] {
      var before := Run(state, choices[..|choices| - 1]).value;
      RunKeeps(state, choices[..|choices| - 1]);
      StepKeeps(before, choices[|choices| - 1].thread, choices[|choices| - 1].err);
      StepThreads(before, choices[|choices| - 1].thread, choices[|choices| - 1].err);
    }
  }

  lemma StepThreads(state: State, i: nat, err: int)
    requires Enabled(state, i)
    ensures |Step(state, i, err).threads| == |state.threads|
    ensures forall k | 0 <= k < |state.threads| && k != i :: Step(state, i, err).threads[k] == state.threads[k]
  {
  }

  /** Whatever closers race, each session has at most one first ticket, its terminal is closed at most once and its
      closeDone at most once, in that order; once all closers are through, each fenced session was closed exactly
      once. */
  lemma ClosedOnce(threads: seq<seq<Job>>, choices: seq<Choice>, s: nat)
    requires forall i | 0 <= i < |threads| :: Program(threads[i])
    requires Run(Start(threads), choices).Some?
    ensures var state := Run(Start(threads), choices).value;
            var cell := state.At(s);
            && cell.dones <= cell.closes <= cell.firsts <= 1
            && ((forall i | 0 <= i < |state.threads| :: state.threads[i] == []) ==>
                  cell.dones == cell.closes == cell.firsts)
  {
    StartInv(threads);
    RunKeeps(Start(threads), choices);
    var state := Run(Start(threads), choices).value;
    hide Run;
    hide Timed;
    hide Answered;
    hide Clean;
    assert CellOk(state.At(s), state.clock, |state.threads|);
    if state.At(s).firsts == 1 {
      assert Holds(state.threads[state.At(s).fencer], state.At(s).fencer, s, state.At(s));
    }
  }

  /** All closers of one session get the same error. */
  lemma SameAnswer(threads: seq<seq<Job>>, choices: seq<Choice>, i: nat, j: nat)
    requires forall k | 0 <= k < |threads| :: Program(threads[k])
    requires Run(Start(threads), choices).Some?
    requires var answers := Run(Start(threads), choices).value.answers;
             i < |answers| && j < |answers| && answers[i].session == answers[j].session
    ensures var answers := Run(Start(threads), choices).value.answers; answers[i].closeErr == answers[j].closeErr
  {
    StartInv(threads);
    RunKeeps(Start(threads), choices);
  }

  /** At its k-th step the run closes the session's terminal, with that error. */
  ghost predicate ClosesAt(start: State, choices: seq<Choice>, k: nat, s: nat, err: int) {
    && k < |choices| && Run(start, choices[..k]).Some?
    && var before := Run(start, choices[..k]).value;
       var i := choices[k].thread;
       && i < |before.threads| && before.threads[i] != [] && FirstFor(before.threads[i][0], s) && choices[k].err == err
  }

  lemma StoresError(state: State, i: nat, err: int, s: nat)
    requires Inv(state) && Enabled(state, i) && state.At(s).closes == 0 && Step(state, i, err).At(s).closes == 1
    ensures FirstFor(state.threads[i][0], s) && Step(state, i, err).At(s).closeErr == err
  {
    hide Inv;
    if state.threads[i][0].Close? {
      FencedCell(state, state.threads[i][0].sessions, i, s);
    }
  }

  lemma {:induction false} CloseErrorComes(start: State, choices: seq<Choice>, s: nat)
    requires Inv(start) && start.At(s).closes == 0 && Run(start, choices).Some?
    requires Run(start, choices).value.At(s).closes == 1
    ensures exists k: nat :: ClosesAt(start, choices, k, s, Run(start, choices).value.At(s).closeErr)
  {
    hide Inv;
    hide Step;
    if choices != [] {
      var front := choices[..|choices| - 1];
      var last := choices[|choices| - 1];
      var before := Run(start, front).value;
      RunKeeps(start, front);
      StepCell(before, last.thread, last.err, s);
      CellBound(before, s);
      if before.At(s).closes == 1 {
        CloseErrorComes(start, front, s);
        var k: nat :| ClosesAt(start, front, k, s, before.At(s).closeErr);
        assert front[..k] == choices[..k];
        assert ClosesAt(start, choices, k, s, before.At(s).closeErr);
      } else {
        StoresError(before, last.thread, last.err, s);
        assert ClosesAt(start, choices, |front|, s, last.err);
      }
    }
  }

  lemma CellBound(state: State, s: nat)
    requires Inv(state)
    ensures state.At(s).closes <= 1
  {
    assert CellOk(state.At(s), state.clock, |state.threads|);
  }

  /** The error every closer gets is the one that closing the terminal returned. */
  lemma AnswerIsCloseError(threads: seq<seq<Job>>, choices: seq<Choice>, i: nat)
    requires forall k | 0 <= k < |threads| :: Program(threads[k])
    requires Run(Start(threads), choices).Some? && i < |Run(Start(threads), choices).value.answers|
    ensures var answer := Run(Start(threads), choices).value.answers[i];
            exists k: nat :: ClosesAt(Start(threads), choices, k, answer.session, answer.closeErr)
  {
    StartInv(threads);
    RunKeeps(Start(threads), choices);
    hide Run;
    hide Counted;
    hide Timed;
    CloseErrorComes(Start(threads), choices, Run(Start(threads), choices).value.answers[i].session);
  }

  /** A wait on closeDone is for a fence taken strictly earlier, whose ticket its taker still holds. */
  lemma WaitsForEarlierFence(state: State, i: nat) returns (k: nat, j: nat)
    requires Inv(state) && i < |state.threads| && state.threads[i] != []
    requires state.threads[i][0].Settle? && !Enabled(state, i)
    ensures var s := state.threads[i][0].session;
            && k == state.At(s).fencer && k < |state.threads| && j < |state.threads[k]|
            && (FirstFor(state.threads[k][j], s) || FinishFor(state.threads[k][j], s))
            && state.threads[k][j].at == state.At(s).fencedAt < state.threads[i][0].at
  {
    var s := state.threads[i][0].session;
    assert TimeOk(state.threads[i][0], state);
    assert CellOk(state.At(s), state.clock, |state.threads|);
    k := state.At(s).fencer;
    assert Holds(state.threads[k], k, s, state.At(s));
    j := CountSome(state.threads[k], s);
    assert TimeOk(state.threads[k][j], state);
  }

  // ---------- Closers that hold no ticket while they enter a Once ----------

  /** Nothing comes between a fence and its tickets, and nested Onces climb: those of the jobs lie in [low, high). */
  ghost predicate Orderly(jobs: seq<Job>, low: nat, high: nat) {
    forall i | 0 <= i < |jobs| ::
      && (jobs[i].Close? ==> jobs[i].between == [])
      && (jobs[i].Once? ==> low <= jobs[i].once < high && Orderly(jobs[i].body, jobs[i].once + 1, high))
  }

  predicate Ticket(job: Job) {
    job.Settle? || job.Finish?
  }

  /** A goroutine's tickets come first and are of one fence; before it leaves a Once it only enters later ones. */
  ghost predicate Ordered(jobs: seq<Job>) {
    && (forall j, k | 0 <= j < k < |jobs| && Ticket(jobs[k]) :: Ticket(jobs[j]) && jobs[j].at == jobs[k].at)
    && (forall j, k | 0 <= j < k < |jobs| && jobs[k].Leave? && jobs[j].Once? :: jobs[k].once < jobs[j].once)
  }

  /** Whoever runs a Once has yet to leave it. */
  ghost predicate OnceOk(state: State) {
    forall o: nat | state.Once(o).Running? ::
      state.Once(o).runner < |state.threads| && Leave(o) in state.threads[state.Once(o).runner]
  }

  ghost predicate Disciplined(state: State, high: nat) {
    && (forall i | 0 <= i < |state.threads| :: Orderly(state.threads[i], 0, high) && Ordered(state.threads[i]))
    && OnceOk(state)
  }

  lemma StartDisciplined(threads: seq<seq<Job>>, high: nat)
    requires forall i | 0 <= i < |threads| :: Program(threads[i]) && Orderly(threads[i], 0, high)
    ensures Disciplined(Start(threads), high)
  {
  }

  lemma OrderlyWider(jobs: seq<Job>, low: nat, high: nat)
    requires Orderly(jobs, low, high)
    ensures Orderly(jobs, 0, high)
  {
  }

  lemma StepOrderly(state: State, high: nat, i: nat, err: int, k: nat)
    requires Inv(state) && Disciplined(state, high) && Enabled(state, i) && k < |state.threads|
    ensures Orderly(Step(state, i, err).threads[k], 0, high)
  {
    hide Inv;
    hide Ordered;
    hide OnceOk;
    hide Tickets;
    hide FenceCells;
    assert Orderly(state.threads[i], 0, high) && Orderly(state.threads[k], 0, high);
    var head := state.threads[i][0];
    if head.Close? {
      TicketsListed(state, head.sessions);
    } else if head.Once? {
      OrderlyWider(head.body, head.once + 1, high);
    }
  }

  lemma OrderedPop(jobs: seq<Job>)
    requires Ordered(jobs) && jobs != []
    ensures Ordered(jobs[1..])
  {
  }

  lemma OrderedClose(tickets: seq<Job>, rest: seq<Job>, at: nat)
    requires Ordered(rest) && forall j | 0 <= j < |rest| :: !Ticket(rest[j])
    requires forall j | 0 <= j < |tickets| :: tickets[j].Settle? && tickets[j].at == at
    ensures Ordered(tickets + rest)
  {
  }

  lemma OrderedEnter(body: seq<Job>, once: nat, rest: seq<Job>, high: nat)
    requires Ordered([Job.Once(once, body)] + rest) && Program(body) && Orderly(body, once + 1, high)
    ensures Ordered(body + [Leave(once)] + rest)
  {
    var jobs := [Job.Once(once, body)] + rest;
    var next := body + [Leave(once)] + rest;
    var n := |body|;
    forall k | 0 <= k < |next| ensures !Ticket(next[k]) {
      if k > n { assert next[k] == jobs[k - n]; }
    }
    forall j, k | 0 <= j < k < |next| && next[k].Leave? && next[j].Once? ensures next[k].once < next[j].once {
      if k > n {
        assert next[k] == jobs[k - n];
        if j > n {
          assert next[j] == jobs[j - n];
        } else {
          assert jobs[0].Once?;
        }
      }
    }
  }

  lemma OrderedFinish(jobs: seq<Job>, session: nat)
    requires jobs != [] && jobs[0].Settle? && Ordered(jobs)
    ensures Ordered([Finish(session, jobs[0].at)] + jobs[1..])
  {
    var next := [Finish(session, jobs[0].at)] + jobs[1..];
    assert forall j | 0 < j < |jobs| :: next[j] == jobs[j];
  }

  lemma StepOrdered(state: State, high: nat, i: nat, err: int)
    requires Inv(state) && Disciplined(state, high) && Enabled(state, i)
    ensures Ordered(Step(state, i, err).threads[i])
  {
    hide OnceOk;
    hide Counted;
    hide Timed;
    hide Answered;
    hide Tickets;
    hide FenceCells;
    hide Ordered;
    var jobs := state.threads[i];
    assert Clean(jobs) && Orderly(jobs, 0, high) && Ordered(jobs);
    OrderedPop(jobs);
    match jobs[0] {
      case Close(sessions, between) =>
        TicketsListed(state, sessions);
        NoTicketsAfter(jobs);
        OrderedClose(Tickets(state, sessions), jobs[1..], state.clock + 1);
        assert between + Tickets(state, sessions) == Tickets(state, sessions);
      case Once(once, body) =>
        assert [jobs[0]] + jobs[1..] == jobs;
        if !state.Once(once).Used? {
          OrderedEnter(body, once, jobs[1..], high);
        }
      case Settle(session, first, at) =>
        OrderedFinish(jobs, session);
      case _ =>
    }
  }

  lemma NoTicketsAfter(jobs: seq<Job>)
    requires Ordered(jobs) && jobs != [] && !Ticket(jobs[0])
    ensures forall j | 0 <= j < |jobs[1..]| :: !Ticket(jobs[1..][j])
  {
  }

  lemma StepOnceOk(state: State, high: nat, i: nat, err: int)
    requires Inv(state) && Disciplined(state, high) && Enabled(state, i)
    ensures OnceOk(Step(state, i, err))
  {
    hide Inv;
    hide Ordered;
    hide Orderly;
    hide FenceCells;
    hide Tickets;
    var next := Step(state, i, err);
    var jobs := state.threads[i];
    assert [jobs[0]] + jobs[1..] == jobs;
    forall o: nat | next.Once(o).Running?
      ensures next.Once(o).runner < |next.threads| && Leave(o) in next.threads[next.Once(o).runner]
    {
      if jobs[0].Once? && jobs[0].once == o {
        assert next.threads[i][|jobs[0].body|] == Leave(o);
      } else {
        var r := state.Once(o).runner;
        assert Leave(o) in state.threads[r];
        if r == i {
          var x :| 0 <= x < |jobs| && jobs[x] == Leave(o);
          assert x > 0;
          LeaveStays(state, i, err, x);
        }
      }
    }
  }

  lemma LeaveStays(state: State, i: nat, err: int, x: nat)
    requires Enabled(state, i) && 0 < x < |state.threads[i]|
    ensures state.threads[i][x] in Step(state, i, err).threads[i]
  {
    hide FenceCells;
    var jobs := state.threads[i];
    var next := Step(state, i, err).threads[i];
    assert next[|next| - |jobs| + x] == jobs[x];
  }

  lemma StepDisciplined(state: State, high: nat, i: nat, err: int)
    requires Inv(state) && Disciplined(state, high) && Enabled(state, i)
    ensures Disciplined(Step(state, i, err), high)
  {
    hide Inv;
    hide Ordered;
    hide Orderly;
    hide OnceOk;
    hide Step;
    StepThreads(state, i, err);
    StepOrdered(state, high, i, err);
    StepOnceOk(state, high, i, err);
    forall k | 0 <= k < |state.threads| ensures Orderly(Step(state, i, err).threads[k], 0, high) {
      StepOrderly(state, high, i, err, k);
    }
  }

  /** Following the waits from any unfinished goroutine leads to one that can go on: waits on closeDone go to earlier
      fences, waits on a Once to a goroutine that holds no ticket and only enters later Onces. */
  lemma {:induction false} SomeoneCanGoOn(state: State, high: nat, i: nat) returns (k: nat)
    requires Inv(state) && Disciplined(state, high) && i < |state.threads| && state.threads[i] != []
    ensures Enabled(state, k)
    decreases if state.threads[i][0].Once? then 1 else 0,
              if state.threads[i][0].Once? then high - state.threads[i][0].once
              else if state.threads[i][0].Settle? then state.threads[i][0].at else 0
  {
    if Enabled(state, i) {
      k := i;
    } else if state.threads[i][0].Settle? {
      var u, j := WaitsForEarlierFence(state, i);
      HeadOf(state, high, u, j);
      k := SomeoneCanGoOn(state, high, u);
    } else {
      var o := state.threads[i][0].once;
      var r := state.Once(o).runner;
      RunnerHead(state, high, i, o, r);
      k := SomeoneCanGoOn(state, high, r);
    }
  }

  lemma HeadOf(state: State, high: nat, u: nat, j: nat)
    requires Disciplined(state, high) && u < |state.threads| && j < |state.threads[u]| && Ticket(state.threads[u][j])
    ensures Ticket(state.threads[u][0]) && state.threads[u][0].at == state.threads[u][j].at
  {
    assert Ordered(state.threads[u]);
  }

  lemma RunnerHead(state: State, high: nat, i: nat, o: nat, r: nat)
    requires Disciplined(state, high) && i < |state.threads| && state.threads[i] != []
    requires state.threads[i][0].Once? && state.threads[i][0].once == o && state.Once(o) == Running(r)
    ensures r < |state.threads| && state.threads[r] != [] && o < high
    ensures state.threads[r][0].Once? ==> o < state.threads[r][0].once < high
  {
    assert Orderly(state.threads[i], 0, high);
    assert Leave(o) in state.threads[r];
    assert Ordered(state.threads[r]) && Orderly(state.threads[r], 0, high);
    var x :| 0 <= x < |state.threads[r]| && state.threads[r][x] == Leave(o);
  }

  lemma {:induction false} RunDisciplined(state: State, high: nat, choices: seq<Choice>)
    requires Inv(state) && Disciplined(state, high) && Run(state, choices).Some?
    ensures Disciplined(Run(state, choices).value, high)
  {
    hide Inv;
    hide Disciplined;
    hide Step;
    if choices != [] {
      var front := choices[..|choices| - 1];
      RunDisciplined(state, high, front);
      RunKeeps(state, front);
      StepDisciplined(Run(state, front).value, high, choices[|choices| - 1].thread, choices[|choices| - 1].err);
    }
  }

  /** Any number of racing closers, batched revocations and shutdowns among them, never wait in a cycle: in every
      reachable state somebody can go on until all are through; and since every run is finite, all get through. */
  lemma OrderlyClosersFinish(threads: seq<seq<Job>>, high: nat, choices: seq<Choice>, i: nat) returns (k: nat)
    requires forall j | 0 <= j < |threads| :: Program(threads[j]) && Orderly(threads[j], 0, high)
    requires Run(Start(threads), choices).Some?
    requires i < |Run(Start(threads), choices).value.threads| && Run(Start(threads), choices).value.threads[i] != []
    ensures Enabled(Run(Start(threads), choices).value, k)
    ensures |choices| < TotalWeight(threads)
  {
    StartInv(threads);
    StartDisciplined(threads, high);
    RunKeeps(Start(threads), choices);
    RunDisciplined(Start(threads), high, choices);
    var state := Run(Start(threads), choices).value;
    k := SomeoneCanGoOn(state, high, i);
    RunsEnd(Start(threads), choices);
    hide Run;
    StepWeighs(state, k, 0);
  }
}
