/** RevokeCredential fences its sessions, then fails the credential's connections, and only then finishes its tickets.
    Failing a connection runs under that connection's Once, and so does the teardown that closes its shells. */
module RevocationRace {
  import opened Protocol
  import opened CloseTickets
  import opened CloseProgress

  /** Teardowns, each of the connection with its number, with the shells each has collected; and revocations, with the
      shells each fences and the connections each fails. */
  datatype Race = Race(collected: seq<seq<nat>>, revoked: seq<seq<nat>>, failed: seq<seq<nat>>)
  {
    ghost predicate Valid() {
      && |failed| == |revoked| && Apart(collected) && Apart(revoked)
      && forall r, j, s: nat | 0 <= r < |revoked| && 0 <= j < |collected| && s in revoked[r] && s in collected[j] ::
           j in failed[r]
    }
  }

  /** A shell has one owner, and one credential. */
  ghost predicate Apart(lists: seq<seq<nat>>) {
    && (forall i | 0 <= i < |lists| :: Distinct(lists[i]))
    && (forall i, j, s: nat | 0 <= i < |lists| && 0 <= j < |lists| && i != j && s in lists[i] :: s !in lists[j])
  }

  /** The teardown of a connection closes the shells it has collected one by one. */
  function Closes(collected: seq<nat>): seq<Job> {
    seq(|collected|, i requires 0 <= i < |collected| => Close([collected[i]], []))
  }

  function Fails(failed: seq<nat>): seq<Job> {
    seq(|failed|, i requires 0 <= i < |failed| => Job.Once(failed[i], []))
  }

  /** The teardowns come first, then the revocations. */
  function Goroutine(race: Race, i: nat): seq<Job>
    requires i < |race.collected| + |race.revoked| && |race.failed| == |race.revoked|
  {
    var n := |race.collected|;
    if i < n then [Job.Once(i, Closes(race.collected[i]))] else [Close(race.revoked[i - n], Fails(race.failed[i - n]))]
  }

  function Goroutines(race: Race): seq<seq<Job>>
    requires |race.failed| == |race.revoked|
  {
    seq(|race.collected| + |race.revoked|, i requires 0 <= i < |race.collected| + |race.revoked| => Goroutine(race, i))
  }

  /** Every goroutine takes its first step: the teardowns collect their shells, then the revocations fence theirs. */
  function FirstSteps(k: nat): seq<Choice> {
    if k == 0 then [] else FirstSteps(k - 1) + [Choice(k - 1, 0)]
  }

  // ---------- After the first steps ----------

  /** A revocation that has fenced its shells. */
  ghost predicate Revoking(jobs: seq<Job>, revoked: seq<nat>, failed: seq<nat>) {
    && |jobs| == |failed| + |revoked|
    && (forall x | 0 <= x < |failed| :: jobs[x] == Job.Once(failed[x], []))
    && (forall x | |failed| <= x < |jobs| :: jobs[x].Settle? && jobs[x].first)
  }

  ghost predicate Has(race: Race, jobs: seq<Job>, i: nat, k: nat)
    requires race.Valid() && i < |race.collected| + |race.revoked|
  {
    var n := |race.collected|;
    if i >= k then jobs == Goroutine(race, i)
    else if i < n then jobs == Closes(race.collected[i]) + [Leave(i)]
    else Revoking(jobs, race.revoked[i - n], race.failed[i - n])
  }

  ghost predicate FencedBy(race: Race, k: nat, s: nat, r: nat) {
    r < |race.revoked| && |race.collected| + r < k && s in race.revoked[r]
  }

  /** The first k goroutines have taken their first step. */
  ghost predicate Begun(race: Race, state: State, k: nat)
    requires race.Valid()
  {
    var n := |race.collected|;
    && Inv(state) && |state.threads| == n + |race.revoked|
    && (forall i | 0 <= i < |state.threads| :: Has(race, state.threads[i], i, k))
    && (forall o: nat :: state.Once(o) == if o < n && o < k then Running(o) else Unused)
    && (forall r, s: nat | FencedBy(race, k, s, r) ::
          state.At(s).firsts == 1 && state.At(s).fencer == n + r && state.At(s).closes == 0)
    && (forall s: nat :: state.At(s).firsts == 0 || exists r :: FencedBy(race, k, s, r))
  }

  lemma BeginStep(race: Race, state: State, k: nat, m: nat)
    requires race.Valid() && Begun(race, state, k) && m == k + 1 <= |race.collected| + |race.revoked|
    ensures Enabled(state, k) && Begun(race, Step(state, k, 0), m)
  {
    hide Inv;
    hide Revoking;
    var n := |race.collected|;
    assert Has(race, state.threads[k], k, k);
    StepKeeps(state, k, 0);
    StepThreads(state, k, 0);
    var next := Step(state, k, 0);
    forall i | 0 <= i < |next.threads| ensures Has(race, next.threads[i], i, m) {
      assert Has(race, state.threads[i], i, k);
      if i == k { BeginJobs(race, state, k); }
    }
    if k < n {
      forall r, s: nat ensures FencedBy(race, m, s, r) <==> FencedBy(race, k, s, r) {
      }
      assert state.threads[k][0] == Job.Once(k, Closes(race.collected[k])) && state.Once(k) == Unused;
      assert next.cells == state.cells && next.onces == state.onces[k := Running(k)];
      assert forall s: nat :: next.At(s) == state.At(s);
    } else {
      BeginCells(race, state, k, m);
      assert next.onces == state.onces;
    }
    forall o: nat ensures next.Once(o) == if o < n && o < m then Running(o) else Unused {
      assert state.Once(o) == if o < n && o < k then Running(o) else Unused;
    }
  }

  lemma BeginJobs(race: Race, state: State, k: nat)
    requires race.Valid() && Begun(race, state, k) && k < |race.collected| + |race.revoked| && Enabled(state, k)
    ensures Has(race, Step(state, k, 0).threads[k], k, k + 1)
  {
    hide Inv;
    var n := |race.collected|;
    assert Has(race, state.threads[k], k, k);
    if k < n {
      assert Closes(race.collected[k]) + [Leave(k)] + [] == Closes(race.collected[k]) + [Leave(k)];
    } else {
      var shells := race.revoked[k - n];
      TicketsListed(state, shells);
      forall x | 0 <= x < |shells| ensures state.At(shells[x]).firsts == 0 {
        forall r ensures !FencedBy(race, k, shells[x], r) {
          assert shells[x] in race.revoked[k - n];
        }
      }
    }
  }

  lemma BeginCells(race: Race, state: State, k: nat, m: nat)
    requires race.Valid() && Begun(race, state, k) && |race.collected| < m == k + 1 <= |race.collected| + |race.revoked|
    requires Enabled(state, k)
    ensures var n, next := |race.collected|, Step(state, k, 0);
            && (forall r, s: nat | FencedBy(race, m, s, r) ::
                  next.At(s).firsts == 1 && next.At(s).fencer == n + r && next.At(s).closes == 0)
            && (forall s: nat :: next.At(s).firsts == 0 || exists r :: FencedBy(race, m, s, r))
  {
    hide Inv;
    var n := |race.collected|;
    assert Has(race, state.threads[k], k, k);
    var next := Step(state, k, 0);
    var fenced := race.revoked[k - n];
    forall s: nat
      ensures next.At(s) ==
              if s in fenced && state.At(s).firsts == 0 then Cell(1, state.clock + 1, k, 0, 0, 0) else state.At(s)
    {
      FencedCell(state, fenced, k, s);
    }
    forall s: nat ensures next.At(s).firsts == 0 || exists r :: FencedBy(race, m, s, r) {
      if s in fenced {
        assert FencedBy(race, m, s, k - n);
      } else if state.At(s).firsts > 0 {
        var r :| FencedBy(race, k, s, r);
        assert FencedBy(race, m, s, r);
      }
    }
    forall r: nat, s: nat | FencedBy(race, m, s, r)
      ensures next.At(s).firsts == 1 && next.At(s).fencer == n + r && next.At(s).closes == 0
    {
      if r == k - n {
        forall q ensures !FencedBy(race, k, s, q) {
        }
      } else {
        assert FencedBy(race, k, s, r);
      }
    }
  }

  lemma {:induction false} AllBegin(race: Race, k: nat)
    requires race.Valid() && k <= |race.collected| + |race.revoked|
    ensures Run(Start(Goroutines(race)), FirstSteps(k)).Some?
    ensures Begun(race, Run(Start(Goroutines(race)), FirstSteps(k)).value, k)
  {
    hide Begun;
    var start := Start(Goroutines(race));
    if k == 0 {
      StartBegun(race);
    } else {
      AllBegin(race, k - 1);
      assert FirstSteps(k)[..k - 1] == FirstSteps(k - 1) by { StepCount(k - 1); }
      StepCount(k);
      BeginStep(race, Run(start, FirstSteps(k - 1)).value, k - 1, k);
    }
  }

  lemma {:induction false} StepCount(k: nat)
    ensures |FirstSteps(k)| == k
  {
    if k > 0 { StepCount(k - 1); }
  }

  lemma StartBegun(race: Race)
    requires race.Valid()
    ensures Begun(race, Start(Goroutines(race)), 0)
  {
    var threads := Goroutines(race);
    forall i | 0 <= i < |threads| ensures Program(threads[i]) {
      if i < |race.collected| {
        assert Program(Closes(race.collected[i]));
      } else {
        assert Program([]);
        assert Program(Fails(race.failed[i - |race.collected|]));
      }
    }
    StartInv(threads);
  }

  /** The state in which every teardown has collected its shells and every revocation has fenced its own. */
  function Fenced(race: Race): State
    requires |race.failed| == |race.revoked|
  {
    var start := Start(Goroutines(race));
    match Run(start, FirstSteps(|race.collected| + |race.revoked|))
    case Some(state) => state
    case None => start
  }

  // ---------- A shell is in both hands ----------

  predicate WantsShell(job: Job, v: nat) {
    job == Close([v], []) || (job.Settle? && !job.first && job.session == v)
  }

  ghost predicate StillWants(jobs: seq<Job>, v: nat, x: nat) {
    && x < |jobs| && WantsShell(jobs[x], v)
    && forall y | 0 <= y < x :: (jobs[y].Close? && jobs[y].between == []) || Ticket(jobs[y])
  }

  /** The jobs up to p lead to the connection's Once. */
  ghost predicate ComesTo(jobs: seq<Job>, once: nat, p: nat) {
    && p < |jobs| && jobs[p] == Job.Once(once, [])
    && forall y | 0 <= y < p ::
         (jobs[y].Once? && jobs[y].body == [] && jobs[y].once != once) || (jobs[y].Leave? && jobs[y].once != once)
  }

  /** Nothing nested is left to do. */
  predicate Plain(job: Job) {
    (job.Close? ==> job.between == []) && (job.Once? ==> job.body == [])
  }

  /** Goroutine `from` holds the first ticket for shell v and comes to the Once that teardown j is in, and the teardown
      still has to wait for the shell. */
  ghost predicate Stuck(state: State, from: nat, j: nat, v: nat) {
    && Inv(state) && j < |state.threads| && from < |state.threads| && from != j && state.Once(j) == Running(j)
    && (exists p :: ComesTo(state.threads[from], j, p))
    && (exists x :: StillWants(state.threads[j], v, x))
    && state.At(v).firsts == 1 && state.At(v).fencer == from && state.At(v).closes == 0
    && (forall i, y | 0 <= i < |state.threads| && 0 <= y < |state.threads[i]| ::
          Plain(state.threads[i][y]) && (i != j ==> state.threads[i][y] != Leave(j)))
  }

  lemma StuckStays(state: State, from: nat, j: nat, v: nat, i: nat, err: int)
    requires Stuck(state, from, j, v) && Enabled(state, i)
    ensures Stuck(Step(state, i, err), from, j, v)
  {
    StepKeeps(state, i, err);
    StuckCell(state, from, j, v, i, err);
    StuckJobs(state, from, j, v, i, err);
    hide Inv;
    StepThreads(state, i, err);
    if i == j {
      WantStays(state, j, v, err);
    } else if i == from {
      ComesCloser(state, from, j, err);
    }
  }

  /** Only `from` can close the shell, and it does not get there. */
  lemma StuckCell(state: State, from: nat, j: nat, v: nat, i: nat, err: int)
    requires Stuck(state, from, j, v) && Enabled(state, i)
    ensures state.At(v).dones == 0 && Step(state, i, err).At(v) == state.At(v)
    ensures Step(state, i, err).Once(j) == Running(j)
  {
    var p: nat :| ComesTo(state.threads[from], j, p);
    var x: nat :| StillWants(state.threads[j], v, x);
    assert CellOk(state.At(v), state.clock, |state.threads|);
    assert Holds(state.threads[i], i, v, state.At(v));
    TicketCounted(state.threads[i], 0, v);
    if state.threads[i][0].Close? {
      FencedCell(state, state.threads[i][0].sessions, i, v);
    }
  }

  lemma StuckJobs(state: State, from: nat, j: nat, v: nat, i: nat, err: int)
    requires Stuck(state, from, j, v) && Enabled(state, i)
    ensures var next := Step(state, i, err).threads[i];
            forall y | 0 <= y < |next| :: Plain(next[y]) && (i != j ==> next[y] != Leave(j))
  {
    hide Inv;
    var jobs := state.threads[i];
    assert Plain(jobs[0]);
    if jobs[0].Close? {
      TicketsListed(state, jobs[0].sessions);
    }
  }

  lemma ComesCloser(state: State, from: nat, j: nat, err: int)
    requires Enabled(state, from) && state.Once(j).Running? && exists p :: ComesTo(state.threads[from], j, p)
    ensures exists p :: ComesTo(Step(state, from, err).threads[from], j, p)
  {
    var jobs := state.threads[from];
    var next := Step(state, from, err).threads[from];
    var p: nat :| ComesTo(jobs, j, p);
    assert p > 0;
    if jobs[0].Leave? || state.Once(jobs[0].once).Used? {
      assert ComesTo(next, j, p - 1);
    } else {
      assert next == [Leave(jobs[0].once)] + jobs[1..];
      assert ComesTo(next, j, p);
    }
  }

  lemma WantStays(state: State, j: nat, v: nat, err: int)
    requires Enabled(state, j) && state.At(v).firsts == 1 && state.At(v).dones == 0
    requires exists x :: StillWants(state.threads[j], v, x)
    ensures exists x :: StillWants(Step(state, j, err).threads[j], v, x)
  {
    var x: nat :| StillWants(state.threads[j], v, x);
    var grown := |Step(state, j, err).threads[j]| - |state.threads[j]|;
    if x > 0 {
      WantShifts(state, j, v, err, x);
      assert StillWants(Step(state, j, err).threads[j], v, x + grown);
    } else {
      WantTurns(state, j, v, err);
      assert StillWants(Step(state, j, err).threads[j], v, 0);
    }
  }

  lemma WantShifts(state: State, j: nat, v: nat, err: int, x: nat)
    requires Enabled(state, j) && 0 < x && StillWants(state.threads[j], v, x)
    ensures var next := Step(state, j, err).threads[j];
            |next| + x >= |state.threads[j]| && StillWants(next, v, |next| - |state.threads[j]| + x)
  {
    var jobs := state.threads[j];
    var next := Step(state, j, err).threads[j];
    if jobs[0].Close? {
      TicketsListed(state, jobs[0].sessions);
      assert jobs[0].between + Tickets(state, jobs[0].sessions) == Tickets(state, jobs[0].sessions);
    }
    forall y | |next| - |jobs| + 1 <= y < |next| && y >= 0 ensures next[y] == jobs[y - |next| + |jobs|] {
    }
  }

  lemma WantTurns(state: State, j: nat, v: nat, err: int)
    requires Enabled(state, j) && StillWants(state.threads[j], v, 0)
    requires state.At(v).firsts == 1 && state.At(v).dones == 0
    ensures StillWants(Step(state, j, err).threads[j], v, 0)
  {
    TicketsListed(state, [v]);
  }

  lemma {:induction false} StuckForGood(state: State, from: nat, j: nat, v: nat, choices: seq<Choice>)
    requires Stuck(state, from, j, v) && Run(state, choices).Some?
    ensures Stuck(Run(state, choices).value, from, j, v)
  {
    hide Stuck;
    hide Step;
    if choices != [] {
      var last := choices[|choices| - 1];
      StuckForGood(state, from, j, v, choices[..|choices| - 1]);
      StuckStays(Run(state, choices[..|choices| - 1]).value, from, j, v, last.thread, last.err);
    }
  }

  lemma FirstPlace(onces: seq<nat>, once: nat) returns (p: nat)
    requires once in onces
    ensures p < |onces| && onces[p] == once && once !in onces[..p]
  {
    p := 0;
    while onces[p] != once
      invariant p < |onces| && once !in onces[..p] && once in onces[p..]
      decreases |onces| - p
    {
      p := p + 1;
    }
  }

  lemma BegunStuck(race: Race, state: State, r: nat, j: nat, v: nat)
    requires race.Valid() && Begun(race, state, |race.collected| + |race.revoked|)
    requires r < |race.revoked| && j < |race.collected| && v in race.revoked[r] && v in race.collected[j]
    ensures Stuck(state, |race.collected| + r, j, v)
  {
    hide Inv;
    var n, k := |race.collected|, |race.collected| + |race.revoked|;
    assert Has(race, state.threads[n + r], n + r, k) && Has(race, state.threads[j], j, k);
    assert FencedBy(race, k, v, r);
    var p := FirstPlace(race.failed[r], j);
    assert ComesTo(state.threads[n + r], j, p) by {
      forall y | 0 <= y < p ensures race.failed[r][y] != j {
        assert race.failed[r][y] in race.failed[r][..p];
      }
    }
    var x :| 0 <= x < |race.collected[j]| && race.collected[j][x] == v;
    assert StillWants(state.threads[j], v, x);
    forall i, y | 0 <= i < |state.threads| && 0 <= y < |state.threads[i]|
      ensures Plain(state.threads[i][y]) && (i != j ==> state.threads[i][y] != Leave(j))
    {
      assert Has(race, state.threads[i], i, k);
    }
  }

  /** If a teardown has collected a shell that a revocation then fences, neither of the two ever gets through. */
  lemma SharedShellHangs(race: Race, r: nat, j: nat, v: nat, choices: seq<Choice>)
    requires race.Valid() && r < |race.revoked| && j < |race.collected| && v in race.revoked[r]
    requires v in race.collected[j]
    requires Run(Fenced(race), choices).Some?
    ensures var state := Run(Fenced(race), choices).value;
            && |state.threads| == |race.collected| + |race.revoked|
            && state.threads[j] != [] && state.threads[|race.collected| + r] != []
  {
    hide Run;
    AllBegin(race, |race.collected| + |race.revoked|);
    BegunStuck(race, Fenced(race), r, j, v);
    StuckForGood(Fenced(race), |race.collected| + r, j, v, choices);
    hide Inv;
    RunThreads(Fenced(race), choices);
  }

  lemma {:induction false} RunThreads(state: State, choices: seq<Choice>)
    requires Run(state, choices).Some?
    ensures |Run(state, choices).value.threads| == |state.threads|
  {
    if choices != [] {
      RunThreads(state, choices[..|choices| - 1]);
    }
  }

  // ---------- No shell is in both hands ----------

  /** A teardown's job: a shell of its own that nobody has fenced, or what comes of one. */
  ghost predicate TeardownJob(race: Race, state: State, i: nat, job: Job)
    requires i < |race.collected|
  {
    || (job.Close? && job.between == [] && |job.sessions| == 1
        && job.sessions[0] in race.collected[i] && state.At(job.sessions[0]).firsts == 0)
    || (job.Settle? && job.first) || job.Finish? || job == Leave(i)
  }

  ghost predicate TeardownFree(race: Race, state: State, i: nat, jobs: seq<Job>)
    requires i < |race.collected|
  {
    && (forall y | 0 <= y < |jobs| :: TeardownJob(race, state, i, jobs[y]))
    && (forall x, y | 0 <= x < y < |jobs| && jobs[x].Close? && jobs[y].Close? :: jobs[x].sessions != jobs[y].sessions)
  }

  predicate RevocationFree(jobs: seq<Job>) {
    forall y | 0 <= y < |jobs| ::
      (jobs[y].Once? && jobs[y].body == []) || (jobs[y].Settle? && jobs[y].first) || jobs[y].Finish?
      || (y == 0 && jobs[y].Leave?)
  }

  predicate Leaves(state: State, once: nat, runner: nat) {
    runner < |state.threads| && Leave(once) in state.threads[runner]
  }

  /** The teardowns have only shells of their own to close, the revocations only first tickets, and whoever is in a
      Once will leave it. */
  ghost predicate Free(race: Race, state: State)
    requires race.Valid()
  {
    var n := |race.collected|;
    && |state.threads| == n + |race.revoked|
    && (forall i | 0 <= i < n :: TeardownFree(race, state, i, state.threads[i]))
    && (forall i | n <= i < |state.threads| :: RevocationFree(state.threads[i]))
    && (forall o: nat | state.Once(o).Running? :: Leaves(state, o, state.Once(o).runner))
  }

  predicate Through(state: State) {
    forall i | 0 <= i < |state.threads| :: state.threads[i] == []
  }

  lemma FreeGoesOn(race: Race, state: State) returns (k: nat)
    requires race.Valid() && Free(race, state) && !Through(state)
    ensures Enabled(state, k)
  {
    var n := |race.collected|;
    k :| 0 <= k < |state.threads| && state.threads[k] != [];
    if k < n {
      assert TeardownJob(race, state, k, state.threads[k][0]);
    } else {
      assert RevocationFree(state.threads[k]);
      if state.threads[k][0].Once? && state.Once(state.threads[k][0].once).Running? {
        var o := state.threads[k][0].once;
        k := state.Once(o).runner;
        assert Leaves(state, o, k);
        if k < n {
          assert TeardownJob(race, state, k, state.threads[k][0]);
        } else {
          assert RevocationFree(state.threads[k]);
        }
      }
    }
  }

  lemma FreeStep(race: Race, state: State, i: nat, err: int)
    requires race.Valid() && Free(race, state) && Enabled(state, i)
    ensures Free(race, Step(state, i, err))
  {
    var n, next := |race.collected|, Step(state, i, err);
    StepThreads(state, i, err);
    forall k | 0 <= k < n ensures TeardownFree(race, next, k, next.threads[k]) {
      FreeTeardown(race, state, i, err, k);
    }
    if i >= n {
      FreeRevocation(state, i, err);
    }
    forall o: nat | next.Once(o).Running? ensures Leaves(next, o, next.Once(o).runner) {
      FreeLeaves(race, state, i, err, o);
    }
  }

  lemma FreeRevocation(state: State, i: nat, err: int)
    requires Enabled(state, i) && RevocationFree(state.threads[i])
    ensures RevocationFree(Step(state, i, err).threads[i])
  {
    var jobs, next := state.threads[i], Step(state, i, err).threads[i];
    if jobs[0].Once? && !state.Once(jobs[0].once).Used? {
      assert next == [Leave(jobs[0].once)] + jobs[1..];
    }
  }

  lemma FreeLeaves(race: Race, state: State, i: nat, err: int, o: nat)
    requires race.Valid() && Free(race, state) && Enabled(state, i) && Step(state, i, err).Once(o).Running?
    ensures Leaves(Step(state, i, err), o, Step(state, i, err).Once(o).runner)
  {
    hide Free;
    OnlyOnces(race, state, i);
    var jobs := state.threads[i];
    if !(jobs[0] == Job.Once(o, []) && !state.Once(o).Used?) {
      StillIn(state, i, err, o);
      FreeRunner(race, state, o);
      if state.Once(o).runner == i { LeaveLeft(state, i, err, o); }
    }
  }

  lemma FreeRunner(race: Race, state: State, o: nat)
    requires race.Valid() && Free(race, state) && state.Once(o).Running?
    ensures Leaves(state, o, state.Once(o).runner)
  {
  }

  lemma StillIn(state: State, i: nat, err: int, o: nat)
    requires Enabled(state, i) && Step(state, i, err).Once(o).Running?
    requires !(state.threads[i][0].Once? && state.threads[i][0].once == o && !state.Once(o).Used?)
    ensures state.Once(o) == Step(state, i, err).Once(o) && state.threads[i][0] != Leave(o)
  {
  }

  lemma LeaveLeft(state: State, i: nat, err: int, o: nat)
    requires Enabled(state, i) && Leave(o) in state.threads[i] && state.threads[i][0] != Leave(o)
    ensures Leave(o) in Step(state, i, err).threads[i]
  {
    var rest := state.threads[i][1..];
    var next := Step(state, i, err).threads[i];
    assert Leave(o) in rest;
    assert next[|next| - |rest|..] == rest;
    assert Leave(o) in next[|next| - |rest|..];
  }

  lemma OnlyOnces(race: Race, state: State, i: nat)
    requires race.Valid() && Free(race, state) && Enabled(state, i)
    ensures state.threads[i][0].Once? ==> state.threads[i][0].body == []
  {
    if i < |race.collected| {
      assert TeardownJob(race, state, i, state.threads[i][0]);
    } else {
      assert RevocationFree(state.threads[i]);
    }
  }

  /** A step leaves the teardowns' shells unfenced, but for the one it closes. */
  lemma FreeTeardown(race: Race, state: State, i: nat, err: int, k: nat)
    requires race.Valid() && Free(race, state) && Enabled(state, i) && k < |race.collected|
    ensures TeardownFree(race, Step(state, i, err), k, Step(state, i, err).threads[k])
  {
    hide Step;
    var next := Step(state, i, err);
    var jobs := state.threads[k];
    var gone := if k == i then 1 else 0;
    assert TeardownFree(race, state, k, jobs);
    StepThreads(state, i, err);
    forall y | gone <= y < |jobs| ensures TeardownJob(race, next, k, jobs[y]) {
      assert TeardownJob(race, state, k, jobs[y]);
      if jobs[y].Close? {
        StaysUnfenced(race, state, i, err, k, y);
      }
    }
    if k == i { NextJobs(race, state, i, err); }
  }

  /** A teardown's step replaces its head by at most one ticket or second half. */
  lemma NextJobs(race: Race, state: State, i: nat, err: int)
    requires race.Valid() && Enabled(state, i) && i < |race.collected|
    requires TeardownJob(race, state, i, state.threads[i][0])
    ensures var rest, next := state.threads[i][1..], Step(state, i, err).threads[i];
            next == rest || exists job: Job :: next == [job] + rest && ((job.Settle? && job.first) || job.Finish?)
  {
    var job := state.threads[i][0];
    if job.Close? {
      TicketsListed(state, job.sessions);
      var ticket := Tickets(state, job.sessions)[0];
      assert Tickets(state, job.sessions) == [ticket];
      assert Step(state, i, err).threads[i] == [ticket] + state.threads[i][1..];
    }
  }

  /** Only teardowns still fence, and only a shell of their own that nobody has. */
  lemma OnlyOwn(race: Race, state: State, i: nat)
    requires race.Valid() && Free(race, state) && Enabled(state, i) && state.threads[i][0].Close?
    ensures i < |race.collected| && TeardownJob(race, state, i, state.threads[i][0])
  {
    if i < |race.collected| {
      assert TeardownFree(race, state, i, state.threads[i]);
    }
  }

  lemma StaysUnfenced(race: Race, state: State, i: nat, err: int, k: nat, y: nat)
    requires race.Valid() && Free(race, state) && Enabled(state, i) && k < |race.collected|
    requires (if k == i then 1 else 0) <= y < |state.threads[k]| && state.threads[k][y].Close?
    ensures Step(state, i, err).At(state.threads[k][y].sessions[0]).firsts == 0
  {
    hide FenceCells;
    var job, head := state.threads[k][y], state.threads[i][0];
    assert TeardownFree(race, state, k, state.threads[k]);
    assert TeardownJob(race, state, k, job);
    if head.Close? {
      OnlyOwn(race, state, i);
      FencedCell(state, head.sessions, i, job.sessions[0]);
      assert head.sessions == [head.sessions[0]] && job.sessions == [job.sessions[0]];
      if i == k { assert head.sessions != job.sessions; }
    }
  }

  lemma {:induction false} FreeForGood(race: Race, state: State, choices: seq<Choice>)
    requires race.Valid() && Free(race, state) && Run(state, choices).Some?
    ensures Free(race, Run(state, choices).value)
  {
    hide Free;
    hide Step;
    if choices != [] {
      var last := choices[|choices| - 1];
      FreeForGood(race, state, choices[..|choices| - 1]);
      FreeStep(race, Run(state, choices[..|choices| - 1]).value, last.thread, last.err);
    }
  }

  ghost predicate Separate(race: Race) {
    forall r, j, s: nat | 0 <= r < |race.revoked| && 0 <= j < |race.collected| && s in race.revoked[r] ::
          s !in race.collected[j]
  }

  lemma BegunFree(race: Race, state: State)
    requires race.Valid() && Separate(race) && Begun(race, state, |race.collected| + |race.revoked|)
    ensures Free(race, state)
  {
    hide Inv;
    var n, k := |race.collected|, |race.collected| + |race.revoked|;
    forall i | 0 <= i < n ensures TeardownFree(race, state, i, state.threads[i]) {
      assert Has(race, state.threads[i], i, k);
      var jobs := state.threads[i];
      forall y | 0 <= y < |jobs| ensures TeardownJob(race, state, i, jobs[y]) {
        if y < |race.collected[i]| {
          assert jobs[y] == Close([race.collected[i][y]], []);
          assert forall r :: !FencedBy(race, k, race.collected[i][y], r);
        }
      }
    }
    forall i | n <= i < |state.threads| ensures RevocationFree(state.threads[i]) {
      assert Has(race, state.threads[i], i, k);
    }
    forall o: nat | state.Once(o).Running? ensures Leaves(state, o, state.Once(o).runner) {
      assert Has(race, state.threads[o], o, k);
      assert state.threads[o][|race.collected[o]|] == Leave(o);
    }
  }

  /** If they share no shell, somebody can always go on until all are through. */
  lemma SeparateShellsFinish(race: Race, choices: seq<Choice>) returns (k: nat)
    requires race.Valid() && Separate(race)
    requires Run(Fenced(race), choices).Some? && !Through(Run(Fenced(race), choices).value)
    ensures Enabled(Run(Fenced(race), choices).value, k)
  {
    hide Run;
    AllBegin(race, |race.collected| + |race.revoked|);
    BegunFree(race, Fenced(race));
    FreeForGood(race, Fenced(race), choices);
    k := FreeGoesOn(race, Run(Fenced(race), choices).value);
  }

  lemma {:induction false} RunPrepend(state: State, choice: Choice, rest: seq<Choice>)
    requires Enabled(state, choice.thread)
    ensures Run(state, [choice] + rest) == Run(Step(state, choice.thread, choice.err), rest)
  {
    hide Step;
    var all := [choice] + rest;
    if rest == [] {
      assert all == [choice] && [choice][..0] == [];
    } else {
      RunPrepend(state, choice, rest[..|rest| - 1]);
      assert all[..|all| - 1] == [choice] + rest[..|rest| - 1];
    }
  }

  lemma {:induction false} FreeFinishes(race: Race, state: State) returns (choices: seq<Choice>)
    requires race.Valid() && Free(race, state)
    ensures Run(state, choices).Some? && Through(Run(state, choices).value)
    decreases TotalWeight(state.threads)
  {
    if Through(state) {
      choices := [];
    } else {
      var k := FreeGoesOn(race, state);
      hide Free;
      hide Step;
      StepWeighs(state, k, 0);
      FreeStep(race, state, k, 0);
      var rest := FreeFinishes(race, Step(state, k, 0));
      RunPrepend(state, Choice(k, 0), rest);
      choices := [Choice(k, 0)] + rest;
    }
  }

  /** After the teardowns have collected their shells and the revocations have fenced theirs, all can get through
      exactly when no teardown has collected a shell that a revocation fenced. */
  lemma {:induction false} RevocationGetsThrough(race: Race)
    requires race.Valid()
    ensures (exists choices :: Run(Fenced(race), choices).Some? && Through(Run(Fenced(race), choices).value)) <==>
            Separate(race)
  {
    var state := Fenced(race);
    hide Run;
    AllBegin(race, |race.collected| + |race.revoked|);
    hide Inv;
    if Separate(race) {
      BegunFree(race, state);
      var choices := FreeFinishes(race, state);
    } else {
      var r: nat, j: nat, v: nat :| r < |race.revoked| && j < |race.collected| && v in race.revoked[r]
          && v in race.collected[j];
      forall choices | Run(state, choices).Some? ensures !Through(Run(state, choices).value) {
        SharedShellHangs(race, r, j, v, choices);
      }
    }
  }
}
