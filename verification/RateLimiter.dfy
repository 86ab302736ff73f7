/** Failed attempts by one identity within five minutes, and the cooldown that follows too many. */
module RateLimiter {
  import opened Protocol

  const FIVE_MINUTES: int := 300_000_000_000

  /** Nanoseconds; None is the zero time. */
  datatype Window = Window(started: Option<int>, count: nat, pending: nat, cooldownUntil: Option<int>)

  const EMPTY := Window(None, 0, 0, None)

  function Fresh(now: int): Window {
    Window(Some(now), 0, 0, None)
  }

  predicate Cooling(w: Window, now: int) {
    w.cooldownUntil.Some? && now < w.cooldownUntil.value
  }

  function AfterAllowed(w: Window, now: int): Window {
    if w.cooldownUntil.Some? then Fresh(now)
    else if w.started.Some? && now - w.started.value >= FIVE_MINUTES then Fresh(now)
    else w
  }

  function Renewed(w: Window, now: int): Window {
    if w.cooldownUntil.Some? || w.started.None? || now - w.started.value >= FIVE_MINUTES then Fresh(now) else w
  }

  /** begin: the window afterwards, and whether the attempt may go ahead. */
  function AfterBegin(w: Window, now: int, limit: nat): (Window, bool) {
    if Cooling(w, now) then (w, false)
    else
      var next := Renewed(w, now);
      if next.count + next.pending >= limit then (next, false) else (next.(pending := next.pending + 1), true)
  }

  function AfterFinish(w: Window, now: int, success: bool, limit: nat): Window {
    var released := if w.pending > 0 then w.(pending := w.pending - 1) else w;
    if success then released
    else
      var counted := released.(count := released.count + 1);
      if counted.count >= limit then counted.(cooldownUntil := Some(now + FIVE_MINUTES)) else counted
  }

  class Limiter {
    var windows: map<string, Window>
    const limit: nat

    function At(identity: string): Window
      reads this
    {
      if identity in windows then windows[identity] else EMPTY
    }

    constructor (limit: nat)
      ensures this.limit == limit && windows == map[]
    {
      this.limit := limit;
      windows := map[];
    }

    method Allowed(identity: string, now: int) returns (allowed: bool)
      modifies this
      ensures var w := old(At(identity));
              var next := if Cooling(w, now) then w else AfterAllowed(w, now);
              && windows == (if Cooling(w, now) then old(windows) else old(windows)[identity := next])
              && allowed == (!Cooling(w, now) && next.count + next.pending < limit)
    {
      var w := At(identity);
      if w.cooldownUntil.Some? {
        if now < w.cooldownUntil.value { return false; }
        w := Fresh(now);
      } else if w.started.Some? && now - w.started.value >= FIVE_MINUTES {
        w := Fresh(now);
      }
      windows := windows[identity := w];
      return w.count + w.pending < limit;
    }

    method Begin(identity: string, now: int) returns (admitted: bool)
      modifies this
      ensures var w := old(At(identity));
              && windows == (if Cooling(w, now) then old(windows)
                             else old(windows)[identity := AfterBegin(w, now, limit).0])
              && admitted == AfterBegin(w, now, limit).1
    {
      var w := At(identity);
      if w.cooldownUntil.Some? {
        if now < w.cooldownUntil.value { return false; }
        w := Fresh(now);
      } else if w.started.None? || now - w.started.value >= FIVE_MINUTES {
        w := Fresh(now);
      }
      if w.count + w.pending >= limit {
        windows := windows[identity := w];
        return false;
      }
      windows := windows[identity := w.(pending := w.pending + 1)];
      return true;
    }

    method Finish(identity: string, now: int, success: bool)
      modifies this
      ensures windows == old(windows)[identity := AfterFinish(old(At(identity)), now, success, limit)]
    {
      var w := At(identity);
      if w.pending > 0 { w := w.(pending := w.pending - 1); }
      if !success {
        w := w.(count := w.count + 1);
        if w.count >= limit { w := w.(cooldownUntil := Some(now + FIVE_MINUTES)); }
      }
      windows := windows[identity := w];
    }
  }

  // ---------- Runs of one identity ----------

  datatype Event = Ask(now: int) | Begin(now: int) | Finish(now: int, success: bool)

  /** outstanding counts the attempts let in and not yet finished; stale says that a reset once forgot some. */
  datatype State = State(window: Window, now: int, outstanding: nat, stale: bool)

  /** One event under a clock that never runs backwards; an attempt finishes once, as its connection sees to. */
  function Next(s: State, event: Event, limit: nat): Option<State> {
    if event.now < s.now then None
    else
      match event
      case Ask(now) =>
        var next := if Cooling(s.window, now) then s.window else AfterAllowed(s.window, now);
        Some(State(next, now, s.outstanding, s.stale || (s.outstanding > 0 && next != s.window)))
      case Begin(now) =>
        var (next, admitted) := AfterBegin(s.window, now, limit);
        var forgot := s.outstanding > 0 && !Cooling(s.window, now) && Renewed(s.window, now) != s.window;
        Some(State(next, now, if admitted then s.outstanding + 1 else s.outstanding, s.stale || forgot))
      case Finish(now, success) =>
        if s.outstanding == 0 then None
        else Some(State(AfterFinish(s.window, now, success, limit), now, s.outstanding - 1, s.stale))
  }

  function From(s: State, events: seq<Event>, limit: nat): Option<State> {
    if events == [] then Some(s)
    else
      match From(s, events[..|events| - 1], limit)
      case None => None
      case Some(before) => Next(before, events[|events| - 1], limit)
  }

  /** A run of one identity's events from a limiter that has never seen it. */
  function Run(start: int, events: seq<Event>, limit: nat): Option<State> {
    From(State(EMPTY, start, 0, false), events, limit)
  }

  lemma {:induction false} FromJoin(s: State, left: seq<Event>, right: seq<Event>, limit: nat)
    requires From(s, left, limit).Some?
    ensures From(s, left + right, limit) == From(From(s, left, limit).value, right, limit)
  {
    hide Next;
    if right == [] {
      assert left + right == left;
    } else {
      FromJoin(s, left, right[..|right| - 1], limit);
      assert (left + right)[..|left + right| - 1] == left + right[..|right| - 1];
    }
  }

  lemma {:induction false} WithinFrom(s: State, events: seq<Event>, limit: nat)
    requires s.window.pending == s.outstanding && s.window.count + s.outstanding <= limit
    requires From(s, events, limit).Some? && !From(s, events, limit).value.stale
    ensures var n := From(s, events, limit).value;
            n.window.pending == n.outstanding && n.window.count + n.outstanding <= limit
  {
    if events != [] {
      WithinFrom(s, events[..|events| - 1], limit);
    }
  }

  /** As long as no window was renewed over attempts still under way, failed and outstanding attempts together stay
      within the limit. */
  lemma WithinLimit(start: int, events: seq<Event>, limit: nat)
    requires Run(start, events, limit).Some? && !Run(start, events, limit).value.stale
    ensures var s := Run(start, events, limit).value;
            s.window.pending == s.outstanding && s.window.count + s.outstanding <= limit
  {
    WithinFrom(State(EMPTY, start, 0, false), events, limit);
  }

  /** The window counts and is not about to be renewed. */
  predicate OpenWindow(s: State) {
    s.window.cooldownUntil.None? && s.window.started.Some? && s.now - s.window.started.value < FIVE_MINUTES
  }

  /** In every reachable state: no more is pending than outstanding, and a window without cooldown is within the
      limit. */
  lemma {:induction false} WindowBounds(start: int, events: seq<Event>, limit: nat)
    requires Run(start, events, limit).Some?
    ensures var s := Run(start, events, limit).value;
            && s.window.pending <= s.outstanding
            && (s.window.cooldownUntil.None? ==>
                s.window.count + s.window.pending <= limit && (s.window.count < limit || s.window.count == 0))
  {
    if events != [] {
      WindowBounds(start, events[..|events| - 1], limit);
    }
  }

  /** n attempts begun at once in an open window with room for them. */
  lemma {:induction false} BeginMany(s: State, n: nat, limit: nat) returns (events: seq<Event>)
    requires OpenWindow(s) && s.window.count + s.window.pending + n <= limit
    ensures From(s, events, limit) ==
            Some(s.(window := s.window.(pending := s.window.pending + n), outstanding := s.outstanding + n))
  {
    if n == 0 {
      events := [];
    } else {
      var front := BeginMany(s, n - 1, limit);
      events := front + [Begin(s.now)];
      assert events[..|events| - 1] == front;
    }
  }

  /** n outstanding attempts fail at once; each is counted, whatever the count. */
  lemma {:induction false} FailMany(s: State, n: nat, limit: nat) returns (events: seq<Event>)
    requires n <= s.outstanding
    ensures From(s, events, limit).Some?
    ensures var t := From(s, events, limit).value;
            t.window.count == s.window.count + n && t.outstanding == s.outstanding - n && t.now == s.now
            && t.stale == s.stale
  {
    if n == 0 {
      events := [];
    } else {
      var front := FailMany(s, n - 1, limit);
      events := front + [Finish(s.now, false)];
      assert events[..|events| - 1] == front;
    }
  }

  /** From s on, without forgetting a further attempt, the failed and outstanding attempts can exceed the limit. */
  ghost predicate CanExceed(s: State, limit: nat) {
    exists more :: ExceedsAfter(s, more, limit)
  }

  ghost predicate ExceedsAfter(s: State, more: seq<Event>, limit: nat) {
    && From(s.(stale := false), more, limit).Some?
    && var t := From(s.(stale := false), more, limit).value;
       !t.stale && t.window.count + t.outstanding > limit
  }

  /** In any reachable state with an open window, some continuation exceeds the limit exactly when a renewal has
      forgotten an attempt that is still under way: when more attempts are outstanding than pending. */
  lemma ExceedsExactly(start: int, events: seq<Event>, limit: nat)
    requires Run(start, events, limit).Some? && OpenWindow(Run(start, events, limit).value)
    ensures var s := Run(start, events, limit).value; CanExceed(s, limit) <==> s.outstanding > s.window.pending
  {
    var s := Run(start, events, limit).value;
    WindowBounds(start, events, limit);
    hide Run;
    hide From;
    if s.outstanding > s.window.pending {
      var more := BeginMany(s.(stale := false), limit - s.window.count - s.window.pending, limit);
      assert ExceedsAfter(s, more, limit);
    } else if CanExceed(s, limit) {
      var more :| ExceedsAfter(s, more, limit);
      WithinFrom(s.(stale := false), more, limit);
    }
  }

  lemma FromOne(s: State, events: seq<Event>, event: Event, limit: nat)
    requires From(s, events, limit).Some?
    ensures From(s, events + [event], limit) == Next(From(s, events, limit).value, event, limit)
  {
    assert (events + [event])[..|events|] == events;
  }

  lemma StaleOpening(limit: nat) returns (events: seq<Event>)
    requires limit > 0
    ensures From(State(EMPTY, 0, 0, false), events, limit) ==
            Some(State(Window(Some(FIVE_MINUTES), 0, 1, None), FIVE_MINUTES, 2, true))
  {
    hide From;
    var s0 := State(EMPTY, 0, 0, false);
    FromNone(s0, limit);
    events := [] + [Begin(0)];
    FromOne(s0, [], Begin(0), limit);
    FromOne(s0, events, Finish(0, true), limit);
    events := events + [Finish(0, true)];
    FromOne(s0, events, Begin(FIVE_MINUTES - 1), limit);
    events := events + [Begin(FIVE_MINUTES - 1)];
    FromOne(s0, events, Begin(FIVE_MINUTES), limit);
    events := events + [Begin(FIVE_MINUTES)];
  }

  lemma FromNone(s: State, limit: nat)
    ensures From(s, [], limit) == Some(s)
  {
  }

  /** For every limit: one attempt begun a nanosecond before its window lapses is forgotten by the next begin, and
      then limit + 1 attempts, each under way for no longer than that nanosecond, all fail. */
  lemma StaleFailuresExceed(limit: nat)
    requires limit > 0
    ensures exists events :: Run(0, events, limit).Some? && Run(0, events, limit).value.window.count == limit + 1
                             && Run(0, events, limit).value.now == FIVE_MINUTES
  {
    hide From;
    var s0 := State(EMPTY, 0, 0, false);
    var opening := StaleOpening(limit);
    var s := State(Window(Some(FIVE_MINUTES), 0, 1, None), FIVE_MINUTES, 2, true);
    var begins := BeginMany(s, limit - 1, limit);
    FromJoin(s0, opening, begins, limit);
    var full := s.(window := s.window.(pending := limit), outstanding := limit + 1);
    var fails := FailMany(full, limit + 1, limit);
    FromJoin(s0, opening + begins, fails, limit);
    assert Run(0, opening + begins + fails, limit).Some?;
  }

  /** A failure that reaches the limit closes the door for five minutes: whatever happens until then, no attempt is
      admitted. */
  lemma {:induction false} CooldownHolds(start: int, before: seq<Event>, failure: int, after: seq<Event>, now: int,
                                         limit: nat)
    requires var events := before + [Finish(failure, false)] + after;
             Run(start, events, limit).Some? && now < failure + FIVE_MINUTES
             && now >= Run(start, events, limit).value.now
    requires Run(start, before + [Finish(failure, false)], limit).Some?
    requires Run(start, before + [Finish(failure, false)], limit).value.window.count >= limit
    ensures Run(start, before + [Finish(failure, false)] + after, limit).value.now >= failure
    ensures var w := Run(start, before + [Finish(failure, false)] + after, limit).value.window;
            && w.count >= limit && w.cooldownUntil.Some? && w.cooldownUntil.value >= failure + FIVE_MINUTES
            && !AfterBegin(w, now, limit).1
  {
    var head := before + [Finish(failure, false)];
    var events := head + after;
    if after == [] {
      assert events == head && head[..|head| - 1] == before;
    } else {
      var front := after[..|after| - 1];
      assert events[..|events| - 1] == head + front;
      var previous := Run(start, head + front, limit).value;
      CooldownHolds(start, before, failure, front, Run(start, events, limit).value.now, limit);
    }
  }

  // ---------- What is counted, and who is refused ----------

  /** The window's time is over: its cooldown has ended, or without one five minutes have passed. */
  predicate Lapsed(w: Window, now: int) {
    match w.cooldownUntil
    case Some(end) => now >= end
    case None => w.started.Some? && now - w.started.value >= FIVE_MINUTES
  }

  /** A question or an attempt after that opens a new window, and so does the very first attempt. */
  predicate Renews(w: Window, event: Event) {
    !event.Finish? && (Lapsed(w, event.now) || (event.Begin? && w.started.None? && w.cooldownUntil.None?))
  }

  /** The failures since the window was opened. */
  function Failures(start: int, events: seq<Event>, limit: nat): nat
    requires Run(start, events, limit).Some?
  {
    if events == [] then 0
    else
      var front, last := events[..|events| - 1], events[|events| - 1];
      if Renews(Run(start, front, limit).value.window, last) then 0
      else Failures(start, front, limit) + if last.Finish? && !last.success then 1 else 0
  }

  /** When the window was opened. */
  function Opened(start: int, events: seq<Event>, limit: nat): Option<int>
    requires Run(start, events, limit).Some?
  {
    if events == [] then None
    else
      var front, last := events[..|events| - 1], events[|events| - 1];
      if Renews(Run(start, front, limit).value.window, last) then Some(last.now) else Opened(start, front, limit)
  }

  /** When an attempt last failed. */
  function LastFailure(events: seq<Event>): Option<int> {
    if events == [] then None
    else
      var last := events[|events| - 1];
      if last.Finish? && !last.success then Some(last.now) else LastFailure(events[..|events| - 1])
  }

  /** Over every run: the count is that of the failures since the window was opened, successes count for nothing, and
      there is a cooldown exactly once the failures have reached the limit, for five minutes from the last of them. */
  lemma {:induction false} CountsFailures(start: int, events: seq<Event>, limit: nat)
    requires Run(start, events, limit).Some?
    ensures var s := Run(start, events, limit).value;
            var failures := Failures(start, events, limit);
            && s.window.count == failures && s.window.started == Opened(start, events, limit)
            && (s.window.cooldownUntil.Some? <==> failures >= limit && failures > 0)
            && (s.window.cooldownUntil.Some? ==>
                LastFailure(events).Some? && s.window.cooldownUntil.value == LastFailure(events).value + FIVE_MINUTES)
            && (s.window.started.None? ==> s.window == EMPTY && s.outstanding == 0)
  {
    if events != [] {
      CountsFailures(start, events[..|events| - 1], limit);
    }
  }

  /** A run without failures counts none and never cools down, however many attempts succeed. */
  lemma {:induction false} NoFailuresNoCooldown(start: int, events: seq<Event>, limit: nat)
    requires Run(start, events, limit).Some? && forall i | 0 <= i < |events| && events[i].Finish? :: events[i].success
    ensures var w := Run(start, events, limit).value.window; w.count == 0 && w.cooldownUntil.None?
  {
    if events != [] {
      NoFailuresNoCooldown(start, events[..|events| - 1], limit);
      assert events[|events| - 1].Finish? ==> events[|events| - 1].success;
    }
  }

  /** In every reachable state an attempt is refused exactly while the cooldown after the last of too many failures
      lasts, or when in a window that has not lapsed the failures and the attempts pending reach the limit; and asking
      first foretells it. */
  lemma {:induction false} RefusedExactly(start: int, events: seq<Event>, limit: nat, now: int)
    requires Run(start, events, limit).Some? && now >= Run(start, events, limit).value.now && limit > 0
    ensures var s := Run(start, events, limit).value;
            var failures := Failures(start, events, limit);
            var cooling := failures >= limit && LastFailure(events).Some?
                && now < LastFailure(events).value + FIVE_MINUTES;
            && (!AfterBegin(s.window, now, limit).1 <==>
                cooling || (failures < limit && !Lapsed(s.window, now) && failures + s.window.pending >= limit))
            && (AfterBegin(s.window, now, limit).1 <==>
                !Cooling(s.window, now)
                && AfterAllowed(s.window, now).count + AfterAllowed(s.window, now).pending < limit)
  {
    CountsFailures(start, events, limit);
    hide Run;
    hide Failures;
    hide LastFailure;
    hide Opened;
  }

  // ---------- The connections behind the attempts ----------

  /** Connections of one device: attemptReserved for each, and how many have cleared it and not yet told the limiter. */
  datatype Endpoint = Endpoint(limiter: State, reserved: set<nat>, finishing: nat)

  datatype Move = BeginAttempt(c: nat, now: int) | ClearReserved(c: nat) | TellLimiter(now: int, success: bool)

  /** beginAttempt, and the two halves of finishAttempt. */
  function After(e: Endpoint, move: Move, limit: nat): Option<Endpoint> {
    match move
    case BeginAttempt(c, now) =>
      if c in e.reserved then Some(e)
      else
        (match Next(e.limiter, Event.Begin(now), limit)
         case None => None
         case Some(limiter) =>
           Some(if limiter.outstanding > e.limiter.outstanding then e.(limiter := limiter, reserved := e.reserved + {c})
                else e.(limiter := limiter)))
    case ClearReserved(c) =>
      if c !in e.reserved then Some(e) else Some(e.(reserved := e.reserved - {c}, finishing := e.finishing + 1))
    case TellLimiter(now, success) =>
      if e.finishing == 0 || now < e.limiter.now then None
      else
        match Next(e.limiter, Event.Finish(now, success), limit)
        case None => None
        case Some(limiter) => Some(e.(limiter := limiter, finishing := e.finishing - 1))
  }

  /** Any order of moves, from an endpoint nobody has tried yet. */
  function EndpointRun(start: int, moves: seq<Move>, limit: nat): Option<Endpoint> {
    if moves == [] then Some(Endpoint(State(EMPTY, start, 0, false), {}, 0))
    else
      match EndpointRun(start, moves[..|moves| - 1], limit)
      case None => None
      case Some(before) => After(before, moves[|moves| - 1], limit)
  }

  lemma AttemptStep(e: Endpoint, move: Move, limit: nat)
    requires |e.reserved| + e.finishing == e.limiter.outstanding && After(e, move, limit).Some?
    ensures var n := After(e, move, limit).value; |n.reserved| + n.finishing == n.limiter.outstanding
  {
  }

  /** Each attempt let in is finished once: those outstanding are the reserved and the finishing ones. So a finish
      under a clock that does not run backwards always finds its attempt outstanding. */
  lemma {:induction false} AttemptsMatch(start: int, moves: seq<Move>, limit: nat)
    requires EndpointRun(start, moves, limit).Some?
    ensures var e := EndpointRun(start, moves, limit).value;
            && |e.reserved| + e.finishing == e.limiter.outstanding
            && forall now, success | now >= e.limiter.now && e.finishing > 0 ::
                 After(e, TellLimiter(now, success), limit).Some?
  {
    if moves != [] {
      AttemptsMatch(start, moves[..|moves| - 1], limit);
      AttemptStep(EndpointRun(start, moves[..|moves| - 1], limit).value, moves[|moves| - 1], limit);
    }
  }

  /** In every run a connection without an attempt under way gets one exactly when the limiter admits it; and an attempt
      under way can be finished at any later time, once: the limiter is told, and a second finish finds nothing. */
  lemma {:induction false} AttemptLife(start: int, moves: seq<Move>, limit: nat, c: nat, now: int, success: bool)
    requires EndpointRun(start, moves, limit).Some? && now >= EndpointRun(start, moves, limit).value.limiter.now
    ensures var e := EndpointRun(start, moves, limit).value;
            && After(e, BeginAttempt(c, now), limit).Some?
            && (c in After(e, BeginAttempt(c, now), limit).value.reserved <==>
                c in e.reserved || AfterBegin(e.limiter.window, now, limit).1)
    ensures var e := EndpointRun(start, moves, limit).value;
            c in e.reserved ==>
              && After(e, ClearReserved(c), limit).Some?
              && var cleared := After(e, ClearReserved(c), limit).value;
                 && c !in cleared.reserved && After(cleared, ClearReserved(c), limit) == Some(cleared)
                 && After(cleared, TellLimiter(now, success), limit).Some?
                 && var told := After(cleared, TellLimiter(now, success), limit).value;
                    && told.reserved == e.reserved - {c} && told.finishing == e.finishing
                    && told.limiter.window == AfterFinish(e.limiter.window, now, success, limit)
  {
    AttemptsMatch(start, moves, limit);
    hide EndpointRun;
    hide AfterBegin;
    hide AfterFinish;
  }
}
