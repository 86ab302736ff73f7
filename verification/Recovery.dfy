/** The browser's bounded recovery episode: timers that reconnect after a lost connection. */
module Recovery {
  import opened Protocol

  /** The eight delays, in milliseconds. */
  const DELAYS: seq<nat> := [500, 1000, 2000, 4000, 8000, 16000, 16000, 16000]

  /** What the page and the adapter look like when an event is handled: shown and online; fit for recovery. */
  datatype Surroundings = Surroundings(shown: bool, eligible: bool)

  /** live holds the timers that the page has set and that have neither fired nor been cleared, with their delays.
      connects counts the timer-driven connects since the last reset, everConnects all there have been. */
  datatype State = State(
    attempts: nat, stopped: bool, disposed: bool, pageHidden: bool, timer: Option<nat>,
    live: map<nat, nat>, timersSet: nat, connects: nat, everConnects: nat)
  {
    predicate Visible(now: Surroundings) {
      !pageHidden && now.shown
    }
  }

  const INITIAL := State(0, false, false, false, None, map[], 0, 0, 0)

  function Cancelled(s: State): State {
    s.(live := if s.timer.Some? then s.live - {s.timer.value} else s.live, timer := None)
  }

  function Scheduled(s: State, now: Surroundings): State {
    if s.disposed || s.stopped || s.timer.Some? || !s.Visible(now) || !now.eligible || s.attempts >= |DELAYS| then s
    else s.(timer := Some(s.timersSet), live := s.live[s.timersSet := DELAYS[s.attempts]], timersSet := s.timersSet + 1)
  }

  /** A timer fires: the state afterwards, and whether it connects. */
  function Fired(s: State, id: nat, now: Surroundings): (State, bool) {
    var woken := s.(timer := None, live := s.live - {id});
    if s.disposed || s.stopped || !s.Visible(now) || !now.eligible then (woken, false)
    else (woken.(attempts := s.attempts + 1, connects := s.connects + 1, everConnects := s.everConnects + 1), true)
  }

  function VisibilityChanged(s: State, now: Surroundings): State {
    if !s.Visible(now) then Cancelled(s) else Scheduled(s, now)
  }

  /** The adapter's state listener. */
  function StateChanged(s: State, connected: bool, now: Surroundings): State {
    if connected then
      if s.stopped || !s.Visible(now) then Cancelled(s)
      else Cancelled(s.(attempts := 0, stopped := false, connects := 0))
    else Scheduled(s, now)
  }

  class BrowserRecovery {
    var attempts: nat
    var stopped: bool
    var disposed: bool
    var pageHidden: bool
    var timer: Option<nat>
    ghost var live: map<nat, nat>
    var timersSet: nat
    ghost var connects: nat
    ghost var everConnects: nat

    ghost function Fields(): State
      reads this
    {
      State(attempts, stopped, disposed, pageHidden, timer, live, timersSet, connects, everConnects)
    }

    constructor ()
      ensures Fields() == INITIAL
    {
      attempts, stopped, disposed, pageHidden := 0, false, false, false;
      timer, live, timersSet, connects, everConnects := None, map[], 0, 0, 0;
    }

    method Cancel()
      modifies this
      ensures Fields() == Cancelled(old(Fields()))
    {
      if timer.Some? { live := live - {timer.value}; }
      timer := None;
    }

    method Schedule(now: Surroundings)
      modifies this
      ensures Fields() == Scheduled(old(Fields()), now)
    {
      if disposed || stopped || timer.Some? || pageHidden || !now.shown || !now.eligible || attempts >= |DELAYS| {
        return;
      }
      timer := Some(timersSet);
      live := live[timersSet := DELAYS[attempts]];
      timersSet := timersSet + 1;
    }

    method Fire(id: nat, now: Surroundings) returns (connect: bool)
      modifies this
      ensures (Fields(), connect) == Fired(old(Fields()), id, now)
    {
      live := live - {id};
      timer := None;
      if disposed || stopped || pageHidden || !now.shown || !now.eligible { return false; }
      attempts := attempts + 1;
      connects, everConnects := connects + 1, everConnects + 1;
      return true;
    }

    method Visibility(now: Surroundings)
      modifies this
      ensures Fields() == VisibilityChanged(old(Fields()), now)
    {
      if pageHidden || !now.shown { Cancel(); } else { Schedule(now); }
    }

    method AdapterState(connected: bool, now: Surroundings)
      modifies this
      ensures Fields() == StateChanged(old(Fields()), connected, now)
    {
      if connected {
        if stopped || pageHidden || !now.shown {
          Cancel();
          return;
        }
        attempts := 0;
        stopped := false;
        connects := 0;
        Cancel();
      } else {
        Schedule(now);
      }
    }

    method PageHide()
      modifies this
      ensures Fields() == Cancelled(old(Fields()).(pageHidden := true))
    {
      pageHidden := true;
      Cancel();
    }

    method PageShow(now: Surroundings)
      modifies this
      ensures Fields() == VisibilityChanged(old(Fields()).(pageHidden := false), now)
    {
      pageHidden := false;
      Visibility(now);
    }

    method Stop()
      modifies this
      ensures Fields() == Cancelled(old(Fields()).(stopped := true))
    {
      stopped := true;
      Cancel();
    }

    method Manual()
      modifies this
      ensures Fields() == Cancelled(old(Fields()).(stopped := false, attempts := 1, connects := 0))
    {
      stopped, attempts, connects := false, 1, 0;
      Cancel();
    }

    method Dispose()
      modifies this
      ensures Fields() == Cancelled(old(Fields()).(disposed := true))
    {
      disposed := true;
      Cancel();
    }
  }

  // ---------- Any order of events ----------

  datatype Event =
    | ConnectSettled(now: Surroundings)
    | Fire(id: nat, now: Surroundings)
    | Visibility(now: Surroundings)
    | PageHide
    | PageShow(now: Surroundings)
    | AdapterState(connected: bool, now: Surroundings)
    | Stop
    | Manual
    | Dispose

  /** The state after an event; None when the timer is not live. Dispose takes the listeners away. */
  function Next(s: State, event: Event): Option<State> {
    match event
    case ConnectSettled(now) => Some(Scheduled(s, now))
    case Fire(id, now) => if id in s.live then Some(Fired(s, id, now).0) else None
    case Visibility(now) => Some(if s.disposed then s else VisibilityChanged(s, now))
    case PageHide => Some(if s.disposed then s else Cancelled(s.(pageHidden := true)))
    case PageShow(now) => Some(if s.disposed then s else VisibilityChanged(s.(pageHidden := false), now))
    case AdapterState(connected, now) => Some(if s.disposed then s else StateChanged(s, connected, now))
    case Stop => Some(Cancelled(s.(stopped := true)))
    case Manual => Some(Cancelled(s.(stopped := false, attempts := 1, connects := 0)))
    case Dispose => Some(Cancelled(s.(disposed := true)))
  }

  function Run(events: seq<Event>): Option<State> {
    if events == [] then Some(INITIAL)
    else
      match Run(events[..|events| - 1])
      case None => None
      case Some(before) => Next(before, events[|events| - 1])
  }

  ghost predicate Inv(s: State) {
    && s.live.Keys == (if s.timer.Some? then {s.timer.value} else {})
    && (s.timer.Some? ==> s.timer.value < s.timersSet && !s.stopped && !s.disposed && s.attempts < |DELAYS|
                          && s.live[s.timer.value] == DELAYS[s.attempts])
    && s.connects <= s.attempts <= |DELAYS| && s.attempts <= s.connects + 1
  }

  lemma StepKeeps(s: State, event: Event)
    requires Inv(s) && Next(s, event).Some?
    ensures Inv(Next(s, event).value)
  {
    assert s.timer.Some? ==> s.live.Keys - {s.timer.value} == {};
  }

  /** Whatever the order of events: at most one recovery timer is pending, none while stopped or disposed, and it
      waits for the delay of the current attempt; at most eight timers connect between resets. */
  lemma {:induction false} Bounded(events: seq<Event>)
    requires Run(events).Some?
    ensures var s := Run(events).value;
            && |s.live| <= 1 && (s.stopped || s.disposed ==> s.live == map[])
            && s.connects <= 8 && s.connects <= s.attempts <= s.connects + 1
            && Inv(s)
  {
    hide Next;
    hide Inv;
    if events == [] {
      StartInv();
    } else {
      var before := events[..|events| - 1];
      Bounded(before);
      StepKeeps(Run(before).value, events[|events| - 1]);
    }
    OneTimer(Run(events).value);
  }

  lemma StartInv()
    ensures Inv(INITIAL)
  {
  }

  lemma OneTimer(s: State)
    requires Inv(s)
    ensures |s.live| <= 1 && (s.stopped || s.disposed ==> s.live == map[])
    ensures s.connects <= 8 && s.connects <= s.attempts <= s.connects + 1
  {
    assert |s.live.Keys| == |s.live|;
  }

  /** No timer ever connects while stopped or disposed: from a stop until a manual retry, and from disposal for good,
      the count of all timer-driven connects stays what it was, and after disposal no timer is live. */
  lemma {:induction false} StopLasts(events: seq<Event>, n: nat)
    requires n <= |events| && Run(events).Some? && Run(events[..n]).Some?
    ensures Run(events[..n]).value.disposed ==>
              && Run(events).value.disposed && Run(events).value.live == map[]
              && Run(events).value.everConnects == Run(events[..n]).value.everConnects
    ensures Run(events[..n]).value.stopped && (forall i | n <= i < |events| :: !events[i].Manual?) ==>
              && Run(events).value.stopped && Run(events).value.live == map[]
              && Run(events).value.everConnects == Run(events[..n]).value.everConnects
  {
    Bounded(events);
    hide Inv;
    if n == |events| {
      assert events[..n] == events;
    } else {
      var front := events[..|events| - 1];
      assert front[..n] == events[..n];
      StopLasts(front, n);
      QuietStep(Run(front).value, events[|events| - 1]);
    }
  }

  lemma QuietStep(s: State, event: Event)
    requires Next(s, event).Some?
    ensures var n := Next(s, event).value;
            && (s.disposed ==> n.disposed && n.everConnects == s.everConnects)
            && (s.stopped && !event.Manual? ==> n.stopped && n.everConnects == s.everConnects)
  {
  }

  // ---------- Recovery goes on ----------

  /** The occasions on which a timer may be set. */
  predicate Occasion(event: Event) {
    event.ConnectSettled? || event.Visibility? || event.PageShow? || (event.AdapterState? && !event.connected)
  }

  predicate Wanted(s: State) {
    !s.stopped && !s.disposed
  }

  /** The page is visible once the event is through. */
  predicate SeenAfter(s: State, event: Event)
    requires Occasion(event)
  {
    event.now.shown && (event.PageShow? || !s.pageHidden)
  }

  /** Over every run: on each occasion, if the page is visible and recovery wanted, a timer is live afterwards exactly
      when there was one or the adapter is fit and attempts are left; there is then one timer, with the delay of the
      attempt. */
  lemma {:induction false} SetsTimer(events: seq<Event>, event: Event)
    requires Run(events).Some? && Occasion(event) && SeenAfter(Run(events).value, event) && Wanted(Run(events).value)
    ensures Run(events + [event]).Some?
    ensures var s, n := Run(events).value, Run(events + [event]).value;
            && n.attempts == s.attempts && n.everConnects == s.everConnects && Wanted(n)
            && (n.live != map[] <==> s.live != map[] || (event.now.eligible && s.attempts < 8))
            && (n.live != map[] ==> s.attempts < 8 && exists id :: n.live == map[id := DELAYS[s.attempts]])
  {
    Bounded(events);
    assert (events + [event])[..|events|] == events;
    hide Run;
    var s, n := Run(events).value, Run(events + [event]).value;
    StepKeeps(s, event);
    LiveTimer(s);
    LiveTimer(n);
  }

  /** From the hiding of the page until it is shown again no timer is live and none connects; and on a page that is not
      visible or not online no occasion sets one. */
  lemma {:induction false} HiddenQuiet(events: seq<Event>, n: nat)
    requires n < |events| && events[n].PageHide? && Run(events).Some? && Run(events[..n]).Some?
    requires forall i | n < i < |events| :: !events[i].PageShow?
    ensures Run(events).value.live == map[] && Run(events).value.everConnects == Run(events[..n]).value.everConnects
    ensures Run(events).value.pageHidden || Run(events).value.disposed
  {
    hide Next;
    var front := events[..|events| - 1];
    Bounded(front);
    if n < |front| {
      assert front[..n] == events[..n];
      HiddenQuiet(front, n);
    }
    HiddenStep(Run(front).value, events[|events| - 1]);
  }

  lemma HiddenStep(s: State, event: Event)
    requires Inv(s) && Next(s, event).Some? && !event.PageShow?
    requires event.PageHide? || (s.live == map[] && (s.pageHidden || s.disposed))
    ensures var n := Next(s, event).value;
            n.live == map[] && n.everConnects == s.everConnects && (n.pageHidden || n.disposed)
  {
    LiveTimer(s);
  }

  lemma UnseenSetsNone(events: seq<Event>, event: Event)
    requires Run(events).Some? && Occasion(event) && !SeenAfter(Run(events).value, event)
    ensures Next(Run(events).value, event).Some?
    ensures var s, n := Run(events).value, Next(Run(events).value, event).value;
            && n.everConnects == s.everConnects && n.attempts == s.attempts
            && n.live == if event.ConnectSettled? || event.AdapterState? then s.live else map[]
  {
    Bounded(events);
    hide Run;
    LiveTimer(Run(events).value);
    LiveTimer(Next(Run(events).value, event).value);
  }

  /** The live timers are the pending one. */
  lemma LiveTimer(s: State)
    requires Inv(s)
    ensures if s.timer.Some? then s.attempts < 8 && s.live == map[s.timer.value := DELAYS[s.attempts]]
            else s.live == map[]
  {
    if s.timer.None? {
      assert s.live.Keys == {};
    }
  }

  /** A live timer that fires while the page is visible and the adapter fit connects, and counts as an attempt; in other
      surroundings it does not. No timer is live then. */
  lemma {:induction false} TimerConnects(events: seq<Event>, id: nat, now: Surroundings)
    requires Run(events).Some? && id in Run(events).value.live
    ensures Run(events + [Fire(id, now)]).Some?
    ensures var s, n := Run(events).value, Run(events + [Fire(id, now)]).value;
            var connects := if s.Visible(now) && now.eligible then 1 else 0;
            && n.live == map[] && n.attempts == s.attempts + connects && n.everConnects == s.everConnects + connects
            && Wanted(n) && Fired(s, id, now) == (n, connects == 1)
  {
    Bounded(events);
    assert (events + [Fire(id, now)])[..|events|] == events;
    hide Run;
    LiveTimer(Run(events).value);
  }

  /** A connection on a visible page, unless the user has stopped, starts the count afresh; a manual try counts as one;
      and hiding the page clears the timer and leaves the count. */
  lemma {:induction false} CountsAfresh(events: seq<Event>, now: Surroundings)
    requires Run(events).Some? && !Run(events).value.disposed
    ensures var s, n := Run(events).value, Next(Run(events).value, AdapterState(true, now)).value;
            && n.live == map[] && n.attempts == (if !s.stopped && s.Visible(now) then 0 else s.attempts)
            && n.stopped == s.stopped && n.disposed == s.disposed && n.pageHidden == s.pageHidden
    ensures var n := Next(Run(events).value, Manual).value; Wanted(n) && n.attempts == 1 && n.live == map[]
    ensures var s, n := Run(events).value, Next(Run(events).value, PageHide).value;
            n.live == map[] && n.attempts == s.attempts
    ensures var s, n := Run(events).value, Next(Run(events).value, Visibility(now)).value;
            !s.Visible(now) ==> n.live == map[] && n.attempts == s.attempts
  {
    Bounded(events);
    hide Run;
    LiveTimer(Run(events).value);
  }

  const FIT := Surroundings(true, true)

  /** The connection is lost and the timer for it fires, n times over; ids are the timers'. */
  function Tries(first: nat, n: nat): seq<Event> {
    if n == 0 then [] else Tries(first, n - 1) + [AdapterState(false, FIT), Fire(first + n - 1, FIT)]
  }

  /** A page that stays visible and online and never gets its connection back tries exactly eight times, after the eight
      delays in order, and then no more. */
  lemma {:induction false} EightTries(events: seq<Event>, n: nat)
    requires Run(events).Some? && n <= 8
    requires var s := Run(events).value; Wanted(s) && !s.pageHidden && s.attempts == 0 && s.live == map[]
    ensures Run(events + Tries(Run(events).value.timersSet, n)).Some?
    ensures var s, e := Run(events).value, Run(events + Tries(Run(events).value.timersSet, n)).value;
            && e.attempts == n && e.everConnects == s.everConnects + n && e.live == map[] && e.timer.None?
            && Wanted(e) && !e.pageHidden && e.timersSet == s.timersSet + n
            && Next(e, AdapterState(false, FIT)).value.live ==
                 if n < 8 then map[s.timersSet + n := DELAYS[n]] else map[]
  {
    hide Next;
    var s := Run(events).value;
    if n == 0 {
      assert events + Tries(s.timersSet, 0) == events;
      Bounded(events);
      LostAt(s);
    } else {
      EightTries(events, n - 1);
      var front := events + Tries(s.timersSet, n - 1);
      var e := Run(front).value;
      OneTry(front);
      var all := front + [AdapterState(false, FIT), Fire(e.timersSet, FIT)];
      assert all == events + Tries(s.timersSet, n);
      LostAt(Run(all).value);
    }
  }

  lemma OneTry(events: seq<Event>)
    requires Run(events).Some?
    requires var s := Run(events).value; Wanted(s) && !s.pageHidden && s.live == map[] && s.attempts < 8
    ensures var s := Run(events).value;
            var all := events + [AdapterState(false, FIT), Fire(s.timersSet, FIT)];
            && Run(all) == Some(s.(attempts := s.attempts + 1, connects := s.connects + 1,
                                   everConnects := s.everConnects + 1, timersSet := s.timersSet + 1))
            && Inv(Run(all).value) && s.timer.None?
  {
    hide Next;
    hide Inv;
    var s := Run(events).value;
    var all := events + [AdapterState(false, FIT), Fire(s.timersSet, FIT)];
    Bounded(events);
    LostAt(s);
    LostSome(s);
    assert all[..|all| - 1] == events + [AdapterState(false, FIT)];
    assert (events + [AdapterState(false, FIT)])[..|events|] == events;
    Bounded(all);
  }

  lemma LostSome(s: State)
    ensures Next(s, AdapterState(false, FIT)).Some?
  {
  }

  /** From a state without timer: the connection is lost, and if attempts are left, the timer fires. */
  lemma LostAt(s: State)
    requires Inv(s) && Wanted(s) && !s.pageHidden && s.live == map[]
    ensures s.timer.None?
    ensures var lost := Next(s, AdapterState(false, FIT)).value;
            && lost.live == (if s.attempts < 8 then map[s.timersSet := DELAYS[s.attempts]] else map[])
            && (s.attempts < 8 ==>
                Next(lost, Fire(s.timersSet, FIT)) ==
                Some(s.(attempts := s.attempts + 1, connects := s.connects + 1, everConnects := s.everConnects + 1,
                        timersSet := s.timersSet + 1)))
  {
    LiveTimer(s);
  }
}
