/** scheduleRefresh of ui.go: notifications from any goroutine coalesced into one refresh on
    the UI goroutine, without losing the last one. */
module RefreshTimer {

  /** `version` counts changes of what the UI shows, `seen` is the version at which the last
      refresh began. `notifiers` have made a change and not yet entered scheduleRefresh. `timerSet`
      is the variable; `armed` timers are counting, `fired` callbacks wait for the lock, `cleared`
      ones have released it and not yet queued a refresh. `started` counts the timers so far, `taken`
      the queued refreshes the UI goroutine has begun. */
  datatype State = State(
    version: nat,
    seen: nat,
    notifiers: nat,
    timerSet: bool,
    armed: nat,
    fired: nat,
    cleared: nat,
    queued: nat,
    started: nat,
    taken: nat)

  /** The atomic steps, interleaved at will. */
  datatype Event =
    | Change          // some goroutine changes the state, about to notify
    | Schedule        // a notifier runs scheduleRefresh's locked body
    | Fire            // 150 milliseconds are over
    | ClearTimer      // the callback's locked section
    | Queue           // the callback's fyne.Do
    | Refresh         // the UI goroutine takes a queued refresh
    | RefreshDirectly // the UI goroutine refreshes of its own accord

  predicate Enabled(s: State, ev: Event) {
    match ev
    case Change => true
    case Schedule => s.notifiers > 0
    case Fire => s.armed > 0
    case ClearTimer => s.fired > 0
    case Queue => s.cleared > 0
    case Refresh => s.queued > 0
    case RefreshDirectly => true
  }

  function Step(s: State, ev: Event): State
    requires Enabled(s, ev)
  {
    match ev
    case Change => s.(version := s.version + 1, notifiers := s.notifiers + 1)
    case Schedule =>
      if s.timerSet then s.(notifiers := s.notifiers - 1)
      else s.(notifiers := s.notifiers - 1, timerSet := true, armed := s.armed + 1, started := s.started + 1)
    case Fire => s.(armed := s.armed - 1, fired := s.fired + 1)
    case ClearTimer => s.(fired := s.fired - 1, timerSet := false, cleared := s.cleared + 1)
    case Queue => s.(cleared := s.cleared - 1, queued := s.queued + 1)
    case Refresh => s.(queued := s.queued - 1, taken := s.taken + 1, seen := s.version)
    case RefreshDirectly => s.(seen := s.version)
  }

  const INITIAL := State(0, 0, 0, false, 0, 0, 0, 0, 0, 0)

  /** A refresh that has not begun is on its way. */
  predicate UnderWay(s: State) {
    s.notifiers > 0 || s.armed > 0 || s.fired > 0 || s.cleared > 0 || s.queued > 0
  }

  /** At most one timer is pending, exactly while the variable is set; every refresh comes from its own
      timer; and no change goes unseen unless a refresh for it is under way. */
  predicate Coalesced(s: State) {
    && s.seen <= s.version
    && s.armed + s.fired == (if s.timerSet then 1 else 0)
    && s.armed + s.fired + s.cleared + s.queued + s.taken == s.started
    && (s.seen < s.version ==> UnderWay(s))
  }

  predicate Possible(s: State, events: seq<Event>)
    decreases |events|
  {
    events == [] || (Enabled(s, events[0]) && Possible(Step(s, events[0]), events[1..]))
  }

  function Run(s: State, events: seq<Event>): State
    requires Possible(s, events)
    decreases |events|
  {
    if events == [] then s else Run(Step(s, events[0]), events[1..])
  }

  lemma StepCoalesced(s: State, ev: Event)
    requires Coalesced(s) && Enabled(s, ev)
    ensures Coalesced(Step(s, ev))
  {
  }

  /** No lost refresh, in every interleaving. */
  lemma {:induction false} NoLostRefresh(s: State, events: seq<Event>)
    requires Coalesced(s) && Possible(s, events)
    ensures Coalesced(Run(s, events))
    decreases |events|
  {
    if events != [] {
      StepCoalesced(s, events[0]);
      NoLostRefresh(Step(s, events[0]), events[1..]);
    }
  }

  // ----- notifications are coalesced -----

  /** How often 150 milliseconds are over. */
  function Expiries(events: seq<Event>): nat
    decreases |events|
  {
    if events == [] then 0 else (if events[0].Fire? then 1 else 0) + Expiries(events[1..])
  }

  /** However many notifications a run has, it starts just the timers that expire in it and at most one
      that is still counting; and refreshes come no faster than timers expire. */
  lemma {:induction false} Coalesces(s: State, events: seq<Event>)
    requires Coalesced(s) && Possible(s, events)
    ensures var t := Run(s, events);
      && t.started + s.armed == s.started + Expiries(events) + t.armed
      && t.armed <= 1
      && t.taken + t.queued + t.cleared <= s.taken + s.queued + s.cleared + s.fired + Expiries(events)
    decreases |events|
  {
    if events != [] {
      StepCoalesced(s, events[0]);
      Coalesces(Step(s, events[0]), events[1..]);
    }
  }

  // ----- the last change is shown -----

  /** How many steps the work under way can still take. */
  function Remaining(s: State): nat {
    5 * s.notifiers + 4 * s.armed + 3 * s.fired + 2 * s.cleared + s.queued
  }

  predicate Quiet(events: seq<Event>) {
    forall i :: 0 <= i < |events| ==> !events[i].Change? && !events[i].RefreshDirectly?
  }

  /** Once the changes stop, every interleaving ends after a bounded number of steps, and where
      nothing more can happen the last change has been shown. */
  lemma {:induction false} LastChangeIsShown(s: State, events: seq<Event>)
    requires Coalesced(s) && Possible(s, events) && Quiet(events)
    ensures |events| <= Remaining(s)
    ensures var t := Run(s, events);
      (forall ev :: Enabled(t, ev) ==> ev.Change? || ev.RefreshDirectly?) ==> t.seen == t.version == s.version
    decreases |events|
  {
    if events == [] {
      assert Enabled(s, Schedule) <==> s.notifiers > 0;
      assert Enabled(s, Fire) <==> s.armed > 0;
      assert Enabled(s, ClearTimer) <==> s.fired > 0;
      assert Enabled(s, Queue) <==> s.cleared > 0;
      assert Enabled(s, Refresh) <==> s.queued > 0;
    } else {
      StepCoalesced(s, events[0]);
      assert !events[0].Change? && !events[0].RefreshDirectly?;
      assert forall i :: 0 <= i < |events[1..]| ==> events[1..][i] == events[i + 1];
      LastChangeIsShown(Step(s, events[0]), events[1..]);
    }
  }

  // ----- the object -----

  class UI {
    var refreshTimer: bool  // the variable is not nil
    var pending: nat        // timers that are counting
    var waiting: nat        // callbacks that wait for the lock

    // The rest of the program.
    var version: nat
    var seen: nat
    var notifiers: nat
    var cleared: nat
    var queued: nat
    var started: nat
    var taken: nat

    function Now(): State
      reads this
    {
      State(version, seen, notifiers, refreshTimer, pending, waiting, cleared, queued, started, taken)
    }

    constructor ()
      ensures Now() == INITIAL
    {
      refreshTimer, pending, waiting := false, 0, 0;
      version, seen, notifiers, cleared, queued, started, taken := 0, 0, 0, 0, 0, 0, 0;
    }

    /** scheduleRefresh, under the lock. */
    method ScheduleRefresh()
      requires Coalesced(Now()) && notifiers > 0
      modifies this
      ensures Now() == Step(old(Now()), Schedule)
      ensures Coalesced(Now()) && refreshTimer
      ensures pending == old(pending) + (if old(refreshTimer) then 0 else 1) && queued == old(queued)
    {
      notifiers := notifiers - 1;
      if refreshTimer {
        return;
      }
      refreshTimer, pending, started := true, pending + 1, started + 1;
    }

    /** The timer's callback up to the unlock, and then its fyne.Do. */
    method ClearTimer()
      requires Coalesced(Now()) && waiting > 0
      modifies this
      ensures Now() == Step(old(Now()), Event.ClearTimer)
      ensures Coalesced(Now()) && !refreshTimer
    {
      refreshTimer := false;
      waiting := waiting - 1;
      cleared := cleared + 1;
    }

    method QueueRefresh()
      requires Coalesced(Now()) && cleared > 0
      modifies this
      ensures Now() == Step(old(Now()), Queue)
      ensures Coalesced(Now())
    {
      cleared, queued := cleared - 1, queued + 1;
    }
  }
}
