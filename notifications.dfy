/**
 * The notifications composable: a banner of three values and the auto-clear timers
 * it schedules. Timing is not modelled; a timer that fires is an explicit event, and
 * the state records how many scheduled clears have not fired yet.
 */
module Notifications {

  /** `message`, `messageType` and `isVisible`. */
  datatype Banner = Banner(message: string, messageType: string, isVisible: bool)

  /** The banner every `useNotifications()` call starts with, and `clearNotification` restores. */
  const Hidden := Banner("", "", false)

  const DefaultDuration := 5000

  /** The banner and the number of scheduled clears still pending. */
  datatype NoteState = NoteState(banner: Banner, pending: nat)

  const Fresh := NoteState(Hidden, 0)

  datatype Event =
    | Show(text: string, kind: string, duration: int)  // showNotification(text, kind, duration)
    | Dismiss                                          // clearNotification()
    | Timeout                                          // one scheduled clear runs

  /** `showNotification` schedules an auto-clear exactly for a positive duration. */
  predicate Schedules(duration: int) {
    duration > 0
  }

  /** The banner an event leaves, whatever came before it. */
  function BannerAfter(e: Event): (b: Banner)
    ensures b.isVisible <==> e.Show?
    ensures e.Show? ==> b.message == e.text && b.messageType == e.kind
    ensures !e.Show? ==> b == Hidden
  {
    match e
    case Show(text, kind, _) => Banner(text, kind, true)
    case Dismiss => Hidden
    case Timeout => Hidden
  }

  /** The effect of one event; a timer can only fire while one is pending. */
  function Step(s: NoteState, e: Event): (r: NoteState)
    requires e.Timeout? ==> s.pending > 0
    ensures r.banner == BannerAfter(e)
    ensures r.pending + (if e.Timeout? then 1 else 0) == s.pending + (if e.Show? && Schedules(e.duration) then 1 else 0)
  {
    match e
    case Show(text, kind, duration) =>
      NoteState(Banner(text, kind, true), if Schedules(duration) then s.pending + 1 else s.pending)
    case Dismiss => NoteState(Hidden, s.pending)
    case Timeout => NoteState(Hidden, s.pending - 1)
  }

  /** Every timer event in `events` finds a pending timer when it fires. */
  predicate Feasible(s: NoteState, events: seq<Event>)
    decreases |events|
  {
    events == [] || ((events[0].Timeout? ==> s.pending > 0) && Feasible(Step(s, events[0]), events[1..]))
  }

  function Run(s: NoteState, events: seq<Event>): NoteState
    requires Feasible(s, events)
    decreases |events|
  {
    if events == [] then s else Run(Step(s, events[0]), events[1..])
  }

  /** How many of `events` schedule a clear. */
  function Scheduled(events: seq<Event>): nat {
    if events == [] then 0
    else (if events[0].Show? && Schedules(events[0].duration) then 1 else 0) + Scheduled(events[1..])
  }

  /** How many of `events` are timers firing. */
  function Fired(events: seq<Event>): nat {
    if events == [] then 0 else (if events[0].Timeout? then 1 else 0) + Fired(events[1..])
  }

  /** `showNotification` sets all three values and schedules exactly for a positive duration. */
  lemma ShowEffect(s: NoteState, text: string, kind: string, duration: int)
    ensures Step(s, Show(text, kind, duration)).banner == Banner(text, kind, true)
    ensures Step(s, Show(text, kind, duration)).pending == s.pending + (if duration > 0 then 1 else 0)
  {
  }

  /** `clearNotification` restores the hidden banner and is idempotent. */
  lemma DismissIdempotent(s: NoteState)
    ensures Step(s, Dismiss).banner == Hidden
    ensures Step(Step(s, Dismiss), Dismiss) == Step(s, Dismiss)
  {
  }

  /**
   * A scheduled clear does not check what it hides: a banner shown after it was
   * scheduled, even an error shown with no timer of its own, is cleared by it.
   */
  lemma StaleTimerHidesNewer(s: NoteState, text: string, kind: string, duration: int)
    requires s.pending > 0
    ensures Step(Step(s, Show(text, kind, duration)), Timeout).banner == Hidden
  {
  }

  /** The final banner is decided by the last event alone. */
  lemma {:induction false} LastEventDecides(s: NoteState, events: seq<Event>)
    requires Feasible(s, events) && events != []
    ensures Run(s, events).banner == BannerAfter(events[|events| - 1])
    decreases |events|
  {
    if |events| > 1 {
      LastEventDecides(Step(s, events[0]), events[1..]);
    }
  }

  /** Pending clears are those scheduled minus those fired. */
  lemma {:induction false} PendingCount(s: NoteState, events: seq<Event>)
    requires Feasible(s, events)
    ensures Run(s, events).pending + Fired(events) == s.pending + Scheduled(events)
    decreases |events|
  {
    if events != [] {
      PendingCount(Step(s, events[0]), events[1..]);
    }
  }

  /** With no timer pending and none scheduled since, a shown banner stays until dismissed. */
  lemma {:induction false} StaysWithoutTimers(s: NoteState, events: seq<Event>)
    requires s.pending == 0 && Feasible(s, events)
    requires forall i :: 0 <= i < |events| ==> events[i].Show? && !Schedules(events[i].duration)
    ensures Run(s, events).pending == 0
    ensures events != [] ==> Run(s, events).banner.isVisible
    decreases |events|
  {
    if events != [] {
      StaysWithoutTimers(Step(s, events[0]), events[1..]);
    }
  }

  class Notifier {
    var message: string
    var messageType: string
    var isVisible: bool
    var pending: nat

    function State(): NoteState
      reads this
    {
      NoteState(Banner(message, messageType, isVisible), pending)
    }

    /** `useNotifications()`: fresh, independent state. */
    constructor ()
      ensures State() == Fresh
    {
      message, messageType, isVisible := "", "", false;
      pending := 0;
    }

    method ShowNotification(text: string, kind: string := "info", duration: int := DefaultDuration)
      returns (scheduled: bool)
      modifies this
      ensures scheduled == Schedules(duration)
      ensures State() == Step(old(State()), Show(text, kind, duration))
    {
      message := text;
      messageType := kind;
      isVisible := true;
      scheduled := duration > 0;
      if scheduled {
        pending := pending + 1;
      }
    }

    method ShowSuccess(text: string, duration: int := DefaultDuration) returns (scheduled: bool)
      modifies this
      ensures scheduled == Schedules(duration)
      ensures State() == Step(old(State()), Show(text, "success", duration))
    {
      scheduled := ShowNotification(text, "success", duration);
    }

    /** Errors default to no auto-clear. */
    method ShowError(text: string, duration: int := 0) returns (scheduled: bool)
      modifies this
      ensures scheduled == Schedules(duration)
      ensures State() == Step(old(State()), Show(text, "error", duration))
    {
      scheduled := ShowNotification(text, "error", duration);
    }

    method ShowInfo(text: string, duration: int := DefaultDuration) returns (scheduled: bool)
      modifies this
      ensures scheduled == Schedules(duration)
      ensures State() == Step(old(State()), Show(text, "info", duration))
    {
      scheduled := ShowNotification(text, "info", duration);
    }

    method ClearNotification()
      modifies this
      ensures State() == Step(old(State()), Dismiss)
    {
      message := "";
      messageType := "";
      isVisible := false;
    }

    /** A scheduled clear runs: it calls `clearNotification` unconditionally. */
    method TimerFires()
      requires pending > 0
      modifies this
      ensures State() == Step(old(State()), Timeout)
    {
      ClearNotification();
      pending := pending - 1;
    }
  }

  /**
   * The helpers called without their optional arguments on a fresh instance: info,
   * success and info schedule a clear (5000), an error schedules none (0), and a
   * timer that then fires hides the error. Answers what each call reported and the
   * state after each step.
   */
  method HelperDefaults() returns (scheduled: seq<bool>, states: seq<NoteState>)
    ensures scheduled == [true, true, true, false]
    ensures states == [
      NoteState(Banner("a", "info", true), 1),
      NoteState(Banner("b", "success", true), 2),
      NoteState(Banner("c", "info", true), 3),
      NoteState(Banner("d", "error", true), 3),
      NoteState(Hidden, 2)]
  {
    var n := new Notifier();
    var s1 := n.ShowNotification("a");
    var t1 := n.State();
    var s2 := n.ShowSuccess("b");
    var t2 := n.State();
    var s3 := n.ShowInfo("c");
    var t3 := n.State();
    var s4 := n.ShowError("d");
    var t4 := n.State();
    n.TimerFires();
    scheduled := [s1, s2, s3, s4];
    states := [t1, t2, t3, t4, n.State()];
  }
}
