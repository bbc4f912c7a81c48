/**
 * The browser-side time-tracker widget: its `HH:MM:SS` formatter and the state its start, stop
 * and timer handlers keep.  The server replies and timer handles come in as parameters.
 */
module Tracker {
  import opened Common
  import opened Strings
  import opened Schema

  /** A number written with at least two digits, zero-padded on the left. */
  function TwoDigits(n: nat): string {
    PadStart(NatToString(n), 2, '0')
  }

  /** `formatTime(ms)`: whole hours, then minutes and seconds of the hour, separated by ':'. */
  function FormatTime(ms: nat): string {
    TwoDigits(ms / 3600000) + ":" + TwoDigits((ms / 60000) % 60) + ":" + TwoDigits((ms / 1000) % 60)
  }

  /** Zero-padding keeps a number's digits and value; below 100 the result is exactly two digits. */
  lemma TwoDigitsValue(n: nat)
    ensures AllDigits(TwoDigits(n)) && DigitsValue(TwoDigits(n)) == n
    ensures |TwoDigits(n)| == if n < 100 then 2 else |NatToString(n)|
    ensures n >= 100 ==> |TwoDigits(n)| >= 3
  {
    NatToStringRoundTrip(n);
    NatToStringLength(n);
    if n < 10 {
      DigitsValueLeadingZero(NatToString(n));
      assert TwoDigits(n) == "0" + NatToString(n);
    }
  }

  lemma SplitThree(a: string, b: string, c: string)
    requires ':' !in a && ':' !in b && ':' !in c
    ensures Split(a + ":" + b + ":" + c, ':') == [a, b, c]
  {
    assert Join([b, c], ':') == b + [':'] + c;
    assert [a, b, c][1..] == [b, c];
    assert Join([a, b, c], ':') == a + ":" + b + ":" + c;
    assert forall i :: 0 <= i < 3 ==> ':' !in [a, b, c][i];
    SplitJoin([a, b, c], ':');
  }

  lemma ClockArithmetic(ms: nat)
    ensures (ms / 3600000) * 3600 + ((ms / 60000) % 60) * 60 + (ms / 1000) % 60 == ms / 1000
  {
    var t := ms / 1000;
    assert ms / 60000 == t / 60;
    assert ms / 3600000 == (t / 60) / 60;
  }

  /**
   * The formatted time has three ':'-separated fields: the hour count, never truncated and at
   * least two digits; minutes and seconds, exactly two digits each and below 60; reading the
   * fields back gives the whole seconds of `ms`.
   */
  lemma FormatTimeFields(ms: nat)
    ensures var parts := Split(FormatTime(ms), ':');
      && |parts| == 3
      && AllDigits(parts[0]) && AllDigits(parts[1]) && AllDigits(parts[2])
      && DigitsValue(parts[0]) == ms / 3600000
      && |parts[0]| >= 2 && |parts[0]| >= |NatToString(ms / 3600000)|
      && |parts[1]| == 2 && DigitsValue(parts[1]) == (ms / 60000) % 60 && DigitsValue(parts[1]) < 60
      && |parts[2]| == 2 && DigitsValue(parts[2]) == (ms / 1000) % 60 && DigitsValue(parts[2]) < 60
      && DigitsValue(parts[0]) * 3600 + DigitsValue(parts[1]) * 60 + DigitsValue(parts[2]) == ms / 1000
  {
    var h, m, s := TwoDigits(ms / 3600000), TwoDigits((ms / 60000) % 60), TwoDigits((ms / 1000) % 60);
    TwoDigitsValue(ms / 3600000);
    TwoDigitsValue((ms / 60000) % 60);
    TwoDigitsValue((ms / 1000) % 60);
    assert ':' !in h && ':' !in m && ':' !in s;
    SplitThree(h, m, s);
    ClockArithmetic(ms);
  }

  /** The reply to the start request or to the active-entry query: ok with the entry's start, not ok, or a thrown error. */
  datatype EntryReply = EntryOk(startTime: Time) | EntryNotOk | EntryThrew

  /** The reply to the stop request. */
  datatype StopReply = StopOk | StopNotOk | StopThrew

  /** The widget's fields, plus the timers still running (`setInterval` calls not yet cleared). */
  datatype Widget = Widget(isTracking: bool, isLoading: bool, startTime: Option<Time>, elapsedTime: int,
                           timerInterval: Option<nat>, message: string, runningTimers: set<nat>)

  const Initial := Widget(false, false, None, 0, None, "", {})

  /** `startTimer`: tracking, with a new one-second timer `handle`. */
  function StartTimerStep(w: Widget, handle: nat): Widget {
    w.(isTracking := true, timerInterval := Some(handle), runningTimers := w.runningTimers + {handle})
  }

  /** One timer tick at `now`: the elapsed time since the start (a tick without a start throws and changes nothing). */
  function TickStep(w: Widget, now: Time): Widget {
    if w.startTime.None? then w else w.(elapsedTime := now - w.startTime.value)
  }

  /** `checkActiveTimeEntry`: an active entry resumes the timer from its start; anything else changes nothing. */
  function CheckActiveStep(w: Widget, reply: EntryReply, handle: nat): Widget {
    if reply.EntryOk? then StartTimerStep(w.(startTime := Some(reply.startTime)), handle) else w
  }

  /** `startTracking`, once its request has been answered. */
  function StartTrackingStep(w: Widget, reply: EntryReply, handle: nat): Widget {
    if reply.EntryOk? then
      StartTimerStep(w.(startTime := Some(reply.startTime)), handle).(message := "Time tracking started!", isLoading := false)
    else w.(message := "Error starting time tracking", isLoading := false)
  }

  /** `stopTracking`, once its request has been answered. */
  function StopTrackingStep(w: Widget, reply: StopReply): Widget {
    if reply.StopOk? then
      w.(runningTimers := if w.timerInterval.Some? then w.runningTimers - {w.timerInterval.value} else w.runningTimers,
         isTracking := false, message := "Time tracking stopped!", isLoading := false)
    else w.(message := "Error stopping time tracking", isLoading := false)
  }

  /**
   * Both handlers end not loading; a successful start is tracking from the entry's start with
   * its timer running; a failed one changes only the message and the loading flag.
   */
  lemma StartTrackingOutcome(w: Widget, reply: EntryReply, handle: nat)
    ensures var w' := StartTrackingStep(w, reply, handle);
      && !w'.isLoading
      && (reply.EntryOk? ==>
            && w'.isTracking && w'.startTime == Some(reply.startTime) && w'.timerInterval == Some(handle)
            && handle in w'.runningTimers && w'.message == "Time tracking started!")
      && (!reply.EntryOk? ==> w' == w.(message := "Error starting time tracking", isLoading := false))
  {
  }

  /**
   * A successful stop ends tracking and clears the current timer; a failed one changes only the
   * message and the loading flag.
   */
  lemma StopTrackingOutcome(w: Widget, reply: StopReply)
    ensures var w' := StopTrackingStep(w, reply);
      && !w'.isLoading
      && (reply.StopOk? ==>
            && !w'.isTracking && w'.message == "Time tracking stopped!"
            && (w.timerInterval.Some? ==> w.timerInterval.value !in w'.runningTimers)
            && w'.runningTimers <= w.runningTimers)
      && (!reply.StopOk? ==> w' == w.(message := "Error stopping time tracking", isLoading := false))
  {
  }

  /**
   * Starting twice before a stop leaves the first timer running after the stop: the handler
   * overwrites the timer handle without clearing the timer it held.
   */
  lemma RestartLeaksTimer(w: Widget, t1: Time, t2: Time, h1: nat, h2: nat)
    requires h1 != h2
    ensures var w' := StopTrackingStep(StartTrackingStep(StartTrackingStep(w, EntryOk(t1), h1), EntryOk(t2), h2), StopOk);
      && !w'.isTracking && h1 in w'.runningTimers && h2 !in w'.runningTimers
  {
  }

  /** Start then stop from the initial widget leaves it idle with no timer running, the last elapsed time kept. */
  lemma StartStopIdle(t: Time, h: nat, now: Time)
    ensures var w := StopTrackingStep(TickStep(StartTrackingStep(Initial, EntryOk(t), h), now), StopOk);
      && !w.isTracking && !w.isLoading && w.runningTimers == {} && w.elapsedTime == now - t
  {
  }

  /** The widget object; its handlers update the fields in place. */
  class TimeTracker {
    var isTracking: bool
    var isLoading: bool
    var startTime: Option<Time>
    var elapsedTime: int
    var timerInterval: Option<nat>
    var message: string
    ghost var runningTimers: set<nat>

    ghost function State(): Widget
      reads this
    {
      Widget(isTracking, isLoading, startTime, elapsedTime, timerInterval, message, runningTimers)
    }

    constructor ()
      ensures State() == Initial
    {
      isTracking, isLoading, startTime, elapsedTime, timerInterval, message := false, false, None, 0, None, "";
      runningTimers := {};
    }

    method StartTimer(handle: nat)
      modifies this
      ensures State() == StartTimerStep(old(State()), handle)
    {
      isTracking := true;
      timerInterval := Some(handle);
      runningTimers := runningTimers + {handle};
    }

    /** The interval callback. */
    method Tick(now: Time)
      modifies this
      ensures State() == TickStep(old(State()), now)
    {
      if startTime.Some? {
        elapsedTime := now - startTime.value;
      }
    }

    method CheckActiveTimeEntry(reply: EntryReply, handle: nat)
      modifies this
      ensures State() == CheckActiveStep(old(State()), reply, handle)
    {
      if reply.EntryOk? {
        startTime := Some(reply.startTime);
        StartTimer(handle);
      }
    }

    method StartTracking(reply: EntryReply, handle: nat)
      modifies this
      ensures State() == StartTrackingStep(old(State()), reply, handle)
    {
      isLoading := true;
      message := "Starting time tracking...";
      if reply.EntryOk? {
        startTime := Some(reply.startTime);
        StartTimer(handle);
        message := "Time tracking started!";
      } else {
        message := "Error starting time tracking";
      }
      isLoading := false;
    }

    method StopTracking(reply: StopReply)
      modifies this
      ensures State() == StopTrackingStep(old(State()), reply)
    {
      isLoading := true;
      message := "Stopping time tracking...";
      if reply.StopOk? {
        if timerInterval.Some? {
          runningTimers := runningTimers - {timerInterval.value};
        }
        isTracking := false;
        message := "Time tracking stopped!";
      } else {
        message := "Error stopping time tracking";
      }
      isLoading := false;
    }
  }
}
