/**
 * The Pomodoro countdown. Its state is the published fields (`timeRemaining`, `isRunning`,
 * `sessionDuration`), the three values kept in app storage (`timerDuration`, the end time
 * and the backed-up session duration) and whether a repeating timer is scheduled. Times are
 * whole seconds; `now` is the clock reading an operation takes.
 */
module Timer {
  import opened Wrappers

  const DefaultDuration: int := 1500

  datatype TimerState = TimerState(
    timeRemaining: int,
    isRunning: bool,
    sessionDuration: Option<int>,
    timerDuration: int,
    endTimestamp: int,
    storedSessionDuration: int,
    scheduled: bool)

  /** The countdown a fresh timer shows: the stored duration if positive, else 25 minutes. */
  function InitialRemaining(stored: int): (r: int)
    ensures r > 0
    ensures stored > 0 ==> r == stored
    ensures stored <= 0 ==> r == DefaultDuration
  {
    if stored > 0 then stored else DefaultDuration
  }

  /**
   * The state of a timer created with what app storage holds: `storedDuration` is the saved
   * duration if any (read as 0 by `integer(forKey:)` and as 1500 by the storage property when
   * missing), `storedEnd` and `storedSession` the persisted end time and session duration.
   */
  function Launched(storedDuration: Option<int>, storedEnd: int, storedSession: int): TimerState {
    TimerState(InitialRemaining(storedDuration.GetOr(0)), false, None, storedDuration.GetOr(DefaultDuration),
               storedEnd, storedSession, false)
  }

  /** `persistIfNeeded`: a running countdown records when it will end. */
  function AfterPersist(s: TimerState, now: int): (r: TimerState)
    ensures !s.isRunning ==> r == s
    ensures s.isRunning ==> r.endTimestamp == now + s.timeRemaining && r.endTimestamp - now == r.timeRemaining
    ensures r.timeRemaining == s.timeRemaining && r.isRunning == s.isRunning && r.sessionDuration == s.sessionDuration
  {
    if !s.isRunning then s
    else s.(endTimestamp := now + s.timeRemaining, storedSessionDuration := s.sessionDuration.GetOr(s.timerDuration))
  }

  /** `scheduleTimer`: the countdown runs and persists. */
  function AfterSchedule(s: TimerState, now: int): TimerState {
    AfterPersist(s.(isRunning := true, scheduled := true), now)
  }

  /** `startNewSession`: the current countdown becomes the session's length, unless one is under way. */
  function AfterStart(s: TimerState, now: int): TimerState {
    var d := if s.sessionDuration.None? then Some(s.timeRemaining) else s.sessionDuration;
    AfterSchedule(s.(sessionDuration := d, storedSessionDuration := d.value), now)
  }

  /** `pause`: stops the timer; the persist that follows finds it stopped and records nothing. */
  function AfterPause(s: TimerState, now: int): TimerState {
    AfterPersist(s.(scheduled := false, isRunning := false), now)
  }

  /** `reset`: back to the configured duration, with nothing persisted. */
  function AfterReset(s: TimerState): TimerState {
    s.(scheduled := false, isRunning := false, timeRemaining := s.timerDuration, sessionDuration := None,
       storedSessionDuration := 0, endTimestamp := 0)
  }

  /** `finish`: what happens when the countdown runs out. */
  function AfterFinish(s: TimerState): TimerState {
    s.(scheduled := false, isRunning := false, timeRemaining := s.timerDuration, sessionDuration := None,
       storedSessionDuration := 0, endTimestamp := 0)
  }

  /** The body of the one-second repeating timer. */
  function AfterTick(s: TimerState): TimerState {
    if s.timeRemaining > 0 then s.(timeRemaining := s.timeRemaining - 1) else AfterFinish(s)
  }

  function AfterClear(s: TimerState): TimerState {
    s.(endTimestamp := 0, storedSessionDuration := 0)
  }

  /** `restoreFromPersistenceIfNeeded`. */
  function AfterRestore(s: TimerState, now: int): TimerState {
    if s.endTimestamp <= 0 then s
    else if s.endTimestamp - now <= 0 then
      AfterClear(s.(isRunning := false, timeRemaining := s.timerDuration, sessionDuration := None))
    else
      var d := if s.sessionDuration.Some? then s.sessionDuration
               else if s.storedSessionDuration > 0 then Some(s.storedSessionDuration)
               else Some(s.timerDuration);
      var t := s.(timeRemaining := s.endTimestamp - now, sessionDuration := d);
      if t.scheduled then t else AfterSchedule(t, now)
  }

  /** `n` ticks in a row. */
  function Ticks(s: TimerState, n: nat): TimerState
    decreases n
  {
    if n == 0 then s else AfterTick(Ticks(s, n - 1))
  }

  // ---------------------------------------------------------------------------
  // Properties

  /** Starting runs the timer, and fixes the session length only when none was set. */
  lemma StartRuns(s: TimerState, now: int)
    ensures var r := AfterStart(s, now);
      r.isRunning && r.scheduled && r.timeRemaining == s.timeRemaining
      && (s.sessionDuration.None? ==> r.sessionDuration == Some(s.timeRemaining))
      && (s.sessionDuration.Some? ==> r.sessionDuration == s.sessionDuration)
      && Some(r.storedSessionDuration) == r.sessionDuration && r.endTimestamp == now + s.timeRemaining
  {
  }

  /** Pausing stops the timer and keeps the countdown and whatever end time was persisted. */
  lemma PauseKeepsCountdown(s: TimerState, now: int)
    ensures var r := AfterPause(s, now);
      !r.isRunning && !r.scheduled && r.timeRemaining == s.timeRemaining
      && r.endTimestamp == s.endTimestamp && r.sessionDuration == s.sessionDuration
  {
  }

  /** Running out leaves the timer exactly as a reset does. */
  lemma FinishIsReset(s: TimerState)
    ensures AfterFinish(s) == AfterReset(s)
    ensures !AfterReset(s).isRunning && AfterReset(s).timeRemaining == s.timerDuration && AfterReset(s).sessionDuration.None?
    ensures AfterReset(s).storedSessionDuration == 0 && AfterReset(s).endTimestamp == 0
  {
  }

  /** One tick takes a second off a positive countdown; at zero it finishes. */
  lemma TickStep(s: TimerState)
    ensures s.timeRemaining > 0 ==> AfterTick(s) == s.(timeRemaining := s.timeRemaining - 1)
    ensures s.timeRemaining <= 0 ==> AfterTick(s) == AfterReset(s)
    ensures s.timeRemaining >= 0 && s.timerDuration >= 0 ==> AfterTick(s).timeRemaining >= 0
  {
  }

  /** Ticking never leaves a negative countdown, as long as the configured duration is not negative. */
  lemma {:induction false} TicksNeverNegative(s: TimerState, n: nat)
    requires s.timeRemaining >= 0 && s.timerDuration >= 0
    ensures Ticks(s, n).timeRemaining >= 0 && Ticks(s, n).timerDuration == s.timerDuration
  {
    if n > 0 {
      TicksNeverNegative(s, n - 1);
    }
  }

  /** `n` ticks of a countdown of at least `n` seconds take off exactly `n` seconds and change nothing else. */
  lemma {:induction false} TicksCountDown(s: TimerState, n: nat)
    requires n <= s.timeRemaining
    ensures Ticks(s, n) == s.(timeRemaining := s.timeRemaining - n)
  {
    if n > 0 {
      TicksCountDown(s, n - 1);
    }
  }

  /** A countdown of `t` seconds reaches zero after `t` ticks, and the next tick finishes the session. */
  lemma CountdownFinishes(s: TimerState)
    requires s.timeRemaining >= 0
    ensures Ticks(s, s.timeRemaining).timeRemaining == 0
    ensures Ticks(s, s.timeRemaining + 1) == AfterReset(s)
  {
    TicksCountDown(s, s.timeRemaining);
  }

  /**
   * Restoring has three outcomes: nothing persisted leaves the timer alone; an end already
   * passed stops it with the configured duration and nothing persisted; otherwise the countdown
   * becomes the time left to the end, a session length is set, and the timer runs.
   */
  lemma RestoreCases(s: TimerState, now: int)
    ensures s.endTimestamp <= 0 ==> AfterRestore(s, now) == s
    ensures var r := AfterRestore(s, now);
      (s.endTimestamp > 0 && s.endTimestamp <= now) ==>
        (!r.isRunning && r.timeRemaining == s.timerDuration && r.sessionDuration.None?
         && r.endTimestamp == 0 && r.storedSessionDuration == 0 && r.scheduled == s.scheduled)
    ensures var r := AfterRestore(s, now);
      (s.endTimestamp > 0 && s.endTimestamp > now) ==>
        (r.timeRemaining == s.endTimestamp - now > 0 && r.sessionDuration.Some? && r.scheduled
         && (s.sessionDuration.Some? ==> r.sessionDuration == s.sessionDuration)
         && (s.sessionDuration.None? && s.storedSessionDuration > 0 ==> r.sessionDuration == Some(s.storedSessionDuration))
         && (s.sessionDuration.None? && s.storedSessionDuration <= 0 ==> r.sessionDuration == Some(s.timerDuration))
         && (!s.scheduled ==> r.isRunning && r.endTimestamp == s.endTimestamp))
  {
  }

  /**
   * A running countdown persisted at `now` and restored `d` seconds later by a timer created
   * afresh from app storage resumes with `d` seconds fewer and the same session length.
   */
  lemma RelaunchResumes(s: TimerState, now: int, d: int)
    requires s.isRunning && now >= 0 && 0 <= d < s.timeRemaining
    requires s.sessionDuration.GetOr(s.timerDuration) > 0
    ensures var p := AfterPersist(s, now);
      var r := AfterRestore(Launched(Some(p.timerDuration), p.endTimestamp, p.storedSessionDuration), now + d);
      r.isRunning && r.scheduled && r.timeRemaining == s.timeRemaining - d
      && r.sessionDuration == Some(s.sessionDuration.GetOr(s.timerDuration))
      && r.endTimestamp == p.endTimestamp && r.timerDuration == s.timerDuration
  {
  }

  /** A countdown persisted at `now` and restored after its end finds the configured duration, stopped. */
  lemma RelaunchAfterEnd(s: TimerState, now: int, d: int)
    requires s.isRunning && now >= 0 && s.timeRemaining > 0 && d >= s.timeRemaining
    ensures var p := AfterPersist(s, now);
      var r := AfterRestore(Launched(Some(p.timerDuration), p.endTimestamp, p.storedSessionDuration), now + d);
      !r.isRunning && r.timeRemaining == s.timerDuration && r.sessionDuration.None? && r.endTimestamp == 0
  {
  }

  // ---------------------------------------------------------------------------
  // The object

  class PomodoroTimer {
    var timeRemaining: int
    var isRunning: bool
    var sessionDuration: Option<int>
    var timerDuration: int
    var timerEndDateTimestamp: int
    var storedSessionDuration: int
    /** Whether a repeating timer is scheduled (`timer != nil`). */
    var scheduled: bool

    function State(): TimerState
      reads this
    {
      TimerState(timeRemaining, isRunning, sessionDuration, timerDuration, timerEndDateTimestamp,
                 storedSessionDuration, scheduled)
    }

    constructor(storedDuration: Option<int>, storedEnd: int, storedSession: int)
      ensures State() == Launched(storedDuration, storedEnd, storedSession)
    {
      timeRemaining := InitialRemaining(storedDuration.GetOr(0));
      isRunning := false;
      sessionDuration := None;
      timerDuration := storedDuration.GetOr(DefaultDuration);
      timerEndDateTimestamp := storedEnd;
      storedSessionDuration := storedSession;
      scheduled := false;
    }

    method StartNewSession(now: int)
      modifies this
      ensures State() == AfterStart(old(State()), now)
    {
      if sessionDuration.None? {
        sessionDuration := Some(timeRemaining);
      }
      storedSessionDuration := sessionDuration.GetOr(timerDuration);
      ScheduleTimer(now);
    }

    method ResumeIfNeeded(now: int)
      modifies this
      ensures State() == AfterRestore(old(State()), now)
    {
      RestoreFromPersistenceIfNeeded(now);
    }

    /** `now` is the clock reading the final persist would take; it finds the timer stopped. */
    method Pause(now: int)
      modifies this
      ensures State() == AfterPause(old(State()), now)
    {
      scheduled := false;
      isRunning := false;
      PersistIfNeeded(now);
    }

    method Reset()
      modifies this
      ensures State() == AfterReset(old(State()))
    {
      scheduled := false;
      isRunning := false;
      timeRemaining := timerDuration;
      sessionDuration := None;
      storedSessionDuration := 0;
      timerEndDateTimestamp := 0;
    }

    method PersistIfNeeded(now: int)
      modifies this
      ensures State() == AfterPersist(old(State()), now)
    {
      if !isRunning {
        return;
      }
      timerEndDateTimestamp := now + timeRemaining;
      storedSessionDuration := sessionDuration.GetOr(timerDuration);
    }

    method RestoreFromPersistenceIfNeeded(now: int)
      modifies this
      ensures State() == AfterRestore(old(State()), now)
    {
      if timerEndDateTimestamp <= 0 {
        return;
      }
      var remaining := timerEndDateTimestamp - now;
      if remaining <= 0 {
        isRunning := false;
        timeRemaining := timerDuration;
        sessionDuration := None;
        ClearPersistence();
        return;
      }
      timeRemaining := remaining;
      if sessionDuration.None? {
        if storedSessionDuration > 0 {
          sessionDuration := Some(storedSessionDuration);
        } else {
          sessionDuration := Some(timerDuration);
        }
      }
      if !scheduled {
        ScheduleTimer(now);
      }
    }

    method ScheduleTimer(now: int)
      modifies this
      ensures State() == AfterSchedule(old(State()), now)
    {
      isRunning := true;
      scheduled := true;
      PersistIfNeeded(now);
    }

    /** One firing of the repeating timer. */
    method Tick()
      modifies this
      ensures State() == AfterTick(old(State()))
    {
      if timeRemaining > 0 {
        timeRemaining := timeRemaining - 1;
      } else {
        Finish();
      }
    }

    method Finish()
      modifies this
      ensures State() == AfterFinish(old(State()))
    {
      scheduled := false;
      isRunning := false;
      timeRemaining := timerDuration;
      sessionDuration := None;
      storedSessionDuration := 0;
      timerEndDateTimestamp := 0;
    }

    method ClearPersistence()
      modifies this
      ensures State() == AfterClear(old(State()))
    {
      timerEndDateTimestamp := 0;
      storedSessionDuration := 0;
    }
  }
}
