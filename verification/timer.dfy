/** The browser's live timer: `startTimer`, the one-second tick, `stopTimer`
    with its save offer, `resetTimer`, and the entry `saveTimerEntry` posts.
    The clock (`Date.now()`) is a parameter in milliseconds. */
module Timer {
  import opened Wrappers
  import Store
  import TimeEntries

  /** `isTimerRunning`, `timerSeconds` and `timerStartTime`. */
  datatype Timer = Timer(running: bool, seconds: nat, startedAt: int)

  const Initial := Timer(false, 0, 0)

  /** `startTimer()`: a no-op while running; otherwise back-dates the start
      so that the seconds already counted carry on. */
  function Start(t: Timer, now: int): (r: Timer)
    ensures t.running ==> r == t
    ensures r.running && r.seconds == t.seconds
    ensures !t.running ==> r.startedAt + 1000 * r.seconds == now
  {
    if t.running then t else Timer(true, t.seconds, now - t.seconds * 1000)
  }

  /** The interval callback: `Math.floor((Date.now() - timerStartTime) / 1000)`.
      The clock is assumed not to run behind the recorded start. */
  function Tick(t: Timer, now: int): (r: Timer)
    requires t.running ==> t.startedAt <= now
    ensures !t.running ==> r == t
    ensures t.running ==> r.running && r.startedAt == t.startedAt
    ensures t.running ==> 1000 * r.seconds <= now - t.startedAt < 1000 * r.seconds + 1000
  {
    if t.running then t.(seconds := (now - t.startedAt) / 1000) else t
  }

  /** Resuming at `now` and ticking `elapsed` milliseconds later adds the
      whole seconds elapsed to the count. */
  lemma ResumeAddsElapsed(t: Timer, now: int, elapsed: nat)
    requires !t.running
    ensures Tick(Start(t, now), now + elapsed).seconds == t.seconds + elapsed / 1000
  {
    var s := Start(t, now);
    assert now + elapsed - s.startedAt == elapsed + 1000 * t.seconds;
    assert (elapsed + 1000 * t.seconds) / 1000 == elapsed / 1000 + t.seconds by {
      assert elapsed == 1000 * (elapsed / 1000) + elapsed % 1000;
      assert elapsed + 1000 * t.seconds == 1000 * (elapsed / 1000 + t.seconds) + elapsed % 1000;
    }
  }

  /** The state after `stopTimer()`, the minutes the save dialog offers if
      it is shown, and whether the "create customers first" error is shown
      instead of the dialog. */
  datatype Stopped = Stopped(timer: Timer, saveMinutes: Option<nat>, noCustomersError: bool)

  /** `stopTimer()`: a no-op when not running; otherwise stops and, when
      more than 60 seconds were counted, calls `showTimerSaveModal`, which
      offers `Math.floor(timerSeconds / 60)` minutes when customers are
      loaded and otherwise only shows an error. */
  function Stop(t: Timer, customersLoaded: bool): (r: Stopped)
    ensures !t.running ==> r.timer == t && r.saveMinutes.None? && !r.noCustomersError
    ensures !r.timer.running && r.timer.seconds == t.seconds
    ensures r.saveMinutes.Some? <==> t.running && t.seconds > 60 && customersLoaded
    ensures r.noCustomersError <==> t.running && t.seconds > 60 && !customersLoaded
    ensures r.saveMinutes.Some? ==>
      r.saveMinutes.value >= 1 && 60 * r.saveMinutes.value <= t.seconds < 60 * r.saveMinutes.value + 60
  {
    if !t.running then Stopped(t, None, false)
    else if t.seconds > 60 then
      if customersLoaded then Stopped(t.(running := false), Some(t.seconds / 60), false)
      else Stopped(t.(running := false), None, true)
    else Stopped(t.(running := false), None, false)
  }

  /** `resetTimer()`: stops (which may offer the save dialog), then zeroes. */
  function Reset(t: Timer, customersLoaded: bool): (r: Stopped)
    ensures !r.timer.running && r.timer.seconds == 0
    ensures r.saveMinutes == Stop(t, customersLoaded).saveMinutes
    ensures r.noCustomersError == Stop(t, customersLoaded).noCustomersError
  {
    var s := Stop(t, customersLoaded);
    s.(timer := s.timer.(seconds := 0))
  }

  /** Starting twice is starting once; stopping twice offers the dialog (or
      the error) at most once. */
  lemma StartStopIdempotent(t: Timer, now1: int, now2: int, customersLoaded: bool)
    ensures Start(Start(t, now1), now2) == Start(t, now1)
    ensures Stop(Stop(t, customersLoaded).timer, customersLoaded) == Stopped(Stop(t, customersLoaded).timer, None, false)
  {
  }

  /** The request `saveTimerEntry(durationMinutes)` posts at clock `now`, if
      any: nothing without a chosen customer or a description; otherwise the
      start back-dated by the duration, end now, the duration itself, the
      chosen project (`None` for "Kein Projekt"), the hourly rate of the
      chosen customer among the loaded ones `loaded` (0 when it is not among
      them) and no notes. */
  function TimerEntry(now: int, minutes: nat, customer: Option<nat>, project: Option<nat>, description: string,
                      loaded: map<nat, Store.Customer>, billable: bool): (req: Option<TimeEntries.TimeEntryRequest>)
    ensures req.Some? <==> customer.Some? && description != ""
    ensures req.Some? ==> req.value.customerId == customer && req.value.projectId == project
    ensures req.Some? ==> req.value.description == Some(description) && req.value.notes.None?
    ensures req.Some? && customer.value in loaded ==> req.value.hourlyRate == Some(loaded[customer.value].hourlyRate)
    ensures req.Some? && customer.value !in loaded ==> req.value.hourlyRate == Some(0.0)
    ensures req.Some? ==> req.value.durationMinutes == Some(minutes)
    ensures req.Some? ==> req.value.endTime == Some(now) && req.value.startTime == Some(now - 60000 * minutes)
    ensures req.Some? ==> req.value.isBillable == Some(if billable then 1 else 0)
  {
    if customer.None? || description == "" then None
    else
      var rate := if customer.value in loaded then loaded[customer.value].hourlyRate else 0.0;
      Some(TimeEntries.TimeEntryRequest(
        customer, project, Some(description),
        Some(now - minutes * 60000), Some(now),
        Some(minutes), Some(rate), Some(if billable then 1 else 0), None))
  }

  /** The server's recomputation from start and end gives back exactly the
      minutes the dialog offered, so saving a timer never changes its
      duration. */
  lemma TimerDurationRoundTrip(now: int, minutes: nat, customer: Option<nat>, project: Option<nat>, description: string,
                               loaded: map<nat, Store.Customer>, billable: bool)
    ensures var req := TimerEntry(now, minutes, customer, project, description, loaded, billable);
      req.Some? ==> TimeEntries.SubmittedDuration(req.value) == Some(minutes)
  {
    var r := TimerEntry(now, minutes, customer, project, description, loaded, billable);
    if r.Some? {
      var req := r.value;
      var d := TimeEntries.SubmittedDuration(req).value;
      assert req.endTime.value - req.startTime.value == 60000 * minutes;
      assert 120000 * d - 60000 <= 120000 * minutes < 120000 * d + 60000;
    }
  }
}
