/**
 * The update-check scheduler of Beeftext (Beeftext/Update/UpdateManager.cpp).
 *
 * The manager owns one single-shot timer and reads and writes one persisted
 * preference, the time of the last update check. A check disarms the timer and
 * hands the network query to a worker; the worker reports one outcome and then
 * finishes, and the finish records "now" as the last check and re-arms the timer
 * for a full day.
 *
 * The first half of the module gives every operation as a pure transition on a
 * State record, with the properties of those transitions; the class
 * UpdateManager at the end holds the same state in fields and each of its
 * methods is proved to perform the corresponding transition.
 */
module Update {
  import opened Wrappers

  /** Delay before the first check when none was ever recorded, and the shortest delay ever used. */
  const LAUNCH_CHECK_DELAY_MS: int := 1000
  /** The interval between two automatic checks: 24 hours. */
  const UPDATE_CHECK_INTERVAL_MS: int := 1000 * 60 * 60 * 24

  /** Time stamps and delays are integer milliseconds. */
  type Millis = int

  /** The single-shot timer: stopped, or started with the given interval. */
  datatype Timer = Stopped | Running(intervalMs: Millis)

  /** The part of the latest-version record the manager passes on. */
  datatype VersionInfo = VersionInfo(versionMajor: int, versionMinor: int)

  /** The signals the manager emits, in the order it emits them. */
  datatype Event =
    | StartedUpdateCheck
    | FinishedUpdateCheck
    | UpdateIsAvailable(info: VersionInfo)
    | NoUpdateIsAvailable
    | UpdateCheckFailed

  /** The two internal errors the manager throws. */
  datatype Failure =
    | InternalError     // a finish notification whose sender is not a worker
    | NullVersionInfo   // an "update available" notification with a null version record

  /** An opaque token standing for one worker and its thread. */
  type WorkerId = nat

  /** The object that delivered a notification. */
  datatype Sender = FromWorker(worker: WorkerId) | FromOther

  /** What a worker reports before it finishes; the version record may be null. */
  datatype WorkerOutcome =
    | Available(info: Option<VersionInfo>)
    | NotAvailable
    | Errored(message: string)

  /**
   * The observable state: the timer, the persisted last-check time, the signals
   * emitted so far, the workers started and not yet finished, and the next fresh
   * worker token.
   */
  datatype State = State(
    timer: Timer,
    lastCheck: Option<Millis>,
    events: seq<Event>,
    workers: set<WorkerId>,
    nextWorker: WorkerId)

  /** Every live worker token was handed out before the next fresh one. */
  predicate WellFormed(s: State) {
    forall w :: w in s.workers ==> w < s.nextWorker
  }

  function Max(a: int, b: int): int {
    if a < b then b else a
  }

  /** The milliseconds from `from` to `to` (negative when `to` is earlier). */
  function MsecsTo(from: Millis, to: Millis): Millis {
    to - from
  }

  /**
   * The delay with which enabling auto-check arms the timer: the launch delay when
   * no check was recorded, otherwise the time left until a full interval after the
   * last check, but never less than the launch delay.
   */
  function NextCheckDelay(lastCheck: Option<Millis>, now: Millis): (d: Millis)
    ensures d >= LAUNCH_CHECK_DELAY_MS
    ensures lastCheck.None? ==> d == LAUNCH_CHECK_DELAY_MS
    // never earlier than a full interval after the last check ...
    ensures lastCheck.Some? ==> now + d >= lastCheck.value + UPDATE_CHECK_INTERVAL_MS
    // ... and no later than that or the launch delay, whichever comes last
    ensures lastCheck.Some? ==>
      d == LAUNCH_CHECK_DELAY_MS || now + d == lastCheck.value + UPDATE_CHECK_INTERVAL_MS
  {
    match lastCheck
    case None => LAUNCH_CHECK_DELAY_MS
    case Some(last) => Max(LAUNCH_CHECK_DELAY_MS, MsecsTo(now, last + UPDATE_CHECK_INTERVAL_MS))
  }

  /** The launch delay is used exactly when no check was recorded or the next one is overdue. */
  lemma LaunchDelayExactlyWhenDue(lastCheck: Option<Millis>, now: Millis)
    ensures NextCheckDelay(lastCheck, now) == LAUNCH_CHECK_DELAY_MS <==>
      (lastCheck.None? ||
       now >= lastCheck.value + UPDATE_CHECK_INTERVAL_MS - LAUNCH_CHECK_DELAY_MS)
  {
  }

  /** When the last check is not in the future, the wait never exceeds one interval. */
  lemma DelayAtMostOneInterval(last: Millis, now: Millis)
    requires last <= now
    ensures NextCheckDelay(Some(last), now) <= UPDATE_CHECK_INTERVAL_MS
  {
  }

  /** `t` differs from `s` at most in its timer. */
  predicate SameExceptTimer(s: State, t: State) {
    t.lastCheck == s.lastCheck && t.events == s.events &&
    t.workers == s.workers && t.nextWorker == s.nextWorker
  }

  /** `t` differs from `s` at most in its events. */
  predicate SameExceptEvents(s: State, t: State) {
    t.timer == s.timer && t.lastCheck == s.lastCheck &&
    t.workers == s.workers && t.nextWorker == s.nextWorker
  }

  /** The state a freshly built manager is in before it reads the auto-check preference. */
  function Initial(lastCheck: Option<Millis>): (s: State)
    ensures s.timer == Stopped && s.events == [] && s.workers == {}
    ensures WellFormed(s)
  {
    State(Stopped, lastCheck, [], {}, 0)
  }

  /** onAutoCheckForUpdateChanged: stop the timer, then re-arm it if auto-check is enabled. */
  function Rescheduled(s: State, enabled: bool, now: Millis): (t: State)
    ensures SameExceptTimer(s, t)
    ensures t.timer.Running? <==> enabled
    ensures enabled ==> t.timer.intervalMs == NextCheckDelay(s.lastCheck, now)
  {
    var stopped := s.(timer := Stopped);
    if !enabled then stopped
    else stopped.(timer := Running(NextCheckDelay(s.lastCheck, now)))
  }

  /** Disabling auto-check disarms the timer and changes nothing else. */
  lemma DisablingOnlyStopsTimer(s: State, now: Millis)
    ensures Rescheduled(s, false, now) == s.(timer := Stopped)
  {
  }

  /** Because the timer is stopped first, the old timer has no influence on the new one. */
  lemma RescheduledForgetsTimer(s: State, previous: Timer, enabled: bool, now: Millis)
    ensures Rescheduled(s.(timer := previous), enabled, now) == Rescheduled(s, enabled, now)
  {
  }

  /** Delivering the same preference value twice at the same time is the same as delivering it once. */
  lemma RescheduledIdempotent(s: State, enabled: bool, now: Millis)
    ensures Rescheduled(Rescheduled(s, enabled, now), enabled, now) == Rescheduled(s, enabled, now)
  {
    RescheduledForgetsTimer(s, Rescheduled(s, enabled, now).timer, enabled, now);
  }

  /** startUpdateCheckWorker: announce the check and launch one more worker. */
  function WorkerStarted(s: State): (t: State)
    ensures t.timer == s.timer && t.lastCheck == s.lastCheck
    ensures t.events == s.events + [StartedUpdateCheck]
    ensures t.workers == s.workers + {s.nextWorker} && t.nextWorker == s.nextWorker + 1
    ensures WellFormed(s) ==> WellFormed(t) && s.nextWorker !in s.workers
  {
    State(s.timer, s.lastCheck, s.events + [StartedUpdateCheck],
          s.workers + {s.nextWorker}, s.nextWorker + 1)
  }

  /** checkForUpdate: stop the timer, then start a worker; there is no guard against a check in flight. */
  function UpdateCheckRequested(s: State): (t: State)
    ensures t.timer == Stopped && t.lastCheck == s.lastCheck
    ensures t.events == s.events + [StartedUpdateCheck]
    ensures t.workers == s.workers + {s.nextWorker}
  {
    WorkerStarted(s.(timer := Stopped))
  }

  /** Requesting a check while others are in flight adds one more worker. */
  lemma RequestAddsOneWorker(s: State)
    requires WellFormed(s)
    ensures WellFormed(UpdateCheckRequested(s))
    ensures |UpdateCheckRequested(s).workers| == |s.workers| + 1
  {
    assert s.nextWorker !in s.workers;
  }

  /** Is `sender` a worker the manager started and that has not finished yet? */
  predicate IsLiveWorker(s: State, sender: Sender) {
    sender.FromWorker? && sender.worker in s.workers
  }

  /**
   * onWorkerFinished: a finish from a live worker retires it, announces the end of
   * the check, records `now` and re-arms the timer for a full interval, whatever
   * the outcome was and whatever the timer was; any other sender is an internal error.
   */
  function CheckFinished(s: State, sender: Sender, now: Millis): (r: Result<State, Failure>)
    ensures r.Ok? <==> IsLiveWorker(s, sender)
    ensures r.Err? ==> r.error == InternalError
    ensures r.Ok? ==>
      r.value.timer == Running(UPDATE_CHECK_INTERVAL_MS) && r.value.lastCheck == Some(now) &&
      r.value.events == s.events + [FinishedUpdateCheck] &&
      r.value.workers == s.workers - {sender.worker} && r.value.nextWorker == s.nextWorker
  {
    if !IsLiveWorker(s, sender) then Err(InternalError)
    else
      Ok(State(Running(UPDATE_CHECK_INTERVAL_MS), Some(now), s.events + [FinishedUpdateCheck],
               s.workers - {sender.worker}, s.nextWorker))
  }

  /** What a finish does to the timer and the last check does not depend on the state before it. */
  lemma FinishIgnoresSchedule(s: State, timer: Timer, lastCheck: Option<Millis>, w: WorkerId, now: Millis)
    requires w in s.workers
    ensures CheckFinished(s, FromWorker(w), now) ==
            CheckFinished(s.(timer := timer, lastCheck := lastCheck), FromWorker(w), now)
  {
  }

  /** onWorkerUpdateIsAvailable: announce the version found; a null version record is an internal error. */
  function UpdateAvailableNotified(s: State, info: Option<VersionInfo>): (r: Result<State, Failure>)
    ensures r.Ok? <==> info.Some?
    ensures r.Err? ==> r.error == NullVersionInfo
    ensures r.Ok? ==>
      SameExceptEvents(s, r.value) && r.value.events == s.events + [UpdateIsAvailable(info.value)]
  {
    match info
    case None => Err(NullVersionInfo)
    case Some(v) => Ok(s.(events := s.events + [UpdateIsAvailable(v)]))
  }

  /** onWorkerNoUpdateIsAvailable: announce that no update exists. */
  function NoUpdateNotified(s: State): (t: State)
    ensures SameExceptEvents(s, t) && t.events == s.events + [NoUpdateIsAvailable]
  {
    s.(events := s.events + [NoUpdateIsAvailable])
  }

  /** onWorkerError: announce the failure; the message itself is dropped. */
  function ErrorNotified(s: State, message: string): (t: State)
    ensures SameExceptEvents(s, t) && t.events == s.events + [UpdateCheckFailed]
  {
    s.(events := s.events + [UpdateCheckFailed])
  }

  /** The error message has no effect on the state. */
  lemma ErrorMessageIgnored(s: State, m1: string, m2: string)
    ensures ErrorNotified(s, m1) == ErrorNotified(s, m2)
  {
  }

  /** The slot a worker's outcome is delivered to. */
  function OutcomeDelivered(s: State, o: WorkerOutcome): (r: Result<State, Failure>)
    ensures r.Err? <==> o == Available(None)
  {
    match o
    case Available(info) => UpdateAvailableNotified(s, info)
    case NotAvailable => Ok(NoUpdateNotified(s))
    case Errored(message) => Ok(ErrorNotified(s, message))
  }

  /** Is `e` one of the three outcome signals? */
  predicate IsOutcomeEvent(e: Event) {
    e.UpdateIsAvailable? || e.NoUpdateIsAvailable? || e.UpdateCheckFailed?
  }

  /**
   * Each outcome appends exactly one outcome signal and changes nothing else, and
   * outcomes of different kinds give different signals.
   */
  lemma OutcomesMapToDistinctSignals(s: State, o1: WorkerOutcome, o2: WorkerOutcome)
    requires OutcomeDelivered(s, o1).Ok? && OutcomeDelivered(s, o2).Ok?
    ensures var t1 := OutcomeDelivered(s, o1).value;
            SameExceptEvents(s, t1) && |t1.events| == |s.events| + 1 &&
            t1.events[..|s.events|] == s.events && IsOutcomeEvent(t1.events[|s.events|])
    ensures o1.Available? != o2.Available? || o1.NotAvailable? != o2.NotAvailable? ==>
            OutcomeDelivered(s, o1).value.events != OutcomeDelivered(s, o2).value.events
  {
    var t1, t2 := OutcomeDelivered(s, o1).value, OutcomeDelivered(s, o2).value;
    assert t1.events[..|s.events|] == s.events;
    if o1.Available? != o2.Available? || o1.NotAvailable? != o2.NotAvailable? {
      assert t1.events[|s.events|] != t2.events[|s.events|];
    }
  }

  /** One input the manager reacts to. */
  datatype Input =
    | PreferenceChanged(enabled: bool, now: Millis)   // autoCheckForUpdatesChanged
    | CheckRequested                                   // the timer's timeout, or a manual check
    | OutcomeReported(outcome: WorkerOutcome)          // a worker's outcome signal
    | WorkerFinished(sender: Sender, now: Millis)      // a worker's finished signal

  /** The effect of one input; an internal error aborts. */
  function Step(s: State, i: Input): (r: Result<State, Failure>)
    ensures WellFormed(s) && r.Ok? ==> WellFormed(r.value)
    ensures r.Ok? ==> s.events <= r.value.events
  {
    match i
    case PreferenceChanged(enabled, now) => Ok(Rescheduled(s, enabled, now))
    case CheckRequested => Ok(UpdateCheckRequested(s))
    case OutcomeReported(o) => OutcomeDelivered(s, o)
    case WorkerFinished(sender, now) => CheckFinished(s, sender, now)
  }

  /** The effect of a sequence of inputs, stopping at the first error. */
  function Run(s: State, inputs: seq<Input>): (r: Result<State, Failure>)
    decreases |inputs|
  {
    if inputs == [] then Ok(s)
    else
      match Step(s, inputs[0])
      case Err(e) => Err(e)
      case Ok(t) => Run(t, inputs[1..])
  }

  /** A run whose first input succeeds continues from the state that input leads to. */
  lemma RunFirst(s: State, inputs: seq<Input>)
    requires inputs != [] && Step(s, inputs[0]).Ok?
    ensures Run(s, inputs) == Run(Step(s, inputs[0]).value, inputs[1..])
  {
  }

  /** A run that succeeds keeps the state well formed and only ever appends signals. */
  lemma {:induction false} RunPreservesWellFormed(s: State, inputs: seq<Input>)
    requires WellFormed(s)
    requires Run(s, inputs).Ok?
    ensures WellFormed(Run(s, inputs).value)
    ensures s.events <= Run(s, inputs).value.events
    decreases |inputs|
  {
    if inputs != [] {
      var t := Step(s, inputs[0]).value;
      RunPreservesWellFormed(t, inputs[1..]);
    }
  }

  /** Does every input change only the preference? */
  predicate OnlyToggles(inputs: seq<Input>) {
    forall k :: 0 <= k < |inputs| ==> inputs[k].PreferenceChanged?
  }

  /**
   * After any non-empty sequence of preference changes the timer is armed exactly
   * when the most recent change enabled auto-check, and nothing but the timer moved.
   */
  lemma {:induction false} TimerArmedIffLastToggleEnabled(s: State, inputs: seq<Input>)
    requires OnlyToggles(inputs) && inputs != []
    ensures Run(s, inputs).Ok?
    ensures SameExceptTimer(s, Run(s, inputs).value)
    ensures Run(s, inputs).value.timer.Running? <==> inputs[|inputs| - 1].enabled
    decreases |inputs|
  {
    var t := Rescheduled(s, inputs[0].enabled, inputs[0].now);
    assert Step(s, inputs[0]) == Ok(t);
    if |inputs| > 1 {
      assert OnlyToggles(inputs[1..]) by {
        forall k | 0 <= k < |inputs[1..]| ensures inputs[1..][k].PreferenceChanged? {
          assert inputs[1..][k] == inputs[k + 1];
        }
      }
      TimerArmedIffLastToggleEnabled(t, inputs[1..]);
      assert inputs[1..][|inputs[1..]| - 1] == inputs[|inputs| - 1];
    } else {
      assert inputs[1..] == [];
    }
  }

  /** The signal an accepted outcome produces. */
  function OutcomeEvent(o: WorkerOutcome): Event
    requires o != Available(None)
  {
    match o
    case Available(info) => UpdateIsAvailable(info.value)
    case NotAvailable => NoUpdateIsAvailable
    case Errored(_) => UpdateCheckFailed
  }

  /**
   * A whole check: request, one outcome, finish of the worker that was started. Whatever
   * the outcome, the check announces start, outcome and end in that order, records
   * `now`, re-arms the timer for a full interval and leaves no extra worker behind.
   */
  lemma CheckCycle(s: State, o: WorkerOutcome, now: Millis)
    requires WellFormed(s) && o != Available(None)
    ensures var r := Run(s, [CheckRequested, OutcomeReported(o), WorkerFinished(FromWorker(s.nextWorker), now)]);
            r.Ok? &&
            r.value.lastCheck == Some(now) && r.value.timer == Running(UPDATE_CHECK_INTERVAL_MS) &&
            r.value.events == s.events + [StartedUpdateCheck, OutcomeEvent(o), FinishedUpdateCheck] &&
            r.value.workers == s.workers
  {
    var i0, i1, i2 := CheckRequested, OutcomeReported(o), WorkerFinished(FromWorker(s.nextWorker), now);
    var a := UpdateCheckRequested(s);
    var b := OutcomeDelivered(a, o).value;
    assert SameExceptEvents(a, b) && b.events == a.events + [OutcomeEvent(o)];
    var c := CheckFinished(b, FromWorker(s.nextWorker), now).value;
    RunFirst(s, [i0, i1, i2]);
    RunFirst(a, [i1, i2]);
    RunFirst(b, [i2]);
    assert [i0, i1, i2][1..] == [i1, i2] && [i1, i2][1..] == [i2] && [i2][1..] == [];
    assert c.events == s.events + [StartedUpdateCheck, OutcomeEvent(o), FinishedUpdateCheck];
    assert c.workers == s.workers;
  }

  /** An "update available" outcome with a null version record aborts the check before it finishes. */
  lemma NullVersionAborts(s: State, now: Millis)
    ensures Run(s, [CheckRequested, OutcomeReported(Available(None)), WorkerFinished(FromWorker(s.nextWorker), now)])
            == Err(NullVersionInfo)
  {
    var inputs := [CheckRequested, OutcomeReported(Available(None)), WorkerFinished(FromWorker(s.nextWorker), now)];
    assert Run(s, inputs) == Run(UpdateCheckRequested(s), inputs[1..]);
  }

  /**
   * First use: auto-check off and no recorded check. Enabling it arms a one-second
   * timer; the check that follows reports no update, and its finish records the time
   * and re-arms for a day.
   */
  lemma FirstLaunchScenario(t0: Millis, t1: Millis)
    ensures var s := Rescheduled(Initial(None), false, t0);
            var enable := [PreferenceChanged(true, t0)];
            var r := Run(s, enable);
            s.timer == Stopped && r.Ok? && r.value.timer == Running(LAUNCH_CHECK_DELAY_MS)
    ensures var s := Rescheduled(Initial(None), false, t0);
            var r := Run(s, [PreferenceChanged(true, t0), CheckRequested, OutcomeReported(NotAvailable),
                             WorkerFinished(FromWorker(0), t1)]);
            r.Ok? && r.value.lastCheck == Some(t1) && r.value.timer == Running(UPDATE_CHECK_INTERVAL_MS) &&
            r.value.events == [StartedUpdateCheck, NoUpdateIsAvailable, FinishedUpdateCheck] &&
            r.value.workers == {}
  {
    var s := Rescheduled(Initial(None), false, t0);
    var s1 := Rescheduled(s, true, t0);
    RunFirst(s, [PreferenceChanged(true, t0)]);
    var inputs := [PreferenceChanged(true, t0), CheckRequested, OutcomeReported(NotAvailable),
                   WorkerFinished(FromWorker(0), t1)];
    RunFirst(s, inputs);
    assert inputs[1..] == [CheckRequested, OutcomeReported(NotAvailable), WorkerFinished(FromWorker(s1.nextWorker), t1)];
    CheckCycle(s1, NotAvailable, t1);
  }

  /** A last check 25 hours ago is overdue: the timer is armed for the launch delay. */
  lemma OverdueAtLaunchScenario(now: Millis)
    ensures var last := now - 25 * 60 * 60 * 1000;
            Rescheduled(Initial(Some(last)), true, now).timer == Running(LAUNCH_CHECK_DELAY_MS)
  {
  }

  /**
   * The manager object. Its fields are the timer, the persisted last-check
   * preference, the signals it emitted, and the workers in flight.
   */
  class UpdateManager {
    var timer: Timer
    var lastUpdateCheck: Option<Millis>
    var events: seq<Event>
    var workers: set<WorkerId>
    var nextWorker: WorkerId

    /** The state the fields hold. */
    function Snapshot(): State
      reads this
    {
      State(timer, lastUpdateCheck, events, workers, nextWorker)
    }

    /**
     * Builds the manager with a stopped single-shot timer and applies the current
     * auto-check preference to it.
     */
    constructor (autoCheckForUpdates: bool, lastUpdateCheck: Option<Millis>, now: Millis)
      ensures Snapshot() == Rescheduled(Initial(lastUpdateCheck), autoCheckForUpdates, now)
      ensures WellFormed(Snapshot())
    {
      timer := Stopped;
      this.lastUpdateCheck := lastUpdateCheck;
      events := [];
      workers := {};
      nextWorker := 0;
      new;
      OnAutoCheckForUpdateChanged(autoCheckForUpdates, now);
    }

    /** The timer's timeout and the manual "check now" both land here. */
    method CheckForUpdate() returns (worker: WorkerId)
      requires WellFormed(Snapshot())
      modifies this
      ensures WellFormed(Snapshot())
      ensures Snapshot() == UpdateCheckRequested(old(Snapshot()))
      ensures worker == old(nextWorker) && worker !in old(workers) && worker in workers
    {
      timer := Stopped;
      worker := StartUpdateCheckWorker();
    }

    /** The slot for changes of the auto-check preference, called with the new value. */
    method OnAutoCheckForUpdateChanged(enabled: bool, now: Millis)
      modifies this
      ensures Snapshot() == Rescheduled(old(Snapshot()), enabled, now)
    {
      timer := Stopped;
      if !enabled {
        return;
      }
      var lastCheckDateTime := lastUpdateCheck;
      var msecsToNextCheck := NextCheckDelay(lastCheckDateTime, now);
      timer := Running(msecsToNextCheck);
    }

    /** Announces the check and launches a worker, identified by the token returned. */
    method StartUpdateCheckWorker() returns (worker: WorkerId)
      requires WellFormed(Snapshot())
      modifies this
      ensures WellFormed(Snapshot())
      ensures Snapshot() == WorkerStarted(old(Snapshot()))
      ensures worker == old(nextWorker) && worker !in old(workers) && worker in workers
    {
      events := events + [StartedUpdateCheck];
      worker := nextWorker;
      workers := workers + {worker};
      nextWorker := nextWorker + 1;
    }

    /** The slot for a worker's finished signal; a sender that is no live worker throws. */
    method OnWorkerFinished(sender: Sender, now: Millis) returns (r: Outcome<Failure>)
      modifies this
      ensures var res := CheckFinished(old(Snapshot()), sender, now);
              (res.Ok? ==> r == Pass && Snapshot() == res.value) &&
              (res.Err? ==> r == Fail(res.error) && Snapshot() == old(Snapshot()))
    {
      if !sender.FromWorker? || sender.worker !in workers {
        return Fail(InternalError);
      }
      workers := workers - {sender.worker};
      events := events + [FinishedUpdateCheck];
      lastUpdateCheck := Some(now);
      timer := Running(UPDATE_CHECK_INTERVAL_MS);
      r := Pass;
    }

    /** The slot for "update available"; a null version record throws. */
    method OnWorkerUpdateIsAvailable(latestVersionInfo: Option<VersionInfo>) returns (r: Outcome<Failure>)
      modifies this
      ensures var res := UpdateAvailableNotified(old(Snapshot()), latestVersionInfo);
              (res.Ok? ==> r == Pass && Snapshot() == res.value) &&
              (res.Err? ==> r == Fail(res.error) && Snapshot() == old(Snapshot()))
    {
      if latestVersionInfo.None? {
        return Fail(NullVersionInfo);
      }
      events := events + [UpdateIsAvailable(latestVersionInfo.value)];
      r := Pass;
    }

    /** The slot for "no update available". */
    method OnWorkerNoUpdateIsAvailable()
      modifies this
      ensures Snapshot() == NoUpdateNotified(old(Snapshot()))
    {
      events := events + [NoUpdateIsAvailable];
    }

    /** The slot for a worker error; the message is not used. */
    method OnWorkerError(error: string)
      modifies this
      ensures Snapshot() == ErrorNotified(old(Snapshot()), error)
    {
      events := events + [UpdateCheckFailed];
    }
  }

  /** Two manual checks in a row start two workers: nothing prevents overlapping checks. */
  method TwoManualChecks(m: UpdateManager) returns (w1: WorkerId, w2: WorkerId)
    requires WellFormed(m.Snapshot())
    modifies m
    ensures w1 != w2 && w1 in m.workers && w2 in m.workers
    ensures w1 !in old(m.workers) && w2 !in old(m.workers)
    ensures m.events == old(m.events) + [StartedUpdateCheck, StartedUpdateCheck]
    ensures m.timer == Stopped
  {
    w1 := m.CheckForUpdate();
    w2 := m.CheckForUpdate();
  }
}
