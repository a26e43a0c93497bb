/**
 * The monitoring daemon: a start/stop state machine, a collection tick
 * driven by the configured fetch interval, and the collection cycle that
 * writes the data, prunes the activity sessions and raises alerts.
 * The worker thread is replaced by explicit calls to `Tick`.
 */
module Daemon {
  import opened Wrappers
  import opened Json
  import opened Decimal
  import opened Timestamps
  import opened DataModels
  import opened Files
  import opened HookLogParser
  import opened TrackerSpec
  import opened Tracker
  import opened DataCollector

  /** What the daemon does to the outside world, in order. */
  datatype Effect =
    | WriteData(data: Object)
    | BillingCleanup
    | TimeWarning(minutesRemaining: int)
    | InactivityAlert(minutesInactive: int)
    | ErrorNotification(message: string)

  /** Failures tolerated before the daemon notifies the user. */
  const ESCALATION_THRESHOLD := 5

  /** Alerts for one session, and whether an exception ends the scan there. */
  datatype Step = Step(effects: seq<Effect>, abort: bool)

  /**
   * One turn of the `_check_notification_conditions` loop. `tracksMaxTokens`
   * says whether the collector has `update_max_tokens_if_higher`; the one
   * shown does not, so the call raises and the scan stops. An inactivity
   * interval of 0 raises on the modulo, after the time warning.
   */
  function SessionStep(x: SessionData, now: int, config: ConfigData, tracksMaxTokens: bool): Step
  {
    if !x.isActive || x.endTime.None? then Step([], false)
    else if !tracksMaxTokens then Step([], true)
    else
      var remaining := TruncDiv(x.endTime.value - now, MINUTE);
      var warning := if 0 < remaining <= config.timeRemainingAlertMinutes then [TimeWarning(remaining)] else [];
      var elapsed := TruncDiv(now - x.startTime, MINUTE);
      var k := config.inactivityAlertMinutes;
      if elapsed >= 60 && k == 0 then Step(warning, true)
      else if elapsed >= 60 && elapsed % k == 0 && elapsed >= k * 6 then Step(warning + [InactivityAlert(elapsed - 60)], false)
      else Step(warning, false)
  }

  /** The scan over the sessions, stopped by the first one that raises. */
  function Scan(sessions: seq<SessionData>, now: int, config: ConfigData, tracksMaxTokens: bool): Step
  {
    if sessions == [] then Step([], false)
    else
      var before := Scan(sessions[..|sessions| - 1], now, config, tracksMaxTokens);
      if before.abort then before
      else
        var step := SessionStep(sessions[|sessions| - 1], now, config, tracksMaxTokens);
        Step(before.effects + step.effects, step.abort)
  }

  /** The alerts of the whole scan. */
  function Alerts(sessions: seq<SessionData>, now: int, config: ConfigData, tracksMaxTokens: bool): seq<Effect>
  {
    Scan(sessions, now, config, tracksMaxTokens).effects
  }

  lemma ScanStep(sessions: seq<SessionData>, i: nat, now: int, config: ConfigData, tracksMaxTokens: bool)
    requires i < |sessions| && !Scan(sessions[..i], now, config, tracksMaxTokens).abort
    ensures var step := SessionStep(sessions[i], now, config, tracksMaxTokens);
      Scan(sessions[..i + 1], now, config, tracksMaxTokens)
        == Step(Scan(sessions[..i], now, config, tracksMaxTokens).effects + step.effects, step.abort)
  {
    assert sessions[..i + 1][..i] == sessions[..i];
  }

  /** Once a session raises, the later ones add nothing. */
  lemma {:induction false} ScanStops(sessions: seq<SessionData>, i: nat, now: int, config: ConfigData, tracksMaxTokens: bool)
    requires i <= |sessions| && Scan(sessions[..i], now, config, tracksMaxTokens).abort
    ensures Scan(sessions, now, config, tracksMaxTokens) == Scan(sessions[..i], now, config, tracksMaxTokens)
    decreases |sessions| - i
  {
    if i == |sessions| {
      assert sessions[..i] == sessions;
    } else {
      var t := sessions[..|sessions| - 1];
      assert t[..i] == sessions[..i];
      ScanStops(t, i, now, config, tracksMaxTokens);
    }
  }

  /**
   * A time warning for an active session with an end is sent exactly when
   * the truncated minutes remaining lie in `(0, time_remaining_alert_minutes]`.
   */
  lemma TimeWarningRule(x: SessionData, now: int, config: ConfigData)
    requires x.isActive && x.endTime.Some?
    ensures var m := TruncDiv(x.endTime.value - now, MINUTE);
      (exists e | e in SessionStep(x, now, config, true).effects :: e.TimeWarning?)
        <==> 0 < m <= config.timeRemainingAlertMinutes
    ensures forall e | e in SessionStep(x, now, config, true).effects && e.TimeWarning? ::
      e.minutesRemaining == TruncDiv(x.endTime.value - now, MINUTE)
  {
    var m := TruncDiv(x.endTime.value - now, MINUTE);
    if 0 < m <= config.timeRemainingAlertMinutes {
      assert TimeWarning(m) in SessionStep(x, now, config, true).effects;
    }
  }

  /**
   * With `s` whole minutes since the start, an inactivity alert for `s - 60`
   * is sent exactly when `s >= 60`, `s` is a multiple of the interval and
   * `s` is at least six intervals.
   */
  lemma InactivityRule(x: SessionData, now: int, config: ConfigData)
    requires x.isActive && x.endTime.Some? && config.inactivityAlertMinutes != 0
    ensures var s := TruncDiv(now - x.startTime, MINUTE);
      var k := config.inactivityAlertMinutes;
      && ((exists e | e in SessionStep(x, now, config, true).effects :: e.InactivityAlert?)
            <==> s >= 60 && s % k == 0 && s >= k * 6)
      && (forall e | e in SessionStep(x, now, config, true).effects && e.InactivityAlert? :: e.minutesInactive == s - 60)
      && !SessionStep(x, now, config, true).abort
  {
    var s := TruncDiv(now - x.startTime, MINUTE);
    var k := config.inactivityAlertMinutes;
    if s >= 60 && s % k == 0 && s >= k * 6 {
      assert InactivityAlert(s - 60) in SessionStep(x, now, config, true).effects;
    }
  }

  /** Inactive sessions and sessions without an end are skipped. */
  lemma SkippedSessions(x: SessionData, now: int, config: ConfigData, tracksMaxTokens: bool)
    requires !x.isActive || x.endTime.None?
    ensures SessionStep(x, now, config, tracksMaxTokens) == Step([], false)
  {
  }

  /** Without `update_max_tokens_if_higher` on the collector, no alert is ever sent. */
  lemma {:induction false} NoAlertsWithoutMaxTokens(sessions: seq<SessionData>, now: int, config: ConfigData)
    ensures Alerts(sessions, now, config, false) == []
  {
    if sessions != [] {
      NoAlertsWithoutMaxTokens(sessions[..|sessions| - 1], now, config);
    }
  }

  /** The message of `_send_error_notification`. */
  function ErrorMessage(status: ErrorStatus): string
  {
    IntToString(status.consecutiveFailures) + " consecutive failures: "
      + (if status.errorMessage.Some? then status.errorMessage.value else "None")
  }

  class ClaudeDaemon {
    const config: ConfigData
    const iso: IsoCodec
    const tracksMaxTokens: bool
    const collector: Collector
    const tracker: SessionActivityTracker

    var isRunning: bool
    var stopSignal: bool
    /** How many worker threads `start` has launched. */
    var workersStarted: nat
    /** The worker's `last_collection_time`, in microseconds. */
    var lastCollection: int
    var effects: seq<Effect>

    /**
     * The daemon builds its own activity tracker, which starts empty; `libs`,
     * `smart` and the hook log's path and retention configure it.
     */
    constructor(config: ConfigData, iso: IsoCodec, tracksMaxTokens: bool, collector: Collector,
                libs: Libraries, smart: SmartStatus, logPath: string, retentionDays: int)
      ensures this.config == config && this.iso == iso && this.tracksMaxTokens == tracksMaxTokens
      ensures this.collector == collector && fresh(tracker)
      ensures tracker.logPath == logPath && tracker.sessions == [] && tracker.lastCacheUpdate == None
      ensures !isRunning && !stopSignal && workersStarted == 0 && lastCollection == 0 && effects == []
      ensures Valid()
    {
      this.config := config;
      this.iso := iso;
      this.tracksMaxTokens := tracksMaxTokens;
      this.collector := collector;
      this.tracker := new SessionActivityTracker(libs, smart, iso, logPath, retentionDays);
      isRunning := false;
      stopSignal := false;
      workersStarted := 0;
      lastCollection := 0;
      effects := [];
    }

    /**
     * The daemon never asks its tracker to read the hook log, and no
     * background refresh is started, so the tracker holds no sessions.
     */
    predicate Valid()
      reads this, tracker
    {
      collector != tracker as object && tracker.sessions == []
    }

    /** `start`: idempotent; a new worker begins with `last_collection_time = 0`. */
    method Start()
      modifies this
      ensures old(isRunning) ==>
        isRunning && stopSignal == old(stopSignal) && workersStarted == old(workersStarted)
        && lastCollection == old(lastCollection)
      ensures !old(isRunning) ==>
        isRunning && !stopSignal && workersStarted == old(workersStarted) + 1 && lastCollection == 0
      ensures effects == old(effects)
    {
      if isRunning {
        return;
      }
      isRunning := true;
      stopSignal := false;
      workersStarted := workersStarted + 1;
      lastCollection := 0;
    }

    /** `stop`: a no-op unless running; otherwise clears the flag and signals the worker. */
    method Stop()
      modifies this
      ensures !old(isRunning) ==> !isRunning && stopSignal == old(stopSignal)
      ensures old(isRunning) ==> !isRunning && stopSignal
      ensures workersStarted == old(workersStarted) && lastCollection == old(lastCollection) && effects == old(effects)
    {
      if !isRunning {
        return;
      }
      isRunning := false;
      stopSignal := true;
    }

    /** One turn of the `_check_notification_conditions` loop; `abort` stands for the exception that ends it. */
    method CheckSession(x: SessionData, now: int) returns (abort: bool)
      modifies this`effects
      ensures effects == old(effects) + SessionStep(x, now, config, tracksMaxTokens).effects
      ensures abort == SessionStep(x, now, config, tracksMaxTokens).abort
    {
      if !x.isActive || x.endTime.None? {
        return false;
      }
      if !tracksMaxTokens {
        return true;
      }
      var remaining := TruncDiv(x.endTime.value - now, MINUTE);
      if 0 < remaining <= config.timeRemainingAlertMinutes {
        effects := effects + [TimeWarning(remaining)];
      }
      var elapsed := TruncDiv(now - x.startTime, MINUTE);
      if elapsed >= 60 {
        if config.inactivityAlertMinutes == 0 {
          return true;
        }
        if elapsed % config.inactivityAlertMinutes == 0 && elapsed >= config.inactivityAlertMinutes * 6 {
          effects := effects + [InactivityAlert(elapsed - 60)];
        }
      }
      return false;
    }

    /** `_check_notification_conditions`: the sessions in order, until one raises. */
    method CheckNotificationConditions(sessions: seq<SessionData>, now: int)
      modifies this`effects
      ensures effects == old(effects) + Alerts(sessions, now, config, tracksMaxTokens)
    {
      var i := 0;
      while i < |sessions|
        invariant 0 <= i <= |sessions|
        invariant !Scan(sessions[..i], now, config, tracksMaxTokens).abort
        invariant effects == old(effects) + Scan(sessions[..i], now, config, tracksMaxTokens).effects
      {
        ScanStep(sessions, i, now, config, tracksMaxTokens);
        var abort := CheckSession(sessions[i], now);
        if abort {
          ScanStops(sessions, i + 1, now, config, tracksMaxTokens);
          return;
        }
        i := i + 1;
      }
      assert sessions[..i] == sessions;
    }

    /** The success branch of `_collect_data`: write the data, clean up billing sessions, check alerts. */
    method Publish(m: MonitoringData, now: int, fs: FileSystem)
      modifies this`effects, tracker, fs
      ensures effects == old(effects) + [WriteData(MonitoringToDict(m, iso)), BillingCleanup]
                         + Alerts(m.currentSessions, now, config, tracksMaxTokens)
      ensures BillingCleaned(now, tracker.logPath, old(tracker.sessions), old(fs.files), old(tracker.mtimes),
                             old(tracker.lastCacheUpdate), tracker.sessions, fs.files, tracker.mtimes, tracker.lastCacheUpdate)
      ensures old(tracker.sessions) == [] ==> tracker.sessions == [] && fs.files == old(fs.files)
    {
      effects := effects + [WriteData(MonitoringToDict(m, iso))];
      tracker.CleanupCompletedBillingSessions(now, fs);
      if old(tracker.sessions) == [] {
        EmptyBillingCleanupKeeps(now, tracker.logPath, old(fs.files), old(tracker.mtimes), old(tracker.lastCacheUpdate),
                                 tracker.sessions, fs.files, tracker.mtimes, tracker.lastCacheUpdate);
      }
      effects := effects + [BillingCleanup];
      ghost var before := effects;
      CheckNotificationConditions(m.currentSessions, now);
      assert effects == before + Alerts(m.currentSessions, now, config, tracksMaxTokens);
    }

    /** The failure branch of `_collect_data`: escalate once more than five failures in a row are counted. */
    method ReportFailure()
      modifies this`effects
      ensures effects == old(effects)
        + (if collector.consecutiveFailures > ESCALATION_THRESHOLD
           then [ErrorNotification(ErrorMessage(collector.ErrorStatusNow().value))] else [])
    {
      var status := collector.ErrorStatusNow();
      if status.Some? && status.value.consecutiveFailures > ESCALATION_THRESHOLD {
        effects := effects + [ErrorNotification(ErrorMessage(status.value))];
      }
    }

    /**
     * What one `_collect_data` call leaves behind: on success the data
     * written, the billing clean-up done and the alerts checked, in that
     * order, with the failure count reset; on failure the count raised, an
     * error notification once more than five failures in a row are counted,
     * and the tracker and files untouched.
     */
    twostate predicate CycleDone(now: int, outcome: CommandOutcome, fs: FileSystem)
      reads this, collector, tracker, fs
    {
      match Collect(outcome, collector.decode, collector.fromIso, collector.withDay, now)
      case Collected(m) =>
        && effects == old(effects) + [WriteData(MonitoringToDict(m, iso)), BillingCleanup]
                       + Alerts(m.currentSessions, now, config, tracksMaxTokens)
        && collector.consecutiveFailures == 0 && collector.lastSuccessfulUpdate == Some(now)
        && BillingCleaned(now, tracker.logPath, old(tracker.sessions), old(fs.files), old(tracker.mtimes),
                          old(tracker.lastCacheUpdate), tracker.sessions, fs.files, tracker.mtimes, tracker.lastCacheUpdate)
      case Failed(k) =>
        && collector.consecutiveFailures == old(collector.consecutiveFailures) + k
        && collector.lastSuccessfulUpdate == old(collector.lastSuccessfulUpdate)
        && effects == old(effects)
             + (if collector.consecutiveFailures > ESCALATION_THRESHOLD
                then [ErrorNotification(ErrorMessage(collector.ErrorStatusNow().value))] else [])
        && tracker.sessions == old(tracker.sessions) && fs.files == old(fs.files)
    }

    /** `_collect_data`: success publishes, failure reports, each as `CycleDone` states. */
    method CollectCycle(now: int, outcome: CommandOutcome, fs: FileSystem)
      requires collector != tracker as object
      modifies this`effects, collector, tracker, fs
      ensures CycleDone(now, outcome, fs)
      ensures old(tracker.sessions) == [] ==> tracker.sessions == [] && fs.files == old(fs.files)
    {
      ghost var c := Collect(outcome, collector.decode, collector.fromIso, collector.withDay, now);
      var data := collector.CollectData(outcome, now);
      if data.Some? {
        assert c.Collected? && data.value == c.data;
        Publish(data.value, now, fs);
      } else {
        assert c.Failed?;
        ReportFailure();
      }
    }

    /**
     * One pass of `_main_loop`: once a worker runs and no stop was signalled,
     * collect when at least the fetch interval has passed since the last
     * collection, and remember this time. `fs` holds the hook logs, which
     * never change here; the rewrite of the monitoring data file is the
     * `WriteData` effect of a successful cycle.
     */
    method Tick(now: int, outcome: CommandOutcome, fs: FileSystem)
      requires Valid()
      modifies this, collector, tracker, fs
      ensures var due := workersStarted > 0 && !stopSignal
        && now - old(lastCollection) >= config.ccusageFetchIntervalSeconds * SECOND;
        && (due ==> lastCollection == now && CycleDone(now, outcome, fs))
        && (!due ==>
              && lastCollection == old(lastCollection) && effects == old(effects)
              && collector.consecutiveFailures == old(collector.consecutiveFailures)
              && tracker.sessions == old(tracker.sessions) && fs.files == old(fs.files))
      ensures isRunning == old(isRunning) && stopSignal == old(stopSignal) && workersStarted == old(workersStarted)
      ensures Valid() && fs.files == old(fs.files)
    {
      if workersStarted == 0 || stopSignal {
        return;
      }
      if now - lastCollection >= config.ccusageFetchIntervalSeconds * SECOND {
        CollectCycle(now, outcome, fs);
        lastCollection := now;
      }
    }
  }
}
