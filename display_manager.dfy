/**
 * The client's display: the numbers and selections each screen is drawn
 * from, and whether a render clears the screen. The text, colours and
 * cursor codes it prints are not modelled.
 */
module DisplayManager {
  import opened Wrappers
  import Decimal
  import Text
  import Numbers
  import opened Timestamps
  import opened StableSort
  import opened DataModels
  import Utils

  // ---------------------------------------------------------- pure helpers

  /** The display's own `create_progress_bar`, which does not clamp. */
  function DisplayProgressBar(percentage: real, width: int): string
  {
    Utils.Bar(Numbers.Trunc(width as real * percentage / 100.0), width)
  }

  /** Within [0, 100] the display's bar is the shared clamped bar. */
  lemma DisplayProgressBarAgrees(percentage: real, width: int)
    requires 0.0 <= percentage <= 100.0
    ensures DisplayProgressBar(percentage, width) == Utils.ProgressBar(percentage, width)
  {
    assert Numbers.Clamp(percentage, 0.0, 100.0) == percentage;
    assert Utils.FilledCells(percentage, width) == Numbers.Trunc(width as real * percentage / 100.0);
  }

  /** Past 100% the bar is all filled and grows past its width. */
  lemma DisplayProgressBarOverflows(width: nat)
    requires width > 0
    ensures |DisplayProgressBar(200.0, width)| == 2 * width + 2
    ensures |Utils.ProgressBar(200.0, width)| == width + 2
  {
    var w := width as real;
    assert w * 200.0 / 100.0 == (2 * width) as real;
    assert Numbers.Trunc(w * 200.0 / 100.0) == 2 * width;
    assert Text.Repeat(Utils.EMPTY_CHAR, width - 2 * width) == [];
    Utils.ProgressBarLayout(200.0, width);
  }

  /** The display's own `format_timedelta`: no guard, and Python's floor division on negative durations. */
  function DisplayFormatTimedelta(duration: int): string
  {
    var total := TruncDiv(duration, SECOND);
    Utils.HoursMinutes(Decimal.IntToString(total / 3600), (total % 3600) / 60)
  }

  /** The two renderings agree on non-negative durations; half an hour overdue reads "-1h 30m" here. */
  lemma DisplayFormatTimedeltaAgrees(duration: int)
    ensures duration >= 0 ==> DisplayFormatTimedelta(duration) == Utils.FormatTimedelta(duration)
    ensures DisplayFormatTimedelta(-30 * MINUTE) == "-1h 30m"
    ensures Utils.FormatTimedelta(-30 * MINUTE) == "0h 00m"
  {
    assert TruncDiv(-30 * MINUTE, SECOND) == -1800;
    assert -1800 / 3600 == -1 && (-1800 % 3600) / 60 == 30;
    assert Decimal.IntToString(-1) == "-1";
    assert Decimal.NatToString(30) == "30";
  }

  /** `calculate_token_usage_percentage(current_tokens, max_tokens)`. */
  function TokenUsagePercentage(currentTokens: int, maxTokens: int): real
  {
    if maxTokens <= 0 then 0.0 else currentTokens as real / maxTokens as real * 100.0
  }

  /** No limit gives 0; otherwise the exact share, which passes 100 once the limit is exceeded. */
  lemma TokenUsagePercentageSpec(currentTokens: int, maxTokens: int)
    ensures maxTokens <= 0 ==> TokenUsagePercentage(currentTokens, maxTokens) == 0.0
    ensures maxTokens > 0 ==> TokenUsagePercentage(currentTokens, maxTokens) * maxTokens as real == currentTokens as real * 100.0
    ensures currentTokens > maxTokens > 0 ==> TokenUsagePercentage(currentTokens, maxTokens) > 100.0
  {
    if maxTokens > 0 {
      var q := currentTokens as real / maxTokens as real;
      assert q * maxTokens as real == currentTokens as real;
      if currentTokens > maxTokens && q <= 1.0 {
        assert false;
      }
    }
  }

  /** `calculate_time_progress_percentage(start_time, end_time, current_time)`. */
  function TimeProgressPercentage(start: int, end: int, current: int): (r: real)
    ensures 0.0 <= r <= 100.0
  {
    var remaining := end - current;
    var total := end - start;
    if total <= 0 then 100.0
    else Numbers.Clamp((1.0 - remaining as real / total as real) * 100.0, 0.0, 100.0)
  }

  /**
   * An empty or inverted session counts as complete. Otherwise progress is
   * 0 up to the start, 100 from the end on, and in between the elapsed share.
   */
  lemma TimeProgressPercentageSpec(start: int, end: int, current: int)
    ensures end <= start ==> TimeProgressPercentage(start, end, current) == 100.0
    ensures start < end && current <= start ==> TimeProgressPercentage(start, end, current) == 0.0
    ensures start < end && end <= current ==> TimeProgressPercentage(start, end, current) == 100.0
    ensures start <= current <= end && start < end ==>
              TimeProgressPercentage(start, end, current) * (end - start) as real == (current - start) as real * 100.0
  {
    if start < end {
      var total := (end - start) as real;
      var q := (end - current) as real / total;
      assert q * total == (end - current) as real;
      var x := (1.0 - q) * 100.0;
      if current <= start {
        assert (end - current) as real >= total;
        if q < 1.0 {
          assert false;
        }
        assert x <= 0.0;
      } else if end <= current {
        assert (end - current) as real <= 0.0;
        if q > 0.0 {
          assert false;
        }
        assert x >= 100.0;
      } else {
        assert x * total == (total - q * total) * 100.0;
        assert 0.0 <= q <= 1.0;
      }
    }
  }

  /** `find_active_session`: the first active session of the snapshot. */
  function FindActive(sessions: seq<SessionData>): (r: Option<SessionData>)
    ensures r.None? <==> forall i | 0 <= i < |sessions| :: !sessions[i].isActive
    ensures r.Some? ==> exists i | 0 <= i < |sessions| :: sessions[i] == r.value && r.value.isActive
                          && forall j | 0 <= j < i :: !sessions[j].isActive
  {
    if sessions == [] then None
    else if sessions[0].isActive then Some(sessions[0])
    else
      var r := FindActive(sessions[1..]);
      assert forall i | 1 <= i < |sessions| :: sessions[i] == sessions[1..][i - 1];
      if r.Some? then
        var i :| 0 <= i < |sessions| - 1 && sessions[1..][i] == r.value && r.value.isActive
                 && forall j | 0 <= j < i :: !sessions[1..][j].isActive;
        assert sessions[i + 1] == r.value;
        r
      else r
  }

  /** What `calculate_session_stats` returns. */
  datatype SessionStats = SessionStats(sessionsUsed: int, sessionsLeft: int, avgSessionsPerDay: real)

  /** `calculate_session_stats`; the period length it is passed plays no part. */
  function CalculateSessionStats(totalMonthly: int, current: int, daysInPeriod: int, daysRemaining: int): SessionStats
  {
    var left := totalMonthly - current;
    SessionStats(current, left, if daysRemaining > 0 then left as real / daysRemaining as real else left as real)
  }

  /** Used and left sessions add up to the allowance, and the remaining days share what is left evenly. */
  lemma SessionStatsSpec(totalMonthly: int, current: int, daysInPeriod: int, daysRemaining: int)
    ensures CalculateSessionStats(totalMonthly, current, daysInPeriod, daysRemaining).sessionsUsed
            + CalculateSessionStats(totalMonthly, current, daysInPeriod, daysRemaining).sessionsLeft == totalMonthly
    ensures daysRemaining > 0 ==>
              CalculateSessionStats(totalMonthly, current, daysInPeriod, daysRemaining).avgSessionsPerDay * daysRemaining as real
              == (totalMonthly - current) as real
    ensures daysRemaining <= 0 ==>
              CalculateSessionStats(totalMonthly, current, daysInPeriod, daysRemaining).avgSessionsPerDay == (totalMonthly - current) as real
  {
  }

  // ------------------------------------------------------- activity sessions

  const INACTIVE: string := "INACTIVE"

  /** `[s for s in sessions if s.status != "INACTIVE"]`. */
  function DropInactive(sessions: seq<ActivitySession>): (r: seq<ActivitySession>)
    ensures |r| <= |sessions|
    ensures forall i | 0 <= i < |r| :: r[i].status != INACTIVE
  {
    if sessions == [] then []
    else
      var init := DropInactive(sessions[..|sessions| - 1]);
      var last := sessions[|sessions| - 1];
      if last.status == INACTIVE then init else init + [last]
  }

  /** Exactly the sessions that are not inactive survive. */
  lemma {:induction false} DropInactiveMembers(sessions: seq<ActivitySession>)
    ensures forall a :: a in DropInactive(sessions) <==> a in sessions && a.status != INACTIVE
  {
    if sessions != [] {
      var n := |sessions| - 1;
      DropInactiveMembers(sessions[..n]);
      assert sessions == sessions[..n] + [sessions[n]];
    }
  }

  function StartTime(a: ActivitySession): int
  {
    a.startTime
  }

  /** `_filter_activity_sessions`: optionally drop the inactive, newest first, at most `maxSessions`. */
  function FilterActivitySessions(sessions: seq<ActivitySession>, showInactive: bool, maxSessions: int): seq<ActivitySession>
  {
    Utils.SlicePrefix(SortDescending(Eligible(sessions, showInactive), StartTime), maxSessions)
  }

  /** The sessions eligible for the list: all of them, or only those not inactive. */
  function Eligible(sessions: seq<ActivitySession>, showInactive: bool): seq<ActivitySession>
  {
    if showInactive then sessions else DropInactive(sessions)
  }

  /**
   * The list shows `maxSessions` of the eligible sessions, or all of them when
   * there are fewer, newest first; each shown session is an eligible one, shown
   * as often as it is given at most; inactive ones are shown only when they are
   * to be shown, and then all of them fit when the limit allows; every eligible
   * session left off is no newer than any shown.
   */
  lemma FilterActivitySessionsSpec(sessions: seq<ActivitySession>, showInactive: bool, maxSessions: nat)
    ensures |FilterActivitySessions(sessions, showInactive, maxSessions)|
            == if maxSessions < |Eligible(sessions, showInactive)| then maxSessions else |Eligible(sessions, showInactive)|
    ensures multiset(FilterActivitySessions(sessions, showInactive, maxSessions)) <= multiset(Eligible(sessions, showInactive))
    ensures maxSessions >= |Eligible(sessions, showInactive)| ==>
              multiset(FilterActivitySessions(sessions, showInactive, maxSessions)) == multiset(Eligible(sessions, showInactive))
    ensures showInactive ==> multiset(Eligible(sessions, showInactive)) == multiset(sessions)
    ensures forall i, j | 0 <= i < j < |FilterActivitySessions(sessions, showInactive, maxSessions)| ::
              FilterActivitySessions(sessions, showInactive, maxSessions)[i].startTime
              >= FilterActivitySessions(sessions, showInactive, maxSessions)[j].startTime
    ensures forall a | a in FilterActivitySessions(sessions, showInactive, maxSessions) ::
              a in sessions && (showInactive || a.status != INACTIVE)
    ensures forall a, b | a in FilterActivitySessions(sessions, showInactive, maxSessions)
                          && b in Eligible(sessions, showInactive)
                          && b !in FilterActivitySessions(sessions, showInactive, maxSessions) ::
              b.startTime <= a.startTime
  {
    FilterCount(sessions, showInactive, maxSessions);
    FilterOrder(sessions, showInactive, maxSessions);
  }

  /** The shown list is a prefix of the sorted eligible sessions, of length `min(maxSessions, eligible)`. */
  lemma FilterCount(sessions: seq<ActivitySession>, showInactive: bool, maxSessions: nat)
    ensures |FilterActivitySessions(sessions, showInactive, maxSessions)|
            == if maxSessions < |Eligible(sessions, showInactive)| then maxSessions else |Eligible(sessions, showInactive)|
    ensures multiset(FilterActivitySessions(sessions, showInactive, maxSessions)) <= multiset(Eligible(sessions, showInactive))
    ensures maxSessions >= |Eligible(sessions, showInactive)| ==>
              multiset(FilterActivitySessions(sessions, showInactive, maxSessions)) == multiset(Eligible(sessions, showInactive))
  {
    var kept := Eligible(sessions, showInactive);
    SortDescendingSpec(kept, StartTime);
    var sorted := SortDescending(kept, StartTime);
    var k := if maxSessions < |kept| then maxSessions else |kept|;
    assert FilterActivitySessions(sessions, showInactive, maxSessions) == sorted[..k];
    assert sorted == sorted[..k] + sorted[k..];
    assert multiset(sorted) == multiset(sorted[..k]) + multiset(sorted[k..]);
  }

  /** The shown sessions are newest first, eligible, and no newer than any left off. */
  lemma FilterOrder(sessions: seq<ActivitySession>, showInactive: bool, maxSessions: nat)
    ensures forall i, j | 0 <= i < j < |FilterActivitySessions(sessions, showInactive, maxSessions)| ::
              FilterActivitySessions(sessions, showInactive, maxSessions)[i].startTime
              >= FilterActivitySessions(sessions, showInactive, maxSessions)[j].startTime
    ensures forall a | a in FilterActivitySessions(sessions, showInactive, maxSessions) ::
              a in sessions && (showInactive || a.status != INACTIVE)
    ensures forall a, b | a in FilterActivitySessions(sessions, showInactive, maxSessions)
                          && b in Eligible(sessions, showInactive)
                          && b !in FilterActivitySessions(sessions, showInactive, maxSessions) ::
              b.startTime <= a.startTime
  {
    var kept := Eligible(sessions, showInactive);
    if !showInactive {
      DropInactiveMembers(sessions);
    }
    SortDescendingSpec(kept, StartTime);
    var k := if maxSessions < |kept| then maxSessions else |kept|;
    assert FilterActivitySessions(sessions, showInactive, maxSessions) == SortDescending(kept, StartTime)[..k];
    DescendingPrefix(kept, StartTime, k);
  }

  /** How a session id is shown: cut to `maxLength` characters and marked when longer. */
  function SessionIdDisplay(sessionId: string, maxLength: int): string
  {
    if |sessionId| > maxLength then Utils.SlicePrefix(sessionId, maxLength) + "..." else sessionId
  }

  lemma SessionIdDisplaySpec(sessionId: string, maxLength: nat)
    ensures |sessionId| <= maxLength ==> SessionIdDisplay(sessionId, maxLength) == sessionId
    ensures |sessionId| > maxLength ==>
              SessionIdDisplay(sessionId, maxLength) == sessionId[..maxLength] + "..."
              && |SessionIdDisplay(sessionId, maxLength)| == maxLength + 3
  {
  }

  const UNKNOWN_ICON: string := "❓"

  /** The icon table of the activity configuration, with its fallback. */
  function StatusIcon(status: string): string
  {
    if status == "ACTIVE" then "🔵"
    else if status == "WAITING_FOR_USER" then "⏳"
    else if status == "IDLE" then "💤"
    else if status == "INACTIVE" then "⚫"
    else if status == "STOPPED" then "⛔"
    else UNKNOWN_ICON
  }

  /** The five configured statuses get their own icons; any other, the tracker's "WAITING" included, gets the fallback. */
  lemma StatusIconSpec(status: string)
    ensures StatusIcon(status) == UNKNOWN_ICON
            <==> status !in {"ACTIVE", "WAITING_FOR_USER", "IDLE", "INACTIVE", "STOPPED"}
    ensures StatusIcon("WAITING") == UNKNOWN_ICON
  {
  }

  // ---------------------------------------------------------------- renders

  /** `timedelta.days` and `date` subtraction on instants: whole days, rounded down. */
  function WholeDays(duration: int): int
  {
    duration / DAY
  }

  /** `(billing_period_end.date() - now.date()).days`, both read in UTC. */
  function DaysRemaining(periodEnd: int, now: int): int
  {
    WholeDays(periodEnd) - WholeDays(now)
  }

  datatype ScreenAction = ClearScreen | MoveToTop

  /** What one full render draws, short of the text itself. */
  datatype Frame = Frame(
    screen: ScreenAction,
    active: Option<SessionData>,
    stats: SessionStats,
    daysRemaining: int,
    activity: seq<ActivitySession>)

  /** `DisplayManager`: its session allowance, its activity configuration, and whether the screen was cleared yet. */
  class Display {
    const totalMonthlySessions: int
    const enabled: bool
    const showInactiveSessions: bool
    const maxSessionsDisplayed: int
    var screenCleared: bool

    /** The configuration `__init__` sets up. */
    constructor(totalMonthlySessions: int)
      ensures this.totalMonthlySessions == totalMonthlySessions
      ensures enabled && showInactiveSessions && maxSessionsDisplayed == 10
      ensures !screenCleared
    {
      this.totalMonthlySessions := totalMonthlySessions;
      enabled := true;
      showInactiveSessions := true;
      maxSessionsDisplayed := 10;
      screenCleared := false;
    }

    /** The start of both full-screen renders: clear the first time, move the cursor every other time. */
    method BeginRender() returns (action: ScreenAction)
      modifies this
      ensures screenCleared
      ensures action == if old(screenCleared) then MoveToTop else ClearScreen
    {
      if !screenCleared {
        action := ClearScreen;
        screenCleared := true;
      } else {
        action := MoveToTop;
      }
    }

    /** The activity list `_render_activity_sessions` draws. */
    function ActivityShown(m: MonitoringData): seq<ActivitySession>
    {
      var sessions := if m.activitySessions.Some? then m.activitySessions.value else [];
      if !enabled || sessions == [] then [] else FilterActivitySessions(sessions, showInactiveSessions, maxSessionsDisplayed)
    }

    /** `render_full_display` at instant `now`. */
    method RenderFullDisplay(m: MonitoringData, now: int) returns (frame: Frame)
      modifies this
      ensures screenCleared
      ensures frame.screen == if old(screenCleared) then MoveToTop else ClearScreen
      ensures frame.active == FindActive(m.currentSessions)
      ensures frame.daysRemaining == DaysRemaining(m.billingPeriodEnd, now)
      ensures frame.stats == CalculateSessionStats(totalMonthlySessions, m.totalSessionsThisMonth,
                                                   WholeDays(m.billingPeriodEnd - m.billingPeriodStart), frame.daysRemaining)
      ensures frame.activity == ActivityShown(m)
    {
      var action := BeginRender();
      var daysInPeriod := WholeDays(m.billingPeriodEnd - m.billingPeriodStart);
      var daysRemaining := DaysRemaining(m.billingPeriodEnd, now);
      var stats := CalculateSessionStats(totalMonthlySessions, m.totalSessionsThisMonth, daysInPeriod, daysRemaining);
      var active := FindActive(m.currentSessions);
      frame := Frame(action, active, stats, daysRemaining, ActivityShown(m));
    }

    /** `render_daemon_offline_display`: only the screen handling is state. */
    method RenderDaemonOfflineDisplay() returns (action: ScreenAction)
      modifies this
      ensures screenCleared
      ensures action == if old(screenCleared) then MoveToTop else ClearScreen
    {
      action := BeginRender();
    }
  }
}
