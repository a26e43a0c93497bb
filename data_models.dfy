/**
 * The records exchanged between the daemon, the client and the hooks, their
 * schema validation and their dictionary encodings. `validate_schema` raises
 * `ValidationError` at the first rule that fails; here it returns that rule,
 * or `None` when every rule holds.
 */
module DataModels {
  import opened Wrappers
  import opened Json
  import opened Text
  import opened Timestamps

  /** Activity statuses. The schema admits only the first three. */
  const ACTIVE := "ACTIVE"
  const WAITING := "WAITING"
  const STOPPED := "STOPPED"
  const WAITING_FOR_USER := "WAITING_FOR_USER"
  const IDLE := "IDLE"
  const INACTIVE := "INACTIVE"

  const SCHEMA_STATUSES: seq<string> := [ACTIVE, WAITING, STOPPED]

  /** The rule a record breaks, one per `ValidationError` raised. */
  datatype Violation =
    | NegativeTotalTokens | NegativeInputTokens | NegativeOutputTokens | NegativeCost
    | TokenMismatch | EmptySessionId | EndNotAfterStart | UnknownStatus
    | NegativeSessionCount | NegativeMonthlyCost | NegativeMaxTokens | PeriodNotOrdered
    | NonPositiveRefresh | NonPositiveFetch | NonPositiveTimeAlert | NonPositiveInactivityAlert
    | NonPositiveMonthlySessions | StartDayOutOfRange | EmptyTimezone | UnknownTimezone
    | NegativeFailures | MissingErrorMessage | UnexpectedErrorMessage | UnexpectedErrorCode

  // ---------------------------------------------------------------- SessionData

  datatype SessionData = SessionData(
    sessionId: string,
    startTime: int,
    endTime: Option<int>,
    totalTokens: int,
    inputTokens: int,
    outputTokens: int,
    costUsd: real,
    isActive: bool)

  /** `SessionData.validate_schema`. */
  function CheckSession(s: SessionData): (r: Option<Violation>)
    ensures r == None <==>
      s.totalTokens >= 0 && s.inputTokens >= 0 && s.outputTokens >= 0 && s.costUsd >= 0.0
      && s.inputTokens + s.outputTokens == s.totalTokens
      && !IsBlank(s.sessionId)
      && (s.endTime.Some? ==> s.startTime < s.endTime.value)
  {
    if s.totalTokens < 0 then Some(NegativeTotalTokens)
    else if s.inputTokens < 0 then Some(NegativeInputTokens)
    else if s.outputTokens < 0 then Some(NegativeOutputTokens)
    else if s.costUsd < 0.0 then Some(NegativeCost)
    else if s.inputTokens + s.outputTokens != s.totalTokens then Some(TokenMismatch)
    else if IsBlank(s.sessionId) then Some(EmptySessionId)
    else if s.endTime.Some? && s.startTime >= s.endTime.value then Some(EndNotAfterStart)
    else None
  }

  function TimeValue(t: Option<int>, iso: IsoCodec): Value
  {
    match t
    case Some(v) => JStr(iso.format(v))
    case None => JNull
  }

  /** `SessionData.to_dict`. */
  function SessionToDict(s: SessionData, iso: IsoCodec): Object
  {
    map[
      "session_id" := JStr(s.sessionId),
      "start_time" := JStr(iso.format(s.startTime)),
      "end_time" := TimeValue(s.endTime, iso),
      "total_tokens" := JInt(s.totalTokens),
      "input_tokens" := JInt(s.inputTokens),
      "output_tokens" := JInt(s.outputTokens),
      "cost_usd" := JReal(s.costUsd),
      "is_active" := JBool(s.isActive)]
  }

  function AsString(v: Value): Option<string>
  {
    if v.JStr? then Some(v.s) else None
  }

  function AsInt(v: Value): Option<int>
  {
    if v.JInt? then Some(v.i) else None
  }

  /** A JSON number read as a Python float. */
  function AsReal(v: Value): Option<real>
  {
    match v
    case JReal(r) => Some(r)
    case JInt(i) => Some(i as real)
    case _ => None
  }

  function AsBool(v: Value): Option<bool>
  {
    if v.JBool? then Some(v.b) else None
  }

  /** `datetime.fromisoformat(v)`; `None` where it raises. */
  function ParseTime(v: Value, iso: IsoCodec): Option<int>
  {
    if v.JStr? then iso.parse(v.s) else None
  }

  /**
   * `datetime.fromisoformat(v) if v else None`: the outer `None` is the
   * exception, `Some(None)` a falsy value.
   */
  function ParseOptionalTime(v: Value, iso: IsoCodec): Option<Option<int>>
  {
    if !Truthy(v) then Some(None)
    else match ParseTime(v, iso)
      case Some(t) => Some(Some(t))
      case None => None
  }

  /** `SessionData.from_dict`; `None` where it raises. */
  function SessionFromDict(d: Object, iso: IsoCodec): Option<SessionData>
  {
    if !("session_id" in d && "start_time" in d && "end_time" in d && "total_tokens" in d
        && "input_tokens" in d && "output_tokens" in d && "cost_usd" in d && "is_active" in d)
    then None
    else
      var id, start, end := AsString(d["session_id"]), ParseTime(d["start_time"], iso), ParseOptionalTime(d["end_time"], iso);
      var total, input, output := AsInt(d["total_tokens"]), AsInt(d["input_tokens"]), AsInt(d["output_tokens"]);
      var cost, active := AsReal(d["cost_usd"]), AsBool(d["is_active"]);
      if id.None? || start.None? || end.None? || total.None? || input.None? || output.None?
        || cost.None? || active.None?
      then None
      else Some(SessionData(id.value, start.value, end.value, total.value, input.value,
                            output.value, cost.value, active.value))
  }

  /** `from_dict(to_dict(s)) == s` for every session. */
  lemma SessionRoundTrip(s: SessionData, iso: IsoCodec)
    requires RoundTrips(iso)
    ensures SessionFromDict(SessionToDict(s, iso), iso) == Some(s)
  {
    FormatParses(iso, s.startTime);
    if s.endTime.Some? {
      FormatParses(iso, s.endTime.value);
    }
  }

  // ------------------------------------------------------- ActivitySessionData

  /**
   * One activity record. `projectName` is the field the tracker groups by; the
   * dataclass as written lacks it, and the model carries it like every other
   * dataclass field (`HookLogParser.AsWrittenLogIsEmpty` shows what its
   * absence does).
   */
  datatype ActivitySession = ActivitySession(
    projectName: string,
    sessionId: string,
    startTime: int,
    status: string,
    eventType: Option<string>,
    endTime: Option<int>,
    metadata: Option<Object>)

  /** `ActivitySessionData.validate_schema`. */
  function CheckActivity(a: ActivitySession): (r: Option<Violation>)
    ensures r == None <==>
      !IsBlank(a.sessionId) && a.status in SCHEMA_STATUSES
      && (a.endTime.Some? ==> a.startTime < a.endTime.value)
  {
    if IsBlank(a.sessionId) then Some(EmptySessionId)
    else if a.status !in SCHEMA_STATUSES then Some(UnknownStatus)
    else if a.endTime.Some? && a.startTime >= a.endTime.value then Some(EndNotAfterStart)
    else None
  }

  function OptionalString(s: Option<string>): Value
  {
    match s
    case Some(v) => JStr(v)
    case None => JNull
  }

  function OptionalObject(m: Option<Object>): Value
  {
    match m
    case Some(v) => JObj(v)
    case None => JNull
  }

  /** `ActivitySessionData.to_dict`. */
  function ActivityToDict(a: ActivitySession, iso: IsoCodec): Object
  {
    map[
      "project_name" := JStr(a.projectName),
      "session_id" := JStr(a.sessionId),
      "start_time" := JStr(iso.format(a.startTime)),
      "status" := JStr(a.status),
      "event_type" := OptionalString(a.eventType),
      "end_time" := TimeValue(a.endTime, iso),
      "metadata" := OptionalObject(a.metadata)]
  }

  /** `data.get(key)` read as an optional string; the outer `None` rejects another type. */
  function GetOptionalString(d: Object, key: string): Option<Option<string>>
  {
    match Get(d, key, JNull)
    case JNull => Some(None)
    case JStr(s) => Some(Some(s))
    case _ => None
  }

  function GetOptionalObject(d: Object, key: string): Option<Option<Object>>
  {
    match Get(d, key, JNull)
    case JNull => Some(None)
    case JObj(m) => Some(Some(m))
    case _ => None
  }

  /** `ActivitySessionData.from_dict`; `None` where it raises. */
  function ActivityFromDict(d: Object, iso: IsoCodec): Option<ActivitySession>
  {
    if !("project_name" in d && "session_id" in d && "start_time" in d && "status" in d && "end_time" in d)
    then None
    else
      var project, id, start := AsString(d["project_name"]), AsString(d["session_id"]), ParseTime(d["start_time"], iso);
      var status, end := AsString(d["status"]), ParseOptionalTime(d["end_time"], iso);
      var eventType, metadata := GetOptionalString(d, "event_type"), GetOptionalObject(d, "metadata");
      if project.None? || id.None? || start.None? || status.None? || end.None?
        || eventType.None? || metadata.None?
      then None
      else Some(ActivitySession(project.value, id.value, start.value, status.value,
                                eventType.value, end.value, metadata.value))
  }

  /** `from_dict(to_dict(a)) == a` for every activity record. */
  lemma ActivityRoundTrip(a: ActivitySession, iso: IsoCodec)
    requires RoundTrips(iso)
    ensures ActivityFromDict(ActivityToDict(a, iso), iso) == Some(a)
  {
    FormatParses(iso, a.startTime);
    if a.endTime.Some? {
      FormatParses(iso, a.endTime.value);
    }
  }

  // ------------------------------------------------------------ MonitoringData

  datatype MonitoringData = MonitoringData(
    currentSessions: seq<SessionData>,
    totalSessionsThisMonth: int,
    totalCostThisMonth: real,
    maxTokensPerSession: int,
    lastUpdate: int,
    billingPeriodStart: int,
    billingPeriodEnd: int,
    daemonVersion: Option<string>,
    activitySessions: Option<seq<ActivitySession>>)

  /** The first session breaking a rule, and the rule. */
  function FirstSessionViolation(ss: seq<SessionData>): (r: Option<Violation>)
    ensures r == None <==> forall i | 0 <= i < |ss| :: CheckSession(ss[i]) == None
  {
    if ss == [] then None
    else if CheckSession(ss[0]).Some? then CheckSession(ss[0])
    else FirstSessionViolation(ss[1..])
  }

  function FirstActivityViolation(aa: seq<ActivitySession>): (r: Option<Violation>)
    ensures r == None <==> forall i | 0 <= i < |aa| :: CheckActivity(aa[i]) == None
  {
    if aa == [] then None
    else if CheckActivity(aa[0]).Some? then CheckActivity(aa[0])
    else FirstActivityViolation(aa[1..])
  }

  /** `MonitoringData.validate_schema`. */
  function CheckMonitoring(m: MonitoringData): (r: Option<Violation>)
    ensures r == None <==>
      m.totalSessionsThisMonth >= 0 && m.totalCostThisMonth >= 0.0 && m.maxTokensPerSession >= 0
      && m.billingPeriodStart < m.billingPeriodEnd
      && (forall i | 0 <= i < |m.currentSessions| :: CheckSession(m.currentSessions[i]) == None)
      && (m.activitySessions.Some? ==>
            forall i | 0 <= i < |m.activitySessions.value| :: CheckActivity(m.activitySessions.value[i]) == None)
  {
    if m.totalSessionsThisMonth < 0 then Some(NegativeSessionCount)
    else if m.totalCostThisMonth < 0.0 then Some(NegativeMonthlyCost)
    else if m.maxTokensPerSession < 0 then Some(NegativeMaxTokens)
    else if m.billingPeriodStart >= m.billingPeriodEnd then Some(PeriodNotOrdered)
    else if FirstSessionViolation(m.currentSessions).Some? then FirstSessionViolation(m.currentSessions)
    else if m.activitySessions.Some? && m.activitySessions.value != [] then FirstActivityViolation(m.activitySessions.value)
    else None
  }

  function SessionsToList(ss: seq<SessionData>, iso: IsoCodec): (r: seq<Value>)
    ensures |r| == |ss|
    ensures forall i | 0 <= i < |ss| :: r[i] == JObj(SessionToDict(ss[i], iso))
  {
    if ss == [] then [] else [JObj(SessionToDict(ss[0], iso))] + SessionsToList(ss[1..], iso)
  }

  function ActivitiesToList(aa: seq<ActivitySession>, iso: IsoCodec): (r: seq<Value>)
    ensures |r| == |aa|
    ensures forall i | 0 <= i < |aa| :: r[i] == JObj(ActivityToDict(aa[i], iso))
  {
    if aa == [] then [] else [JObj(ActivityToDict(aa[0], iso))] + ActivitiesToList(aa[1..], iso)
  }

  /** `MonitoringData.to_dict`: a missing activity list is written as `[]`. */
  function MonitoringToDict(m: MonitoringData, iso: IsoCodec): Object
  {
    map[
      "current_sessions" := JList(SessionsToList(m.currentSessions, iso)),
      "total_sessions_this_month" := JInt(m.totalSessionsThisMonth),
      "total_cost_this_month" := JReal(m.totalCostThisMonth),
      "max_tokens_per_session" := JInt(m.maxTokensPerSession),
      "last_update" := JStr(iso.format(m.lastUpdate)),
      "billing_period_start" := JStr(iso.format(m.billingPeriodStart)),
      "billing_period_end" := JStr(iso.format(m.billingPeriodEnd)),
      "daemon_version" := OptionalString(m.daemonVersion),
      "activity_sessions" := JList(ActivitiesToList(if m.activitySessions.Some? then m.activitySessions.value else [], iso))]
  }

  function SessionsFromList(vs: seq<Value>, iso: IsoCodec): Option<seq<SessionData>>
  {
    if vs == [] then Some([])
    else if !vs[0].JObj? then None
    else match (SessionFromDict(vs[0].fields, iso), SessionsFromList(vs[1..], iso))
      case (Some(s), Some(rest)) => Some([s] + rest)
      case _ => None
  }

  function ActivitiesFromList(vs: seq<Value>, iso: IsoCodec): Option<seq<ActivitySession>>
  {
    if vs == [] then Some([])
    else if !vs[0].JObj? then None
    else match (ActivityFromDict(vs[0].fields, iso), ActivitiesFromList(vs[1..], iso))
      case (Some(a), Some(rest)) => Some([a] + rest)
      case _ => None
  }

  /** `MonitoringData.from_dict`: an empty or missing activity list becomes `None`. */
  function MonitoringFromDict(d: Object, iso: IsoCodec): Option<MonitoringData>
  {
    if !("current_sessions" in d && "total_sessions_this_month" in d && "total_cost_this_month" in d
        && "max_tokens_per_session" in d && "last_update" in d && "billing_period_start" in d
        && "billing_period_end" in d)
    then None
    else
      var current := if d["current_sessions"].JList? then SessionsFromList(d["current_sessions"].items, iso) else None;
      var activityValue := Get(d, "activity_sessions", JList([]));
      var activity := if activityValue.JList? then ActivitiesFromList(activityValue.items, iso) else None;
      var count, cost, maxTokens := AsInt(d["total_sessions_this_month"]), AsReal(d["total_cost_this_month"]), AsInt(d["max_tokens_per_session"]);
      var last, start, end := ParseTime(d["last_update"], iso), ParseTime(d["billing_period_start"], iso), ParseTime(d["billing_period_end"], iso);
      var version := GetOptionalString(d, "daemon_version");
      if current.None? || activity.None? || count.None? || cost.None? || maxTokens.None?
        || last.None? || start.None? || end.None? || version.None?
      then None
      else Some(MonitoringData(current.value, count.value, cost.value, maxTokens.value, last.value,
                               start.value, end.value, version.value,
                               if activity.value == [] then None else Some(activity.value)))
  }

  /** The one change a round trip makes: an empty activity list comes back as `None`. */
  function NormalizeActivities(m: MonitoringData): MonitoringData
  {
    if m.activitySessions == Some([]) then m.(activitySessions := None) else m
  }

  lemma {:induction false} SessionsListRoundTrip(ss: seq<SessionData>, iso: IsoCodec)
    requires RoundTrips(iso)
    ensures SessionsFromList(SessionsToList(ss, iso), iso) == Some(ss)
  {
    if ss != [] {
      SessionRoundTrip(ss[0], iso);
      SessionsListRoundTrip(ss[1..], iso);
      assert SessionsToList(ss, iso)[1..] == SessionsToList(ss[1..], iso);
      assert [ss[0]] + ss[1..] == ss;
    }
  }

  lemma {:induction false} ActivitiesListRoundTrip(aa: seq<ActivitySession>, iso: IsoCodec)
    requires RoundTrips(iso)
    ensures ActivitiesFromList(ActivitiesToList(aa, iso), iso) == Some(aa)
  {
    if aa != [] {
      ActivityRoundTrip(aa[0], iso);
      ActivitiesListRoundTrip(aa[1..], iso);
      assert ActivitiesToList(aa, iso)[1..] == ActivitiesToList(aa[1..], iso);
      assert [aa[0]] + aa[1..] == aa;
    }
  }

  /** A missing activity list and an empty one are both written as `[]`. */
  lemma MonitoringEmptyActivities(m: MonitoringData, iso: IsoCodec)
    ensures MonitoringToDict(m, iso)["activity_sessions"] == JList([]) <==>
      m.activitySessions.None? || m.activitySessions == Some([])
  {
    if m.activitySessions.Some? && m.activitySessions.value != [] {
      assert |ActivitiesToList(m.activitySessions.value, iso)| > 0;
    }
  }

  /** The fields of `to_dict(m)`, read back one by one. */
  lemma MonitoringDictFields(m: MonitoringData, iso: IsoCodec) returns (d: Object)
    requires RoundTrips(iso)
    ensures d == MonitoringToDict(m, iso)
    ensures && "current_sessions" in d && "total_sessions_this_month" in d && "total_cost_this_month" in d
      && "max_tokens_per_session" in d && "last_update" in d && "billing_period_start" in d
      && "billing_period_end" in d
      && d["current_sessions"] == JList(SessionsToList(m.currentSessions, iso))
      && Get(d, "activity_sessions", JList([]))
         == JList(ActivitiesToList(if m.activitySessions.Some? then m.activitySessions.value else [], iso))
      && GetOptionalString(d, "daemon_version") == Some(m.daemonVersion)
      && ParseTime(d["last_update"], iso) == Some(m.lastUpdate)
      && ParseTime(d["billing_period_start"], iso) == Some(m.billingPeriodStart)
      && ParseTime(d["billing_period_end"], iso) == Some(m.billingPeriodEnd)
      && AsInt(d["total_sessions_this_month"]) == Some(m.totalSessionsThisMonth)
      && AsInt(d["max_tokens_per_session"]) == Some(m.maxTokensPerSession)
      && AsReal(d["total_cost_this_month"]) == Some(m.totalCostThisMonth)
  {
    d := MonitoringToDict(m, iso);
    FormatParses(iso, m.lastUpdate);
    FormatParses(iso, m.billingPeriodStart);
    FormatParses(iso, m.billingPeriodEnd);
  }

  /**
   * `from_dict(to_dict(m))` gives `m` back, except that an empty activity list
   * returns as `None`.
   */
  lemma MonitoringRoundTrip(m: MonitoringData, iso: IsoCodec)
    requires RoundTrips(iso)
    ensures MonitoringFromDict(MonitoringToDict(m, iso), iso) == Some(NormalizeActivities(m))
  {
    SessionsListRoundTrip(m.currentSessions, iso);
    var aa := if m.activitySessions.Some? then m.activitySessions.value else [];
    ActivitiesListRoundTrip(aa, iso);
    var _ := MonitoringDictFields(m, iso);
  }

  // ---------------------------------------------------------------- ConfigData

  datatype ConfigData = ConfigData(
    totalMonthlySessions: int,
    refreshIntervalSeconds: int,
    ccusageFetchIntervalSeconds: int,
    timeRemainingAlertMinutes: int,
    inactivityAlertMinutes: int,
    localTimezone: string,
    billingStartDay: int)

  /** The dataclass defaults. */
  const DEFAULT_CONFIG := ConfigData(50, 1, 10, 30, 10, "Europe/Warsaw", 1)

  /**
   * `ConfigData.validate_schema`. `knownZone` stands for the time-zone
   * database that `ZoneInfo` consults.
   */
  function CheckConfig(c: ConfigData, knownZone: string -> bool): (r: Option<Violation>)
    ensures r == None <==>
      c.refreshIntervalSeconds > 0 && c.ccusageFetchIntervalSeconds > 0
      && c.timeRemainingAlertMinutes > 0 && c.inactivityAlertMinutes > 0
      && c.totalMonthlySessions > 0 && 1 <= c.billingStartDay <= 31
      && !IsBlank(c.localTimezone) && knownZone(c.localTimezone)
  {
    if c.refreshIntervalSeconds <= 0 then Some(NonPositiveRefresh)
    else if c.ccusageFetchIntervalSeconds <= 0 then Some(NonPositiveFetch)
    else if c.timeRemainingAlertMinutes <= 0 then Some(NonPositiveTimeAlert)
    else if c.inactivityAlertMinutes <= 0 then Some(NonPositiveInactivityAlert)
    else if c.totalMonthlySessions <= 0 then Some(NonPositiveMonthlySessions)
    else if !(1 <= c.billingStartDay <= 31) then Some(StartDayOutOfRange)
    else if IsBlank(c.localTimezone) then Some(EmptyTimezone)
    else if !knownZone(c.localTimezone) then Some(UnknownTimezone)
    else None
  }

  /** The defaults pass validation whenever their time zone is known. */
  lemma DefaultConfigValid(knownZone: string -> bool)
    requires knownZone("Europe/Warsaw")
    ensures CheckConfig(DEFAULT_CONFIG, knownZone) == None
  {
    assert !IsSpace(DEFAULT_CONFIG.localTimezone[0]);
  }

  const CONFIG_KEYS: set<string> := {"total_monthly_sessions", "refresh_interval_seconds",
    "ccusage_fetch_interval_seconds", "time_remaining_alert_minutes", "inactivity_alert_minutes",
    "local_timezone", "billing_start_day"}

  /** `ConfigData.to_dict`. */
  function ConfigToDict(c: ConfigData): Object
  {
    map[
      "total_monthly_sessions" := JInt(c.totalMonthlySessions),
      "refresh_interval_seconds" := JInt(c.refreshIntervalSeconds),
      "ccusage_fetch_interval_seconds" := JInt(c.ccusageFetchIntervalSeconds),
      "time_remaining_alert_minutes" := JInt(c.timeRemainingAlertMinutes),
      "inactivity_alert_minutes" := JInt(c.inactivityAlertMinutes),
      "local_timezone" := JStr(c.localTimezone),
      "billing_start_day" := JInt(c.billingStartDay)]
  }

  function IntOr(d: Object, key: string, default: int): Option<int>
  {
    if key in d then AsInt(d[key]) else Some(default)
  }

  /**
   * `ConfigData.from_dict`, that is `ConfigData(**data)`: an unknown key
   * raises, a missing key keeps its default.
   */
  function ConfigFromDict(d: Object): Option<ConfigData>
  {
    if exists k | k in d :: k !in CONFIG_KEYS then None
    else
      var sessions := IntOr(d, "total_monthly_sessions", DEFAULT_CONFIG.totalMonthlySessions);
      var refresh := IntOr(d, "refresh_interval_seconds", DEFAULT_CONFIG.refreshIntervalSeconds);
      var fetch := IntOr(d, "ccusage_fetch_interval_seconds", DEFAULT_CONFIG.ccusageFetchIntervalSeconds);
      var timeAlert := IntOr(d, "time_remaining_alert_minutes", DEFAULT_CONFIG.timeRemainingAlertMinutes);
      var idleAlert := IntOr(d, "inactivity_alert_minutes", DEFAULT_CONFIG.inactivityAlertMinutes);
      var zone := if "local_timezone" in d then AsString(d["local_timezone"]) else Some(DEFAULT_CONFIG.localTimezone);
      var startDay := IntOr(d, "billing_start_day", DEFAULT_CONFIG.billingStartDay);
      if sessions.None? || refresh.None? || fetch.None? || timeAlert.None? || idleAlert.None?
        || zone.None? || startDay.None?
      then None
      else Some(ConfigData(sessions.value, refresh.value, fetch.value, timeAlert.value,
                           idleAlert.value, zone.value, startDay.value))
  }

  /** `from_dict(to_dict(c)) == c`; an empty dictionary gives the defaults; an unknown key is refused. */
  lemma ConfigRoundTrip(c: ConfigData, d: Object, k: string)
    requires k in d && k !in CONFIG_KEYS
    ensures ConfigFromDict(ConfigToDict(c)) == Some(c)
    ensures ConfigFromDict(map[]) == Some(DEFAULT_CONFIG)
    ensures ConfigFromDict(d) == None
  {
    var e := ConfigToDict(c);
    assert forall key | key in e :: key in CONFIG_KEYS;
  }

  // --------------------------------------------------------------- ErrorStatus

  datatype ErrorStatus = ErrorStatus(
    hasError: bool,
    errorMessage: Option<string>,
    errorCode: Option<int>,
    lastSuccessfulUpdate: Option<int>,
    consecutiveFailures: int)

  /** `ErrorStatus.validate_schema`. */
  function CheckErrorStatus(e: ErrorStatus): (r: Option<Violation>)
    ensures r == None <==>
      e.consecutiveFailures >= 0
      && (e.hasError ==> e.errorMessage.Some? && e.errorMessage.value != "")
      && (!e.hasError ==> e.errorMessage.None? && e.errorCode.None?)
  {
    if e.consecutiveFailures < 0 then Some(NegativeFailures)
    else if e.hasError && (e.errorMessage.None? || e.errorMessage.value == "") then Some(MissingErrorMessage)
    else if !e.hasError && e.errorMessage.Some? then Some(UnexpectedErrorMessage)
    else if !e.hasError && e.errorCode.Some? then Some(UnexpectedErrorCode)
    else None
  }

  function OptionalInt(i: Option<int>): Value
  {
    match i
    case Some(v) => JInt(v)
    case None => JNull
  }

  /** `ErrorStatus.to_dict`. */
  function ErrorStatusToDict(e: ErrorStatus, iso: IsoCodec): Object
  {
    map[
      "has_error" := JBool(e.hasError),
      "error_message" := OptionalString(e.errorMessage),
      "error_code" := OptionalInt(e.errorCode),
      "last_successful_update" := TimeValue(e.lastSuccessfulUpdate, iso),
      "consecutive_failures" := JInt(e.consecutiveFailures)]
  }

  function AsOptionalString(v: Value): Option<Option<string>>
  {
    match v
    case JNull => Some(None)
    case JStr(s) => Some(Some(s))
    case _ => None
  }

  function AsOptionalInt(v: Value): Option<Option<int>>
  {
    match v
    case JNull => Some(None)
    case JInt(i) => Some(Some(i))
    case _ => None
  }

  /** `ErrorStatus.from_dict`; `None` where it raises. */
  function ErrorStatusFromDict(d: Object, iso: IsoCodec): Option<ErrorStatus>
  {
    if !("has_error" in d && "error_message" in d && "error_code" in d
        && "last_successful_update" in d && "consecutive_failures" in d)
    then None
    else
      var hasError, message, code := AsBool(d["has_error"]), AsOptionalString(d["error_message"]), AsOptionalInt(d["error_code"]);
      var last, failures := ParseOptionalTime(d["last_successful_update"], iso), AsInt(d["consecutive_failures"]);
      if hasError.None? || message.None? || code.None? || last.None? || failures.None? then None
      else Some(ErrorStatus(hasError.value, message.value, code.value, last.value, failures.value))
  }

  /** `from_dict(to_dict(e)) == e` for every error status. */
  lemma ErrorStatusRoundTrip(e: ErrorStatus, iso: IsoCodec)
    requires RoundTrips(iso)
    ensures ErrorStatusFromDict(ErrorStatusToDict(e, iso), iso) == Some(e)
  {
    if e.lastSuccessfulUpdate.Some? {
      FormatParses(iso, e.lastSuccessfulUpdate.value);
    }
  }
}
