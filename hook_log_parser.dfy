/**
 * The hook log parser: one JSON record per line of the activity log, each
 * turned into an activity record whose status follows from the event type.
 */
module HookLogParser {
  import opened Wrappers
  import opened Json
  import opened Text
  import opened DataModels

  /**
   * The library routines the parser calls: `json.loads`, `datetime.fromisoformat`
   * and the two `strptime` formats tried after it. Each gives `None` where
   * the library raises.
   */
  datatype Libraries = Libraries(
    decode: string -> Option<Value>,
    fromIso: string -> Option<int>,
    strptimeZ: string -> Option<int>)

  /** Both `strptime` fallbacks, `%Y-%m-%dT%H:%M:%S.%fZ` and `%Y-%m-%dT%H:%M:%SZ`, end in a literal `Z`. */
  ghost predicate FallbackNeedsZ(libs: Libraries)
  {
    forall s :: libs.strptimeZ(s).Some? ==> EndsWith(s, "Z")
  }

  const REQUIRED_FIELDS: seq<string> := ["timestamp", "session_id", "event_type", "project_name"]

  /** `isinstance(v, str) and v.strip()`. */
  predicate IsNonBlankString(v: Value)
  {
    v.JStr? && !IsBlank(v.s)
  }

  /**
   * The checks `parse_log_line` makes on a decoded value, in order: a JSON
   * object, every required field present, and a non-blank string session id
   * and event type.
   */
  predicate IsLogRecord(v: Value)
  {
    && v.JObj?
    && (forall k | k in REQUIRED_FIELDS :: k in v.fields)
    && IsNonBlankString(v.fields["session_id"])
    && IsNonBlankString(v.fields["event_type"])
  }

  /** `parse_log_line`: the decoded record when it is well formed, else `None`. */
  function ParseLogLine(line: string, libs: Libraries): (r: Option<Object>)
    ensures r.Some? <==> !IsBlank(line) && libs.decode(Strip(line)).Some? && IsLogRecord(libs.decode(Strip(line)).value)
    ensures r.Some? ==> JObj(r.value) == libs.decode(Strip(line)).value
  {
    if IsBlank(line) then None
    else match libs.decode(Strip(line))
      case None => None
      case Some(v) =>
        if !v.JObj? then None
        else if exists k | k in REQUIRED_FIELDS :: k !in v.fields then None
        else if !IsNonBlankString(v.fields["session_id"]) then None
        else if !IsNonBlankString(v.fields["event_type"]) then None
        else Some(v.fields)
  }

  /** A trailing `Z` becomes `+00:00`, the numeric form of UTC (RFC 3339, section 5.6). */
  function RewriteZulu(s: string): (r: string)
    ensures !EndsWith(r, "Z")
    ensures EndsWith(s, "Z") ==> r == s[..|s| - 1] + "+00:00"
    ensures !EndsWith(s, "Z") ==> r == s
  {
    if EndsWith(s, "Z") then
      var r := s[..|s| - 1] + "+00:00";
      assert r[|r| - 1..] == ['0'];
      r
    else s
  }

  /** `_parse_timestamp`; a value that is not a string fails like an unparsable one. */
  function ParseTimestamp(v: Value, libs: Libraries): Option<int>
  {
    if !Truthy(v) || !v.JStr? then None
    else
      var s := RewriteZulu(v.s);
      match libs.fromIso(s)
      case Some(t) => Some(t)
      case None => libs.strptimeZ(s)
  }

  /**
   * Because the fallback formats end in `Z` and the string they receive has
   * already lost its `Z`, only `fromisoformat` ever decides the result.
   */
  lemma ParseTimestampIso(v: Value, libs: Libraries)
    requires FallbackNeedsZ(libs)
    ensures !Truthy(v) ==> ParseTimestamp(v, libs) == None
    ensures v.JStr? && v.s != "" ==> ParseTimestamp(v, libs) == libs.fromIso(RewriteZulu(v.s))
  {
    if v.JStr? && v.s != "" {
      var s := RewriteZulu(v.s);
      assert libs.strptimeZ(s).Some? ==> EndsWith(s, "Z");
    }
  }

  const STOP_EVENTS: seq<string> := ["stop", "subagentstop"]

  /**
   * `create_activity_session`: the activity record for one parsed event, or
   * `None`. This is the intended behaviour, with `project_name` a field of the
   * record; `CreateActivitySessionAsWritten` below is the code against the
   * dataclass as declared.
   */
  function CreateActivitySession(event: Object, libs: Libraries): Option<ActivitySession>
  {
    if !("session_id" in event && "event_type" in event && "timestamp" in event) then None
    else match ParseTimestamp(event["timestamp"], libs)
      case None => None
      case Some(ts) =>
        if !event["event_type"].JStr? || !("project_name" in event) then None
        else if !event["project_name"].JStr? || !event["session_id"].JStr? then None
        else
          var eventType := event["event_type"].s;
          var stop := Lower(eventType) in STOP_EVENTS;
          var data := Get(event, "data", JObj(map[]));
          var session := ActivitySession(
            projectName := event["project_name"].s,
            sessionId := event["session_id"].s,
            startTime := if stop then ts - 1 else ts,
            status := if stop then STOPPED else ACTIVE,
            eventType := Some(eventType),
            endTime := if stop then Some(ts) else None,
            metadata := Some(if data.JObj? then data.fields else map[]));
          if CheckActivity(session).Some? then None else Some(session)
  }

  /** What `create_activity_session` builds from a well-formed event. */
  lemma CreateActivitySessionSpec(event: Object, libs: Libraries)
    requires "session_id" in event && "event_type" in event && "timestamp" in event && "project_name" in event
    requires IsNonBlankString(event["session_id"]) && event["event_type"].JStr? && event["project_name"].JStr?
    ensures ParseTimestamp(event["timestamp"], libs).None? ==> CreateActivitySession(event, libs).None?
    ensures ParseTimestamp(event["timestamp"], libs).Some? ==>
      var ts := ParseTimestamp(event["timestamp"], libs).value;
      var stop := Lower(event["event_type"].s) in STOP_EVENTS;
      var a := CreateActivitySession(event, libs);
      && a.Some?
      && a.value.projectName == event["project_name"].s
      && a.value.sessionId == event["session_id"].s
      && a.value.eventType == Some(event["event_type"].s)
      && (stop ==> a.value.status == STOPPED && a.value.endTime == Some(ts) && a.value.startTime == ts - 1)
      && (!stop ==> a.value.status == ACTIVE && a.value.endTime.None? && a.value.startTime == ts)
      && (a.value.metadata == Some(if "data" in event && event["data"].JObj? then event["data"].fields else map[]))
  {
  }

  /** Every record `create_activity_session` returns passes `validate_schema`. */
  lemma CreatedSessionsValid(event: Object, libs: Libraries)
    requires CreateActivitySession(event, libs).Some?
    ensures CheckActivity(CreateActivitySession(event, libs).value) == None
  {
  }

  /** The sessions one log line contributes: none for a blank or rejected line. */
  function LineSessions(line: string, libs: Libraries): (r: seq<ActivitySession>)
    ensures |r| <= (if IsBlank(line) then 0 else 1)
    ensures forall i | 0 <= i < |r| :: CheckActivity(r[i]) == None
  {
    if IsBlank(line) then []
    else match ParseLogLine(Strip(line), libs)
      case None => []
      case Some(event) =>
        match CreateActivitySession(event, libs)
        case None => []
        case Some(a) =>
          CreatedSessionsValid(event, libs);
          [a]
  }

  /** The sessions of a whole log, in line order. */
  function LogSessions(lines: seq<string>, libs: Libraries): (r: seq<ActivitySession>)
    ensures |r| <= |lines|
  {
    if lines == [] then []
    else LogSessions(lines[..|lines| - 1], libs) + LineSessions(lines[|lines| - 1], libs)
  }

  /** Every session parsed from a log validates, and blank lines contribute nothing. */
  lemma {:induction false} LogSessionsValid(lines: seq<string>, libs: Libraries)
    ensures forall i | 0 <= i < |LogSessions(lines, libs)| :: CheckActivity(LogSessions(lines, libs)[i]) == None
    ensures |LogSessions(lines, libs)| <= CountNonBlank(lines)
  {
    if lines != [] {
      var init, last := lines[..|lines| - 1], lines[|lines| - 1];
      LogSessionsValid(init, libs);
      var head, tail := LogSessions(init, libs), LineSessions(last, libs);
      assert LogSessions(lines, libs) == head + tail;
      forall i | 0 <= i < |head + tail| ensures CheckActivity((head + tail)[i]) == None {
        if i >= |head| {
          assert (head + tail)[i] == tail[i - |head|];
        }
      }
    }
  }

  /** One more line adds its own sessions at the end. */
  lemma LogSessionsStep(lines: seq<string>, i: nat, libs: Libraries)
    requires i < |lines|
    ensures LogSessions(lines[..i + 1], libs) == LogSessions(lines[..i], libs) + LineSessions(lines[i], libs)
  {
    assert lines[..i + 1][..i] == lines[..i];
  }

  /** The sessions a non-blank, stripped line contributes. */
  lemma LineSessionsStripped(raw: string, libs: Libraries)
    requires !IsBlank(raw)
    ensures var e := ParseLogLine(Strip(raw), libs);
      LineSessions(raw, libs) ==
        if e.Some? && CreateActivitySession(e.value, libs).Some? then [CreateActivitySession(e.value, libs).value] else []
  {
  }

  /**
   * `parse_log_file`: `None` stands for a missing file. Blank lines are
   * skipped, every other line is parsed and turned into a session when it can be.
   */
  method ParseLogFile(file: Option<seq<string>>, libs: Libraries) returns (sessions: seq<ActivitySession>)
    ensures file.None? ==> sessions == []
    ensures file.Some? ==> sessions == LogSessions(file.value, libs)
  {
    sessions := [];
    if file.None? {
      return;
    }
    var lines := file.value;
    var i := 0;
    while i < |lines|
      invariant 0 <= i <= |lines|
      invariant sessions == LogSessions(lines[..i], libs)
    {
      LogSessionsStep(lines, i, libs);
      var line := Strip(lines[i]);
      if line != [] {
        LineSessionsStripped(lines[i], libs);
        var event := ParseLogLine(line, libs);
        if event.Some? {
          var session := CreateActivitySession(event.value, libs);
          if session.Some? {
            sessions := sessions + [session.value];
          }
        }
      }
      i := i + 1;
    }
    assert lines[..i] == lines;
  }

  // ------------------------------------------------------------ as written

  /** The fields the `ActivitySessionData` dataclass declares: `project_name` is not among them. */
  const DATACLASS_FIELDS: set<string> := {"session_id", "start_time", "status", "event_type", "end_time", "metadata"}

  /** The keywords `create_activity_session` passes to the `ActivitySessionData` constructor. */
  const CONSTRUCTOR_KEYWORDS: set<string> :=
    {"project_name", "session_id", "start_time", "end_time", "status", "event_type", "metadata"}

  /**
   * `create_activity_session` as written against the dataclass as declared.
   * Every path returns `None` before the constructor call or reaches it, and a
   * dataclass constructor raises `TypeError` on a keyword that is not one of
   * its fields; the handler turns that into `None`. So the code as written
   * agrees with `CreateActivitySession` when the constructor accepts every
   * keyword, and gives `None` otherwise.
   */
  function CreateActivitySessionAsWritten(event: Object, libs: Libraries): Option<ActivitySession>
  {
    if CONSTRUCTOR_KEYWORDS <= DATACLASS_FIELDS then CreateActivitySession(event, libs) else None
  }

  /** As written, no event ever becomes an activity record. */
  lemma AsWrittenCreatesNothing(event: Object, libs: Libraries)
    ensures CreateActivitySessionAsWritten(event, libs) == None
  {
    assert "project_name" in CONSTRUCTOR_KEYWORDS && "project_name" !in DATACLASS_FIELDS;
  }

  /** The sessions one log line contributes as written. */
  function LineSessionsAsWritten(line: string, libs: Libraries): seq<ActivitySession>
  {
    if IsBlank(line) then []
    else match ParseLogLine(Strip(line), libs)
      case None => []
      case Some(event) =>
        match CreateActivitySessionAsWritten(event, libs)
        case None => []
        case Some(a) => [a]
  }

  /** `parse_log_file` as written, over the lines of an existing log. */
  function LogSessionsAsWritten(lines: seq<string>, libs: Libraries): seq<ActivitySession>
  {
    if lines == [] then []
    else LogSessionsAsWritten(lines[..|lines| - 1], libs) + LineSessionsAsWritten(lines[|lines| - 1], libs)
  }

  /** As written, every log parses to no sessions at all, whatever its lines. */
  lemma {:induction false} AsWrittenLogIsEmpty(lines: seq<string>, libs: Libraries)
    ensures LogSessionsAsWritten(lines, libs) == []
  {
    if lines != [] {
      AsWrittenLogIsEmpty(lines[..|lines| - 1], libs);
      var last := lines[|lines| - 1];
      if !IsBlank(last) && ParseLogLine(Strip(last), libs).Some? {
        AsWrittenCreatesNothing(ParseLogLine(Strip(last), libs).value, libs);
      }
    }
  }

  /**
   * A well-formed `stop` line shows the gap: the corrected parser yields one
   * session for it, the code as written none.
   */
  lemma AsWrittenDropsValidLine(line: string, libs: Libraries)
    requires !IsBlank(line) && ParseLogLine(Strip(line), libs).Some?
    requires CreateActivitySession(ParseLogLine(Strip(line), libs).value, libs).Some?
    ensures |LineSessions(line, libs)| == 1
    ensures LineSessionsAsWritten(line, libs) == []
  {
    AsWrittenCreatesNothing(ParseLogLine(Strip(line), libs).value, libs);
  }
}
