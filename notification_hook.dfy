/**
 * The notification hook, run by the assistant when it sends a notification. It reads one JSON document from standard input and appends
 * one event to the activity log.
 */
module NotificationHook {
  import opened Wrappers
  import opened Json
  import opened Text
  import Paths
  import HookUtils
  import HookLogParser

  /** `parse_notification_data`: the decoded input, `None` when it is not JSON. */
  function ParseNotificationData(stdin: string, decode: string -> Option<Value>): Option<Value>
  {
    decode(Strip(stdin))
  }

  /** The `data` part of the event, with the keys `message`, `title`, `transcript_path`. */
  function Payload(data: Object): (payload: Object)
    ensures payload.Keys == {"message", "title", "transcript_path"}
  {
    map[
      "message" := Get(data, "message", JStr("")),
      "title" := Get(data, "title", JStr("")),
      "transcript_path" := Get(data, "transcript_path", JStr(""))]
  }

  /** `create_activity_event`; `cwd` is the working directory the project is named after. */
  function CreateActivityEvent(data: Object, cwd: string): (event: Object)
    ensures event.Keys == {"project_name", "session_id", "event_type", "data"}
    ensures event["event_type"] == JStr("notification")
    ensures event["project_name"] == JStr(Paths.Basename(cwd))
    ensures "session_id" in data ==> event["session_id"] == data["session_id"]
    ensures "session_id" !in data ==> event["session_id"] == JStr("unknown")
    ensures event["data"] == JObj(Payload(data))
  {
    HookUtils.HookEvent(Paths.Basename(cwd), Get(data, "session_id", JStr("unknown")), "notification", Payload(data))
  }

  /** The log file used when `CLAUDE_ACTIVITY_LOG_FILE` is unset or empty: `/tmp/claude-monitor/claude_activity.log`, unlike the other two hooks. */
  function DefaultLogFile(home: string): string
  {
    Paths.Join("/tmp/claude-monitor", "claude_activity.log")
  }

  /**
   * `main`: input that is not JSON or is falsy is skipped; a truthy value
   * that is not an object makes `.get` raise; otherwise the event goes to the
   * log file chosen from the environment.
   */
  function Main(stdin: string, env: Option<string>, home: string, cwd: string, decode: string -> Option<Value>): HookUtils.HookRun
  {
    match ParseNotificationData(stdin, decode)
    case None => HookUtils.Skipped
    case Some(v) =>
      if !Truthy(v) then HookUtils.Skipped
      else if !v.JObj? then HookUtils.Crashed
      else HookUtils.Logged(HookUtils.LogFileFor(env, DefaultLogFile(home)), CreateActivityEvent(v.fields, cwd))
  }

  /** Nothing is logged exactly when the input is not JSON or is falsy. */
  lemma MainSkips(stdin: string, env: Option<string>, home: string, cwd: string, decode: string -> Option<Value>)
    ensures Main(stdin, env, home, cwd, decode).Skipped? <==> decode(Strip(stdin)).None? || !Truthy(decode(Strip(stdin)).value)
  {
    if decode(Strip(stdin)).Some? && Truthy(decode(Strip(stdin)).value) {
      MainRuns(stdin, env, home, cwd, decode);
    }
  }

  lemma MainRuns(stdin: string, env: Option<string>, home: string, cwd: string, decode: string -> Option<Value>)
    requires decode(Strip(stdin)).Some? && Truthy(decode(Strip(stdin)).value)
    ensures !Main(stdin, env, home, cwd, decode).Skipped?
  {
  }

  /** Exactly a non-empty object is logged. */
  lemma MainLogs(stdin: string, env: Option<string>, home: string, cwd: string, decode: string -> Option<Value>)
    ensures Main(stdin, env, home, cwd, decode).Logged?
        <==> decode(Strip(stdin)).Some? && decode(Strip(stdin)).value.JObj? && decode(Strip(stdin)).value.fields != map[]
  {
  }

  /**
   * A logged event is a `notification` event named after the working directory,
   * written to the file the environment names if it names one.
   */
  lemma MainLogsEvent(stdin: string, env: Option<string>, home: string, cwd: string, decode: string -> Option<Value>)
    requires Main(stdin, env, home, cwd, decode).Logged?
    ensures Main(stdin, env, home, cwd, decode).event["event_type"] == JStr("notification")
    ensures Main(stdin, env, home, cwd, decode).event["project_name"] == JStr(Paths.Basename(cwd))
    ensures env.Some? && env.value != "" ==> Main(stdin, env, home, cwd, decode).logFile == env.value
  {
  }

  /**
   * Once stamped by the logger, the event passes the daemon's parser checks
   * whenever its session id is absent or a non-blank string.
   */
  lemma EventIsLogRecord(data: Object, cwd: string, ts: string)
    requires "session_id" !in data || HookLogParser.IsNonBlankString(data["session_id"])
    ensures HookLogParser.IsLogRecord(JObj(HookUtils.Stamped(CreateActivityEvent(data, cwd), ts)))
  {
    var record := HookUtils.Stamped(CreateActivityEvent(data, cwd), ts);
    assert !IsBlank("notification") by {
      assert !IsSpace("notification"[0]);
    }
    assert !IsBlank("unknown") by {
      assert !IsSpace("unknown"[0]);
    }
    assert forall k | k in HookLogParser.REQUIRED_FIELDS :: k in record;
  }
}
