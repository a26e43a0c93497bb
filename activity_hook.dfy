/**
 * The activity hook, run by the assistant before each tool use. It reads one JSON document from standard input and appends
 * one event to the activity log.
 */
module ActivityHook {
  import opened Wrappers
  import opened Json
  import opened Text
  import Paths
  import HookUtils
  import HookLogParser

  /** `parse_activity_data`: the decoded input, `None` when it is not JSON. */
  function ParseActivityData(stdin: string, decode: string -> Option<Value>): Option<Value>
  {
    decode(Strip(stdin))
  }

  /** The `data` part of the event, with the keys `tool_name`, `tool_parameters`, `transcript_path`. */
  function Payload(data: Object): (payload: Object)
    ensures payload.Keys == {"tool_name", "tool_parameters", "transcript_path"}
  {
    map[
      "tool_name" := Get(data, "tool_name", JStr("")),
      "tool_parameters" := Get(data, "parameters", JObj(map[])),
      "transcript_path" := Get(data, "transcript_path", JStr(""))]
  }

  /** `create_activity_event`; `cwd` is the working directory the project is named after. */
  function CreateActivityEvent(data: Object, cwd: string): (event: Object)
    ensures event.Keys == {"project_name", "session_id", "event_type", "data"}
    ensures event["event_type"] == JStr("activity")
    ensures event["project_name"] == JStr(Paths.Basename(cwd))
    ensures "session_id" in data ==> event["session_id"] == data["session_id"]
    ensures "session_id" !in data ==> event["session_id"] == JStr("unknown")
    ensures event["data"] == JObj(Payload(data))
  {
    HookUtils.HookEvent(Paths.Basename(cwd), Get(data, "session_id", JStr("unknown")), "activity", Payload(data))
  }

  /** The log file used when `CLAUDE_ACTIVITY_LOG_FILE` is unset or empty: `~/.config/claude-monitor/hooks/claude_activity.log`. */
  function DefaultLogFile(home: string): string
  {
    Paths.Join(Paths.RStripSlash(home) + "/.config/claude-monitor/hooks", "claude_activity.log")
  }

  /**
   * `main`: input that is not JSON or is falsy is skipped; a truthy value
   * that is not an object makes `.get` raise; otherwise the event goes to the
   * log file chosen from the environment.
   */
  function Main(stdin: string, env: Option<string>, home: string, cwd: string, decode: string -> Option<Value>): HookUtils.HookRun
  {
    match ParseActivityData(stdin, decode)
    case None => HookUtils.Skipped
    case Some(v) =>
      if !Truthy(v) then HookUtils.Skipped
      else if !v.JObj? then HookUtils.Crashed
      else HookUtils.Logged(HookUtils.LogFileFor(env, DefaultLogFile(home)), CreateActivityEvent(v.fields, cwd))
  }

  /** Nothing is logged exactly when the input is not JSON or is falsy. */
  lemma MainSkips(stdin: string, env: Option<string>, home: string, cwd: string, decode: string -> Option<Value>)
    ensures Main(stdin, env, home, cwd, decode).Skipped? <==> decode(Strip(stdin)).None? || !Truthy(decode(Strip(stdin)).value)
  {
    if decode(Strip(stdin)).Some? && Truthy(decode(Strip(stdin)).value) {
      MainRuns(stdin, env, home, cwd, decode);
    }
  }

  lemma MainRuns(stdin: string, env: Option<string>, home: string, cwd: string, decode: string -> Option<Value>)
    requires decode(Strip(stdin)).Some? && Truthy(decode(Strip(stdin)).value)
    ensures !Main(stdin, env, home, cwd, decode).Skipped?
  {
  }

  /** Exactly a non-empty object is logged. */
  lemma MainLogs(stdin: string, env: Option<string>, home: string, cwd: string, decode: string -> Option<Value>)
    ensures Main(stdin, env, home, cwd, decode).Logged?
        <==> decode(Strip(stdin)).Some? && decode(Strip(stdin)).value.JObj? && decode(Strip(stdin)).value.fields != map[]
  {
  }

  /**
   * A logged event is an `activity` event named after the working directory,
   * written to the file the environment names if it names one.
   */
  lemma MainLogsEvent(stdin: string, env: Option<string>, home: string, cwd: string, decode: string -> Option<Value>)
    requires Main(stdin, env, home, cwd, decode).Logged?
    ensures Main(stdin, env, home, cwd, decode).event["event_type"] == JStr("activity")
    ensures Main(stdin, env, home, cwd, decode).event["project_name"] == JStr(Paths.Basename(cwd))
    ensures env.Some? && env.value != "" ==> Main(stdin, env, home, cwd, decode).logFile == env.value
  {
  }

  /**
   * Once stamped by the logger, the event passes the daemon's parser checks
   * whenever its session id is absent or a non-blank string.
   */
  lemma EventIsLogRecord(data: Object, cwd: string, ts: string)
    requires "session_id" !in data || HookLogParser.IsNonBlankString(data["session_id"])
    ensures HookLogParser.IsLogRecord(JObj(HookUtils.Stamped(CreateActivityEvent(data, cwd), ts)))
  {
    var record := HookUtils.Stamped(CreateActivityEvent(data, cwd), ts);
    assert !IsBlank("activity") by {
      assert !IsSpace("activity"[0]);
    }
    assert !IsBlank("unknown") by {
      assert !IsSpace("unknown"[0]);
    }
    assert forall k | k in HookLogParser.REQUIRED_FIELDS :: k in record;
  }
}
