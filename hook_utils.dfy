/**
 * What the hook scripts share: the append-only event logger, the walk up
 * the directory tree that names a project, and the cached project-name
 * lookup with its fallback.
 */
module HookUtils {
  import opened Wrappers
  import opened Json
  import opened Text
  import opened Files
  import Paths
  import Timestamps
  import HookLogCompressor

  /** `{'timestamp': ts, **event}`: the event's own keys win, `timestamp` included. */
  function Stamped(event: Object, ts: string): (record: Object)
    ensures record.Keys == event.Keys + {"timestamp"}
    ensures forall k | k in event :: record[k] == event[k]
    ensures "timestamp" !in event ==> record["timestamp"] == JStr(ts)
  {
    map["timestamp" := JStr(ts)] + event
  }

  /** `HookLogger`: appends one compact JSON line per event to its log file. */
  class HookLogger {
    const logPath: string
    const codec: Codec

    constructor(logPath: string, codec: Codec)
      ensures this.logPath == logPath && this.codec == codec
    {
      this.logPath, this.codec := logPath, codec;
    }

    /** `log_event`: the stamped event becomes the new last line of the log, which is created when missing. */
    method LogEvent(fs: FileSystem, event: Object, now: int, iso: Timestamps.IsoCodec)
      modifies fs
      ensures fs.files == old(fs.files)[logPath := FileState(LinesBefore(old(fs.files)) + [codec.encode(JObj(Stamped(event, iso.format(now))))], Some(now))]
    {
      var line := codec.encode(JObj(Stamped(event, iso.format(now))));
      fs.files := fs.files[logPath := FileState(LinesBefore(fs.files) + [line], Some(now))];
    }

    /** The log's lines before an append: none when the file does not exist yet. */
    function LinesBefore(files: map<string, FileState>): seq<string>
    {
      if logPath in files then files[logPath].lines else []
    }
  }

  /** A logged event is read back by the compressor as the last entry, after everything logged before it. */
  lemma LoggedEventReadsBack(before: seq<string>, record: Object, c: Codec)
    requires HookLogCompressor.LinesRoundTrip(c)
    ensures HookLogCompressor.Entries(before + [c.encode(JObj(record))], c.decode)
         == HookLogCompressor.Entries(before, c.decode) + [JObj(record)]
  {
    HookLogCompressor.EntriesAppend(before, [c.encode(JObj(record))], c.decode);
    HookLogCompressor.ReadBackWritten([JObj(record)], c);
  }

  /** The files whose presence marks a project directory, in the order they are looked for. */
  const PROJECT_MARKERS: seq<string> := [
    ".git", "package.json", "pyproject.toml", "setup.py", "Cargo.toml", "pom.xml", "build.gradle",
    "go.mod", "composer.json", "requirements.txt", "Pipfile", "poetry.lock", "yarn.lock",
    "package-lock.json", ".gitignore"]

  /** Some marker exists in `dir`; `present` says which paths exist. */
  predicate HasMarker(dir: string, present: string -> bool)
  {
    exists i | 0 <= i < |PROJECT_MARKERS| :: present(Paths.Join(dir, PROJECT_MARKERS[i]))
  }

  /**
   * The walk of `find_project_root` from `current` towards `/`: the first
   * directory holding a marker, or `None` when the walk reaches `/` or a
   * directory that is its own parent.
   */
  function MarkedAncestor(current: string, present: string -> bool): (r: Option<string>)
    decreases |current|
  {
    if current == "/" then None
    else if HasMarker(current, present) then Some(current)
    else
      var parent := Paths.Dirname(current);
      if parent == current then None else MarkedAncestor(parent, present)
  }

  /**
   * The directory found holds a marker, is `current` or one of its leading
   * prefixes, and is not `/`; a marked `current` is found itself.
   */
  lemma {:induction false} MarkedAncestorSpec(current: string, present: string -> bool)
    ensures var r := MarkedAncestor(current, present);
      && (r.Some? ==> HasMarker(r.value, present) && |r.value| <= |current| && r.value == current[..|r.value|] && r.value != "/")
      && (current != "/" && HasMarker(current, present) ==> r == Some(current))
      && (r.None? && current != "/" ==> !HasMarker(current, present))
    decreases |current|
  {
    if current != "/" && !HasMarker(current, present) {
      var parent := Paths.Dirname(current);
      if parent != current {
        MarkedAncestorSpec(parent, present);
      }
    }
  }

  /**
   * `find_project_root`'s result: the basename of the git top level when
   * `git` printed a non-blank one, else of the nearest marked directory,
   * else of the starting path.
   */
  function ProjectRootName(startPath: string, absStart: string, gitTop: Option<string>, present: string -> bool): (name: string)
  {
    if gitTop.Some? && Strip(gitTop.value) != "" then Paths.Basename(Strip(gitTop.value))
    else match MarkedAncestor(absStart, present)
      case Some(dir) => Paths.Basename(dir)
      case None => Paths.Basename(startPath)
  }

  /** Which strategy names the project: git first, then markers, then the starting path. */
  lemma ProjectRootNameSources(startPath: string, absStart: string, gitTop: Option<string>, present: string -> bool)
    ensures gitTop.Some? && !IsBlank(gitTop.value) ==> ProjectRootName(startPath, absStart, gitTop, present) == Paths.Basename(Strip(gitTop.value))
    ensures (gitTop.None? || IsBlank(gitTop.value)) && absStart != "/" && HasMarker(absStart, present)
            ==> ProjectRootName(startPath, absStart, gitTop, present) == Paths.Basename(absStart)
    ensures (gitTop.None? || IsBlank(gitTop.value)) && MarkedAncestor(absStart, present).None?
            ==> ProjectRootName(startPath, absStart, gitTop, present) == Paths.Basename(startPath)
  {
    MarkedAncestorSpec(absStart, present);
  }

  /**
   * `find_project_root`. `gitTop` is what `git rev-parse --show-toplevel`
   * printed when it exited with status 0; `absStart` is `os.path.abspath` of
   * the starting path.
   */
  method FindProjectRoot(startPath: Option<string>, cwd: string, absStart: string, gitTop: Option<string>, present: string -> bool)
    returns (name: string)
    ensures name == ProjectRootName(if startPath.None? then cwd else startPath.value, absStart, gitTop, present)
  {
    var start := if startPath.None? then cwd else startPath.value;
    if gitTop.Some? {
      var top := Strip(gitTop.value);
      if top != "" {
        return Paths.Basename(top);
      }
    }
    var current := absStart;
    while current != "/"
      invariant MarkedAncestor(current, present) == MarkedAncestor(absStart, present)
      decreases |current|
    {
      var marked := FirstMarker(current, present);
      if marked {
        return Paths.Basename(current);
      }
      var parent := Paths.Dirname(current);
      if parent == current {
        break;
      }
      current := parent;
    }
    name := Paths.Basename(start);
  }

  /** The inner loop of the walk: whether any marker exists in `dir`. */
  method FirstMarker(dir: string, present: string -> bool) returns (found: bool)
    ensures found == HasMarker(dir, present)
  {
    for i := 0 to |PROJECT_MARKERS|
      invariant forall j | 0 <= j < i :: !present(Paths.Join(dir, PROJECT_MARKERS[j]))
    {
      if present(Paths.Join(dir, PROJECT_MARKERS[i])) {
        return true;
      }
    }
    return false;
  }

  /**
   * `get_project_name_cached`: the resolver's answer for the path (the
   * working directory when none or an empty one is given); when the resolver
   * raises (`resolve` gives `None`), the path's basename, or "unknown" for an
   * empty path.
   */
  function ProjectNameCached(startPath: Option<string>, cwd: string, resolve: string -> Option<string>): (name: string)
  {
    var path := if startPath.None? || startPath.value == "" then cwd else startPath.value;
    match resolve(path)
    case Some(n) => n
    case None => if path != "" then Paths.Basename(path) else "unknown"
  }

  /** The cached lookup asks the resolver about the given path, or the working directory, and falls back only when it raises. */
  lemma ProjectNameCachedSpec(startPath: Option<string>, cwd: string, resolve: string -> Option<string>)
    ensures var path := if startPath.Some? && startPath.value != "" then startPath.value else cwd;
      && (resolve(path).Some? ==> ProjectNameCached(startPath, cwd, resolve) == resolve(path).value)
      && (resolve(path).None? && path != "" ==> ProjectNameCached(startPath, cwd, resolve) == Paths.Basename(path))
      && (resolve(path).None? && path == "" ==> ProjectNameCached(startPath, cwd, resolve) == "unknown")
  {
  }

  /** The event layout the three hooks share: project, session, event type and a type-specific payload. */
  function HookEvent(projectName: string, sessionId: Value, eventType: string, payload: Object): (event: Object)
    ensures event.Keys == {"project_name", "session_id", "event_type", "data"}
    ensures event["project_name"] == JStr(projectName) && event["session_id"] == sessionId
    ensures event["event_type"] == JStr(eventType) && event["data"] == JObj(payload)
  {
    map["project_name" := JStr(projectName), "session_id" := sessionId, "event_type" := JStr(eventType), "data" := JObj(payload)]
  }

  /** How a hook's `main` ends: invalid or empty input logs nothing, a non-object input raises, otherwise one event is appended. */
  datatype HookRun = Skipped | Crashed | Logged(logFile: string, event: Object)

  /** `os.environ.get('CLAUDE_ACTIVITY_LOG_FILE')` when set and non-empty, else the hook's default. */
  function LogFileFor(env: Option<string>, default: string): (path: string)
    ensures env.Some? && env.value != "" ==> path == env.value
    ensures env.None? || env.value == "" ==> path == default
  {
    if env.Some? && env.value != "" then env.value else default
  }
}
