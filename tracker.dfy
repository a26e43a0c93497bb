/**
 * The session activity tracker: the daemon's in-memory list of merged hook
 * sessions, rebuilt from the hook log when its modification-time cache says
 * the log changed, and pruned by the retention and billing-window cleanups.
 */
module Tracker {
  import opened Wrappers
  import opened Timestamps
  import opened DataModels
  import opened Files
  import opened HookLogParser
  import opened TrackerSpec

  /** The sessions parsed from each of the given log files, in order; a missing file gives none. */
  function FilesSessions(paths: seq<string>, files: map<string, FileState>, libs: Libraries): seq<ActivitySession>
  {
    if paths == [] then []
    else
      var last := paths[|paths| - 1];
      FilesSessions(paths[..|paths| - 1], files, libs)
        + (if last in files then LogSessions(files[last].lines, libs) else [])
  }

  function PathSet(paths: seq<string>): (r: set<string>)
    ensures forall f :: f in r <==> f in paths
  {
    if paths == [] then {} else PathSet(paths[..|paths| - 1]) + {paths[|paths| - 1]}
  }

  lemma FilesSessionsStep(paths: seq<string>, i: nat, files: map<string, FileState>, libs: Libraries)
    requires i < |paths|
    ensures FilesSessions(paths[..i + 1], files, libs) == FilesSessions(paths[..i], files, libs)
      + (if paths[i] in files then LogSessions(files[paths[i]].lines, libs) else [])
    ensures PathSet(paths[..i + 1]) == PathSet(paths[..i]) + {paths[i]}
  {
    assert paths[..i + 1][..i] == paths[..i];
  }

  /** The billing window that `cleanup_completed_billing_sessions` keeps. */
  const BILLING_SESSION_HOURS := 5

  class SessionActivityTracker {
    /** The parsing libraries, the smart status rule and the ISO formatter. */
    const libs: Libraries
    const smart: SmartStatus
    const iso: IsoCodec
    /** The hook log's path and the default retention in days (both configured outside this file). */
    const logPath: string
    const retentionDays: int

    var sessions: seq<ActivitySession>
    var lastCacheUpdate: Option<int>
    var mtimes: map<string, int>
    var processed: set<string>
    var filesProcessed: nat
    var sessionsParsed: nat
    var cacheHits: nat
    var cacheMisses: nat

    constructor(libs: Libraries, smart: SmartStatus, iso: IsoCodec, logPath: string, retentionDays: int)
      ensures this.libs == libs && this.smart == smart && this.iso == iso
      ensures this.logPath == logPath && this.retentionDays == retentionDays
      ensures sessions == [] && lastCacheUpdate == None && mtimes == map[] && processed == {}
      ensures filesProcessed == 0 && sessionsParsed == 0 && cacheHits == 0 && cacheMisses == 0
    {
      this.libs := libs;
      this.smart := smart;
      this.iso := iso;
      this.logPath := logPath;
      this.retentionDays := retentionDays;
      sessions := [];
      lastCacheUpdate := None;
      mtimes := map[];
      processed := {};
      filesProcessed, sessionsParsed, cacheHits, cacheMisses := 0, 0, 0, 0;
    }

    /** `get_active_sessions`: the stored sessions whose status is ACTIVE, in order. */
    function ActiveSessions(): (r: seq<ActivitySession>)
      reads this
      ensures forall x :: x in r <==> x in sessions && x.status == ACTIVE
    {
      WithStatus(sessions, ACTIVE)
    }

    /** `get_sessions_by_status`. */
    function SessionsByStatus(status: string): (r: seq<ActivitySession>)
      reads this
      ensures forall x :: x in r <==> x in sessions && x.status == status
    {
      WithStatus(sessions, status)
    }

    /** `get_recent_sessions`: those started within the last `hours` hours, a day by default. */
    function RecentSessions(now: int, hours: int := 24): (r: seq<ActivitySession>)
      reads this
      ensures forall x :: x in r <==> x in sessions && x.startTime >= now - hours * HOUR
    {
      CutoffMembers(sessions, now - hours * HOUR);
      StartedSince(sessions, now - hours * HOUR)
    }

    /** `get_sessions_for_period`: the sessions overlapping `[start, end]`, in order. */
    method SessionsForPeriod(start: int, end: int, now: int) returns (r: seq<ActivitySession>)
      ensures r == InPeriod(sessions, start, end, now)
    {
      r := [];
      var i := 0;
      while i < |sessions|
        invariant 0 <= i <= |sessions|
        invariant r == InPeriod(sessions[..i], start, end, now)
      {
        assert sessions[..i + 1][..i] == sessions[..i];
        var x := sessions[i];
        var sessionEnd := if x.endTime.Some? then x.endTime.value else now;
        if x.startTime <= end && sessionEnd >= start {
          r := r + [x];
        }
        i := i + 1;
      }
      assert sessions[..i] == sessions;
    }

    /** `get_session_by_id`: the first session with that id. */
    method SessionById(id: string) returns (r: Option<ActivitySession>)
      ensures r.None? <==> forall i | 0 <= i < |sessions| :: sessions[i].sessionId != id
      ensures r.Some? ==> exists i | 0 <= i < |sessions| ::
        sessions[i] == r.value && sessions[i].sessionId == id
        && forall j | 0 <= j < i :: sessions[j].sessionId != id
    {
      var i := 0;
      while i < |sessions|
        invariant 0 <= i <= |sessions|
        invariant forall j | 0 <= j < i :: sessions[j].sessionId != id
      {
        if sessions[i].sessionId == id {
          return Some(sessions[i]);
        }
        i := i + 1;
      }
      return None;
    }

    /** `get_session_by_project`: the first session of that project. */
    method SessionByProject(project: string) returns (r: Option<ActivitySession>)
      ensures r.None? <==> forall i | 0 <= i < |sessions| :: sessions[i].projectName != project
      ensures r.Some? ==> exists i | 0 <= i < |sessions| ::
        sessions[i] == r.value && sessions[i].projectName == project
        && forall j | 0 <= j < i :: sessions[j].projectName != project
    {
      var i := 0;
      while i < |sessions|
        invariant 0 <= i <= |sessions|
        invariant forall j | 0 <= j < i :: sessions[j].projectName != project
      {
        if sessions[i].projectName == project {
          return Some(sessions[i]);
        }
        i := i + 1;
      }
      return None;
    }

    /**
     * `_merge_sessions`: groups the events by project in a dictionary that
     * keeps first-insertion order, then builds one merged session per group.
     */
    method MergeSessions(events: seq<ActivitySession>, now: int) returns (merged: seq<ActivitySession>)
      ensures merged == Merge(events, smart, iso, now)
    {
      var groups, order := GroupEvents(events);
      merged := [];
      var j := 0;
      while j < |order|
        invariant 0 <= j <= |order|
        invariant merged == MergeKeys(events, order[..j], smart, iso, now)
      {
        MergeKeysStep(events, order, j, smart, iso, now);
        var group := groups[order[j]];
        merged := merged + [MergeGroup(order[j], group, smart, iso, now)];
        j := j + 1;
      }
      assert order[..j] == order;
    }

    /** The grouping loop of `_merge_sessions`: project names in first-seen order, each with its events. */
    static method GroupEvents(events: seq<ActivitySession>) returns (groups: map<string, seq<ActivitySession>>, order: seq<string>)
      ensures order == GroupKeys(events)
      ensures forall k :: k in groups <==> k in order
      ensures forall k | k in groups :: groups[k] == GroupOf(events, k)
    {
      groups, order := map[], [];
      var i := 0;
      while i < |events|
        invariant 0 <= i <= |events|
        invariant order == GroupKeys(events[..i])
        invariant forall k :: k in groups <==> k in order
        invariant forall k | k in groups :: groups[k] == GroupOf(events[..i], k)
      {
        GroupKeysStep(events, i);
        forall k ensures GroupOf(events[..i + 1], k) == GroupOf(events[..i], k) + (if events[i].projectName == k then [events[i]] else []) {
          GroupOfStep(events, i, k);
        }
        var p := events[i].projectName;
        if p !in groups {
          groups := groups[p := []];
          order := order + [p];
        }
        groups := groups[p := groups[p] + [events[i]]];
        i := i + 1;
      }
      assert events[..i] == events;
    }

    /**
     * `_is_cache_valid`: false before the first refresh and on the first
     * stale file, whose newer time it records; true otherwise.
     */
    method IsCacheValid(paths: seq<string>, fs: FileSystem) returns (valid: bool)
      modifies this`mtimes
      ensures CacheCheck(lastCacheUpdate, paths, fs.files, old(mtimes)) == CacheVerdict(valid, mtimes)
    {
      if lastCacheUpdate.None? {
        return false;
      }
      var i := 0;
      while i < |paths|
        invariant 0 <= i <= |paths|
        invariant mtimes == old(mtimes)
        invariant CheckFiles(paths, fs.files, mtimes) == CheckFiles(paths[i..], fs.files, mtimes)
      {
        assert paths[i..][1..] == paths[i + 1..];
        var f := paths[i];
        if f !in fs.files || fs.files[f].mtime.None? {
          return false;
        }
        var current := fs.files[f].mtime.value;
        if current > CachedMtime(mtimes, f) {
          mtimes := mtimes[f := current];
          return false;
        }
        i := i + 1;
      }
      return true;
    }

    /** The re-parsing loop of `update_from_log_files`: every log in order, each marked processed. */
    method ReparseLogs(paths: seq<string>, fs: FileSystem) returns (all: seq<ActivitySession>, count: nat)
      modifies this`processed
      ensures all == FilesSessions(paths, fs.files, libs) && count == |paths|
      ensures processed == old(processed) + PathSet(paths)
    {
      all, count := [], 0;
      var i := 0;
      while i < |paths|
        invariant 0 <= i <= |paths| && count == i
        invariant all == FilesSessions(paths[..i], fs.files, libs)
        invariant processed == old(processed) + PathSet(paths[..i])
      {
        FilesSessionsStep(paths, i, fs.files, libs);
        var parsed := ParseLogFile(LinesOf(fs.files, paths[i]), libs);
        all := all + parsed;
        processed := processed + {paths[i]};
        count := count + 1;
        i := i + 1;
      }
      assert paths[..i] == paths;
    }

    /**
     * `update_from_log_files`: on a valid cache (and no force) only the hit
     * counter moves; otherwise every discovered log is re-parsed, and the
     * merged result replaces the list when some event was parsed or the
     * update was forced. The result is `True`: the `False` of the source
     * comes only from an exception, and no step modelled here raises.
     */
    method UpdateFromLogFiles(force: bool, now: int, fs: FileSystem) returns (ok: bool)
      modifies this
      ensures ok
      ensures mtimes == Verdict(force, old(lastCacheUpdate), fs.files, old(mtimes)).mtimes
      ensures Verdict(force, old(lastCacheUpdate), fs.files, old(mtimes)).valid ==>
        && cacheHits == old(cacheHits) + 1 && cacheMisses == old(cacheMisses)
        && sessions == old(sessions) && lastCacheUpdate == old(lastCacheUpdate)
        && processed == old(processed)
        && filesProcessed == old(filesProcessed) && sessionsParsed == old(sessionsParsed)
      ensures !Verdict(force, old(lastCacheUpdate), fs.files, old(mtimes)).valid ==>
        && cacheHits == old(cacheHits) && cacheMisses == old(cacheMisses) + 1
        && processed == old(processed) + PathSet(Discover(fs.files, logPath))
      ensures !Verdict(force, old(lastCacheUpdate), fs.files, old(mtimes)).valid && (Reparsed(fs.files) != [] || force) ==>
        && sessions == Merge(Reparsed(fs.files), smart, iso, now) && lastCacheUpdate == Some(now)
        && filesProcessed == old(filesProcessed) + |Discover(fs.files, logPath)|
        && sessionsParsed == old(sessionsParsed) + |Reparsed(fs.files)|
      ensures !Verdict(force, old(lastCacheUpdate), fs.files, old(mtimes)).valid && Reparsed(fs.files) == [] && !force ==>
        && sessions == old(sessions) && lastCacheUpdate == old(lastCacheUpdate)
        && filesProcessed == old(filesProcessed) && sessionsParsed == old(sessionsParsed)
    {
      ok := true;
      var paths := if logPath in fs.files then [logPath] else [];
      assert paths == Discover(fs.files, logPath);
      ghost var verdict := Verdict(force, lastCacheUpdate, fs.files, mtimes);
      var valid := false;
      if !force {
        valid := IsCacheValid(paths, fs);
      }
      assert valid == verdict.valid && mtimes == verdict.mtimes;
      if valid {
        cacheHits := cacheHits + 1;
      } else {
        cacheMisses := cacheMisses + 1;
        var all, count := ReparseLogs(paths, fs);
        if all != [] || force {
          sessions := MergeSessions(all, now);
          lastCacheUpdate := Some(now);
          filesProcessed := filesProcessed + count;
          sessionsParsed := sessionsParsed + |all|;
        }
      }
    }

    /** Every event of the discovered logs, in file and line order. */
    function Reparsed(files: map<string, FileState>): seq<ActivitySession>
      reads this
    {
      FilesSessions(Discover(files, logPath), files, libs)
    }

    /** The cache verdict `update_from_log_files` acts on: a forced update skips the check. */
    function Verdict(force: bool, lastUpdate: Option<int>, files: map<string, FileState>, mtimes: map<string, int>): CacheVerdict
      reads this
    {
      if force then CacheVerdict(false, mtimes) else CacheCheck(lastUpdate, Discover(files, logPath), files, mtimes)
    }

    /** `clear_cache`: forgets the refresh stamp, the file times and the processed set, keeping the sessions. */
    method ClearCache()
      modifies this
      ensures processed == {} && mtimes == map[] && lastCacheUpdate == None
      ensures sessions == old(sessions)
      ensures filesProcessed == old(filesProcessed) && sessionsParsed == old(sessionsParsed)
      ensures cacheHits == old(cacheHits) && cacheMisses == old(cacheMisses)
    {
      processed := {};
      mtimes := map[];
      lastCacheUpdate := None;
    }

    /** `cleanup_old_sessions`: keeps the sessions started within the retention period, in order. */
    method CleanupOldSessions(days: Option<int>, now: int)
      modifies this`sessions
      ensures var d := if days.Some? then days.value else retentionDays;
        sessions == StartedSince(old(sessions), now - d * DAY)
    {
      var d := if days.Some? then days.value else retentionDays;
      var cutoff := now - d * DAY;
      sessions := StartedSince(sessions, cutoff);
    }

    /**
     * `cleanup_completed_billing_sessions`: once some session is older than
     * the 5-hour window the list keeps only the in-window ones; when none
     * is left and the log exists, the log is emptied and the cache reset.
     */
    method CleanupCompletedBillingSessions(now: int, fs: FileSystem)
      modifies this, fs
      ensures BillingCleaned(now, logPath, old(sessions), old(fs.files), old(mtimes), old(lastCacheUpdate),
                             sessions, fs.files, mtimes, lastCacheUpdate)
      ensures processed == old(processed) && cacheHits == old(cacheHits) && cacheMisses == old(cacheMisses)
      ensures filesProcessed == old(filesProcessed) && sessionsParsed == old(sessionsParsed)
    {
      var cutoff := now - BILLING_SESSION_HOURS * HOUR;
      var recent := StartedSince(sessions, cutoff);
      var stale := StartedBefore(sessions, cutoff);
      if stale != [] {
        sessions := recent;
        if recent == [] && logPath in fs.files {
          fs.files := fs.files[logPath := FileState([], Some(now))];
          mtimes := map[];
          lastCacheUpdate := None;
        }
      }
    }
  }

  /**
   * The effect of `cleanup_completed_billing_sessions`, from the state before
   * (`s0`, `f0`, `m0`, `l0`: sessions, files, file times, refresh stamp) to
   * the state after.
   */
  predicate BillingCleaned(now: int, logPath: string,
                           s0: seq<ActivitySession>, f0: map<string, FileState>, m0: map<string, int>, l0: Option<int>,
                           s1: seq<ActivitySession>, f1: map<string, FileState>, m1: map<string, int>, l1: Option<int>)
  {
    var cutoff := now - BILLING_SESSION_HOURS * HOUR;
    var recent := StartedSince(s0, cutoff);
    var stale := StartedBefore(s0, cutoff);
    var truncate := stale != [] && recent == [] && logPath in f0;
    && s1 == (if stale != [] then recent else s0)
    && (truncate ==> f1 == f0[logPath := FileState([], Some(now))] && m1 == map[] && l1 == None)
    && (!truncate ==> f1 == f0 && m1 == m0 && l1 == l0)
  }

  /** With no sessions stored, the billing clean-up has nothing outside the window and changes nothing. */
  lemma EmptyBillingCleanupKeeps(now: int, logPath: string, f0: map<string, FileState>, m0: map<string, int>, l0: Option<int>,
                                 s1: seq<ActivitySession>, f1: map<string, FileState>, m1: map<string, int>, l1: Option<int>)
    requires BillingCleaned(now, logPath, [], f0, m0, l0, s1, f1, m1, l1)
    ensures s1 == [] && f1 == f0 && m1 == m0 && l1 == l0
  {
  }

  /** An update that finds the cache valid neither reparses nor changes the sessions. */
  lemma ValidCacheKeepsSessions(lastUpdate: Option<int>, paths: seq<string>, files: map<string, FileState>, mtimes: map<string, int>)
    requires lastUpdate.Some? && forall i | 0 <= i < |paths| :: !Stale(paths[i], files, mtimes)
    ensures CacheCheck(lastUpdate, paths, files, mtimes) == CacheVerdict(true, mtimes)
  {
  }

  /**
   * The billing cleanup never empties the log while some session is inside
   * the window, and never touches anything when no session is outside it.
   */
  lemma BillingCleanupKeepsRecent(s: seq<ActivitySession>, cutoff: int)
    ensures StartedBefore(s, cutoff) == [] ==> StartedSince(s, cutoff) == s
    ensures StartedSince(s, cutoff) == [] && s != [] ==> StartedBefore(s, cutoff) == s
  {
    CutoffPartition(s, cutoff);
    if StartedSince(s, cutoff) == [] && s != [] {
      StartedBeforeAll(s, cutoff);
    }
  }

  lemma {:induction false} StartedBeforeAll(s: seq<ActivitySession>, cutoff: int)
    requires StartedSince(s, cutoff) == []
    ensures StartedBefore(s, cutoff) == s
  {
    if s != [] {
      var init, last := s[..|s| - 1], s[|s| - 1];
      assert |StartedSince(s, cutoff)| == |StartedSince(init, cutoff)| + (if last.startTime >= cutoff then 1 else 0);
      StartedBeforeAll(init, cutoff);
      assert StartedBefore(s, cutoff) == init + [last];
      assert s == init + [last];
    }
  }
}
