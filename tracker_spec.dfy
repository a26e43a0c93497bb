/**
 * The values the session activity tracker computes: grouping of hook events
 * by project, the merged session of each group, the order-preserving
 * filters behind its queries and cleanups, and the cache-validity verdict.
 */
module TrackerSpec {
  import opened Wrappers
  import opened Json
  import opened Timestamps
  import opened DataModels
  import opened StableSort
  import opened Files

  function StartOf(a: ActivitySession): int
  {
    a.startTime
  }

  /** The events of one project, in the order they were read. */
  function GroupOf(s: seq<ActivitySession>, p: string): (r: seq<ActivitySession>)
    ensures |r| <= |s|
  {
    if s == [] then []
    else GroupOf(s[..|s| - 1], p) + (if s[|s| - 1].projectName == p then [s[|s| - 1]] else [])
  }

  /** A project's group holds exactly the events of that project. */
  lemma {:induction false} GroupOfMembers(s: seq<ActivitySession>, p: string)
    ensures forall x :: x in GroupOf(s, p) <==> x in s && x.projectName == p
  {
    if s != [] {
      GroupOfMembers(s[..|s| - 1], p);
      assert s == s[..|s| - 1] + [s[|s| - 1]];
    }
  }

  lemma GroupOfStep(s: seq<ActivitySession>, i: nat, p: string)
    requires i < |s|
    ensures GroupOf(s[..i + 1], p) == GroupOf(s[..i], p) + (if s[i].projectName == p then [s[i]] else [])
  {
    assert s[..i + 1][..i] == s[..i];
  }

  /** The distinct project names, in the order of their first event (the key order of a Python dict). */
  function GroupKeys(s: seq<ActivitySession>): (r: seq<string>)
    ensures forall p :: p in r <==> |GroupOf(s, p)| > 0
    ensures forall i, j | 0 <= i < j < |r| :: r[i] != r[j]
  {
    if s == [] then []
    else
      var k := GroupKeys(s[..|s| - 1]);
      assert forall p :: |GroupOf(s, p)| > 0 <==> |GroupOf(s[..|s| - 1], p)| > 0 || s[|s| - 1].projectName == p;
      if s[|s| - 1].projectName in k then k else k + [s[|s| - 1].projectName]
  }

  /**
   * The smart status decision. `_merge_sessions` calls
   * `ActivitySessionData.calculate_smart_status`, which the dataclass does not
   * define; here it is a function of a group's events and the current time,
   * constrained only by the two cases the tracker's tests fix.
   */
  type SmartStatus = (seq<ActivitySession>, int) -> string

  /** A latest event that is a stop at most 30 s old means the assistant waits for the user. */
  predicate RecentStop(events: seq<ActivitySession>, now: int)
    requires |events| > 0
  {
    var last := LastMax(events, StartOf);
    last.status == STOPPED && now - 30 * SECOND <= last.startTime <= now
  }

  /** A single stop an hour old or more means the session went quiet. */
  predicate LoneOldStop(events: seq<ActivitySession>, now: int)
  {
    |events| == 1 && events[0].status == STOPPED && events[0].startTime <= now - HOUR
  }

  ghost predicate SmartMeetsTests(smart: SmartStatus)
  {
    && (forall events, now | |events| > 0 && RecentStop(events, now) :: smart(events, now) == WAITING_FOR_USER)
    && (forall events, now | LoneOldStop(events, now) :: smart(events, now) == INACTIVE)
  }

  function EventEntry(e: ActivitySession, iso: IsoCodec): Value
  {
    JObj(map["type" := OptionalString(e.eventType), "time" := JStr(iso.format(e.startTime))])
  }

  function EventEntries(sorted: seq<ActivitySession>, iso: IsoCodec): (r: seq<Value>)
    ensures |r| == |sorted|
    ensures forall i | 0 <= i < |r| :: r[i] == EventEntry(sorted[i], iso)
  {
    if sorted == [] then [] else EventEntries(sorted[..|sorted| - 1], iso) + [EventEntry(sorted[|sorted| - 1], iso)]
  }

  /** The one session standing for a project's events. */
  function MergeGroup(p: string, events: seq<ActivitySession>, smart: SmartStatus, iso: IsoCodec, now: int): ActivitySession
    requires |events| > 0
  {
    var sorted := Sort(events, StartOf);
    var first := sorted[0];
    var last := sorted[|sorted| - 1];
    var status := smart(events, now);
    ActivitySession(
      projectName := p,
      sessionId := first.sessionId,
      startTime := first.startTime,
      status := status,
      eventType := last.eventType,
      endTime := if status == INACTIVE then Some(last.startTime) else None,
      metadata := Some(map[
        "event_count" := JInt(|events|),
        "last_event_time" := JStr(iso.format(last.startTime)),
        "events" := JList(EventEntries(sorted, iso))]))
  }

  /**
   * The merged session takes its id and start from the earliest event (the
   * first of equal start times), its event type from the latest (the last
   * of equal start times), and counts the group's events.
   */
  lemma MergeGroupFacts(p: string, events: seq<ActivitySession>, smart: SmartStatus, iso: IsoCodec, now: int)
    requires |events| > 0
    ensures var m := MergeGroup(p, events, smart, iso, now);
      && m.projectName == p
      && m.sessionId == FirstMin(events, StartOf).sessionId
      && m.startTime == FirstMin(events, StartOf).startTime
      && (forall i | 0 <= i < |events| :: m.startTime <= events[i].startTime)
      && m.eventType == LastMax(events, StartOf).eventType
      && m.status == smart(events, now)
      && (m.status == INACTIVE ==> m.endTime == Some(LastMax(events, StartOf).startTime))
      && (m.status != INACTIVE ==> m.endTime == None)
      && m.metadata.Some? && "event_count" in m.metadata.value
      && m.metadata.value["event_count"] == JInt(|events|)
  {
    SortFirst(events, StartOf);
    SortLast(events, StartOf);
    var k := FirstMinAt(events, StartOf);
  }

  /** The merged sessions for the given project names, in that order. */
  function MergeKeys(s: seq<ActivitySession>, keys: seq<string>, smart: SmartStatus, iso: IsoCodec, now: int): (r: seq<ActivitySession>)
    requires forall k | k in keys :: |GroupOf(s, k)| > 0
    ensures |r| == |keys|
  {
    if keys == [] then []
    else
      var k := keys[|keys| - 1];
      MergeKeys(s, keys[..|keys| - 1], smart, iso, now) + [MergeGroup(k, GroupOf(s, k), smart, iso, now)]
  }

  lemma {:induction false} MergeKeysAt(s: seq<ActivitySession>, keys: seq<string>, smart: SmartStatus, iso: IsoCodec, now: int, i: nat)
    requires forall k | k in keys :: |GroupOf(s, k)| > 0
    requires i < |keys|
    ensures MergeKeys(s, keys, smart, iso, now)[i] == MergeGroup(keys[i], GroupOf(s, keys[i]), smart, iso, now)
    decreases |keys|
  {
    if i < |keys| - 1 {
      MergeKeysAt(s, keys[..|keys| - 1], smart, iso, now, i);
    }
  }

  function ProjectsOf(s: seq<ActivitySession>): set<string>
  {
    set x | x in s :: x.projectName
  }

  lemma GroupKeysStep(s: seq<ActivitySession>, i: nat)
    requires i < |s|
    ensures GroupKeys(s[..i + 1]) ==
      if s[i].projectName in GroupKeys(s[..i]) then GroupKeys(s[..i]) else GroupKeys(s[..i]) + [s[i].projectName]
  {
    assert s[..i + 1][..i] == s[..i];
  }

  lemma MergeKeysStep(s: seq<ActivitySession>, keys: seq<string>, j: nat, smart: SmartStatus, iso: IsoCodec, now: int)
    requires j < |keys| && forall k | k in keys :: |GroupOf(s, k)| > 0
    ensures MergeKeys(s, keys[..j + 1], smart, iso, now)
      == MergeKeys(s, keys[..j], smart, iso, now) + [MergeGroup(keys[j], GroupOf(s, keys[j]), smart, iso, now)]
  {
    assert keys[..j + 1][..j] == keys[..j];
  }

  /** `_merge_sessions`: one merged session per project, in first-appearance order. */
  function Merge(s: seq<ActivitySession>, smart: SmartStatus, iso: IsoCodec, now: int): seq<ActivitySession>
  {
    MergeKeys(s, GroupKeys(s), smart, iso, now)
  }

  /** Exactly one merged session per project that has an event, and no other. */
  lemma MergeOnePerProject(s: seq<ActivitySession>, smart: SmartStatus, iso: IsoCodec, now: int)
    ensures var m := Merge(s, smart, iso, now);
      && (forall i, j | 0 <= i < j < |m| :: m[i].projectName != m[j].projectName)
      && ProjectsOf(m) == ProjectsOf(s)
  {
    var m := Merge(s, smart, iso, now);
    var keys := GroupKeys(s);
    forall i | 0 <= i < |m| ensures m[i].projectName == keys[i] {
      MergeKeysAt(s, keys, smart, iso, now, i);
      MergeGroupFacts(keys[i], GroupOf(s, keys[i]), smart, iso, now);
    }
    forall p | p in ProjectsOf(s) ensures p in ProjectsOf(m) {
      var x :| x in s && x.projectName == p;
      GroupOfMembers(s, p);
      assert x in GroupOf(s, p);
      var i :| 0 <= i < |keys| && keys[i] == p;
      assert m[i] in m;
    }
    forall p | p in ProjectsOf(m) ensures p in ProjectsOf(s) {
      var y :| y in m && y.projectName == p;
      var i :| 0 <= i < |m| && m[i] == y;
      GroupOfMembers(s, p);
      assert GroupOf(s, p)[0] in GroupOf(s, p);
    }
  }

  /** The merged session of each project carries that project's event count and earliest start. */
  lemma MergeCounts(s: seq<ActivitySession>, smart: SmartStatus, iso: IsoCodec, now: int, i: nat)
    requires i < |Merge(s, smart, iso, now)|
    ensures var m := Merge(s, smart, iso, now)[i];
      var g := GroupOf(s, m.projectName);
      && |g| > 0
      && m.metadata.Some? && "event_count" in m.metadata.value
      && m.metadata.value["event_count"] == JInt(|g|)
      && (forall j | 0 <= j < |g| :: m.startTime <= g[j].startTime)
  {
    var keys := GroupKeys(s);
    MergeKeysAt(s, keys, smart, iso, now, i);
    MergeGroupFacts(keys[i], GroupOf(s, keys[i]), smart, iso, now);
  }

  /** A project whose latest event is a stop at most 30 s old merges to WAITING_FOR_USER. */
  lemma MergeRecentStop(s: seq<ActivitySession>, smart: SmartStatus, iso: IsoCodec, now: int, i: nat)
    requires SmartMeetsTests(smart)
    requires i < |Merge(s, smart, iso, now)|
    requires var g := GroupOf(s, Merge(s, smart, iso, now)[i].projectName); |g| > 0 && RecentStop(g, now)
    ensures Merge(s, smart, iso, now)[i].status == WAITING_FOR_USER
    ensures Merge(s, smart, iso, now)[i].endTime == None
  {
    var keys := GroupKeys(s);
    var g := GroupOf(s, keys[i]);
    MergeKeysAt(s, keys, smart, iso, now, i);
    MergeGroupFacts(keys[i], g, smart, iso, now);
    assert smart(g, now) == WAITING_FOR_USER;
  }

  /** A project whose only event is a stop an hour old merges to INACTIVE, ended at that stop. */
  lemma MergeOldStop(s: seq<ActivitySession>, smart: SmartStatus, iso: IsoCodec, now: int, i: nat)
    requires SmartMeetsTests(smart)
    requires i < |Merge(s, smart, iso, now)|
    requires LoneOldStop(GroupOf(s, Merge(s, smart, iso, now)[i].projectName), now)
    ensures var m := Merge(s, smart, iso, now)[i];
      m.status == INACTIVE && m.endTime == Some(m.startTime)
  {
    var keys := GroupKeys(s);
    var g := GroupOf(s, keys[i]);
    MergeKeysAt(s, keys, smart, iso, now, i);
    MergeGroupFacts(keys[i], g, smart, iso, now);
    assert smart(g, now) == INACTIVE;
    assert LastMax(g, StartOf) == g[0] == FirstMin(g, StartOf);
  }

  /** The sessions with the given status, in stored order. */
  function WithStatus(s: seq<ActivitySession>, status: string): (r: seq<ActivitySession>)
    ensures |r| <= |s|
    ensures forall x :: x in r <==> x in s && x.status == status
  {
    if s == [] then []
    else WithStatus(s[..|s| - 1], status) + (if s[|s| - 1].status == status then [s[|s| - 1]] else [])
  }

  /** The sessions that started at or after `cutoff`, in stored order. */
  function StartedSince(s: seq<ActivitySession>, cutoff: int): (r: seq<ActivitySession>)
    ensures |r| <= |s|
  {
    if s == [] then []
    else StartedSince(s[..|s| - 1], cutoff) + (if s[|s| - 1].startTime >= cutoff then [s[|s| - 1]] else [])
  }

  /** The sessions that started before `cutoff`, in stored order. */
  function StartedBefore(s: seq<ActivitySession>, cutoff: int): (r: seq<ActivitySession>)
    ensures |r| <= |s|
  {
    if s == [] then []
    else StartedBefore(s[..|s| - 1], cutoff) + (if s[|s| - 1].startTime < cutoff then [s[|s| - 1]] else [])
  }

  /** The sessions kept by a cutoff are exactly those started at or after it; the others started before it. */
  lemma {:induction false} CutoffMembers(s: seq<ActivitySession>, cutoff: int)
    ensures forall x :: x in StartedSince(s, cutoff) <==> x in s && x.startTime >= cutoff
    ensures forall x :: x in StartedBefore(s, cutoff) <==> x in s && x.startTime < cutoff
  {
    if s != [] {
      CutoffMembers(s[..|s| - 1], cutoff);
      assert s == s[..|s| - 1] + [s[|s| - 1]];
    }
  }

  /**
   * A cutoff splits the sessions in two: the counts add up, and nothing
   * started before it exactly when every session is kept.
   */
  lemma {:induction false} CutoffPartition(s: seq<ActivitySession>, cutoff: int)
    ensures |StartedSince(s, cutoff)| + |StartedBefore(s, cutoff)| == |s|
    ensures StartedBefore(s, cutoff) == [] <==> StartedSince(s, cutoff) == s
  {
    if s != [] {
      CutoffPartition(s[..|s| - 1], cutoff);
      assert s[..|s| - 1] + [s[|s| - 1]] == s;
    }
  }

  /** Filtering keeps relative order: the filter of a concatenation is the concatenation of the filters. */
  lemma {:induction false} StartedSinceAppend(a: seq<ActivitySession>, b: seq<ActivitySession>, cutoff: int)
    ensures StartedSince(a + b, cutoff) == StartedSince(a, cutoff) + StartedSince(b, cutoff)
    decreases |b|
  {
    if b == [] {
      assert a + b == a;
    } else {
      assert (a + b)[..|a + b| - 1] == a + b[..|b| - 1];
      StartedSinceAppend(a, b[..|b| - 1], cutoff);
    }
  }

  /** A session overlaps `[start, end]`; an open session extends to `now`. */
  predicate Overlaps(x: ActivitySession, start: int, end: int, now: int)
  {
    x.startTime <= end && (if x.endTime.Some? then x.endTime.value else now) >= start
  }

  /** `get_sessions_for_period`, as a value. */
  function InPeriod(s: seq<ActivitySession>, start: int, end: int, now: int): (r: seq<ActivitySession>)
    ensures |r| <= |s|
    ensures forall x :: x in r <==> x in s && Overlaps(x, start, end, now)
  {
    if s == [] then []
    else InPeriod(s[..|s| - 1], start, end, now) + (if Overlaps(s[|s| - 1], start, end, now) then [s[|s| - 1]] else [])
  }

  /** The only log file the tracker looks for, when it exists. */
  function Discover(files: map<string, FileState>, logPath: string): (r: seq<string>)
    ensures forall f :: f in r <==> f == logPath && logPath in files
  {
    if logPath in files then [logPath] else []
  }

  /** `self._file_modification_times.get(path, 0)`. */
  function CachedMtime(mtimes: map<string, int>, path: string): int
  {
    if path in mtimes then mtimes[path] else 0
  }

  /** A file is stale when its time cannot be read or is newer than the cached one. */
  predicate Stale(f: string, files: map<string, FileState>, mtimes: map<string, int>)
  {
    f !in files || files[f].mtime.None? || files[f].mtime.value > CachedMtime(mtimes, f)
  }

  datatype CacheVerdict = CacheVerdict(valid: bool, mtimes: map<string, int>)

  /**
   * The file scan of `_is_cache_valid`: the first stale file makes the cache
   * invalid, and a readable newer time is recorded for that file only.
   */
  function CheckFiles(paths: seq<string>, files: map<string, FileState>, mtimes: map<string, int>): (r: CacheVerdict)
    ensures r.valid <==> forall i | 0 <= i < |paths| :: !Stale(paths[i], files, mtimes)
    ensures r.valid ==> r.mtimes == mtimes
    ensures r.mtimes == mtimes || exists i | 0 <= i < |paths| ::
      paths[i] in files && files[paths[i]].mtime.Some? && r.mtimes == mtimes[paths[i] := files[paths[i]].mtime.value]
  {
    if paths == [] then CacheVerdict(true, mtimes)
    else
      var f := paths[0];
      if f !in files || files[f].mtime.None? then CacheVerdict(false, mtimes)
      else if files[f].mtime.value > CachedMtime(mtimes, f) then CacheVerdict(false, mtimes[f := files[f].mtime.value])
      else
        var r := CheckFiles(paths[1..], files, mtimes);
        assert forall i | 1 <= i < |paths| :: paths[i] == paths[1..][i - 1];
        r
  }

  /** `_is_cache_valid`: never valid before the first refresh. */
  function CacheCheck(lastUpdate: Option<int>, paths: seq<string>, files: map<string, FileState>, mtimes: map<string, int>): (r: CacheVerdict)
    ensures r.valid <==> lastUpdate.Some? && forall i | 0 <= i < |paths| :: !Stale(paths[i], files, mtimes)
    ensures lastUpdate.None? ==> r.mtimes == mtimes
  {
    if lastUpdate.None? then CacheVerdict(false, mtimes) else CheckFiles(paths, files, mtimes)
  }

  /** After a stale file's newer time is recorded, that file no longer makes the cache stale. */
  lemma RecordedFileFresh(f: string, files: map<string, FileState>, mtimes: map<string, int>)
    requires f in files && files[f].mtime.Some?
    ensures !Stale(f, files, mtimes[f := files[f].mtime.value])
  {
  }
}
