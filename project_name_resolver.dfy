/**
 * The project-name resolver: a working directory is named after the project
 * the cache remembers for it, else after its git repository (and the cache
 * learns that), else after its own basename. Finding the git root is an
 * oracle, and Python's truthiness tests are written out: an empty cached
 * name counts as a miss and an empty git root as no root.
 */
module ProjectNameResolver {
  import opened Wrappers
  import Paths
  import GitResolver
  import opened ProjectModels

  /** Where the first project whose root is `path` stands, or `|d|` when there is none. */
  function FirstRoot(d: CacheData, path: string): (k: nat)
    ensures k <= |d|
    ensures k < |d| ==> d[k].info.gitRoot == path
    ensures forall i | 0 <= i < k :: d[i].info.gitRoot != path
  {
    if d == [] then 0
    else if d[0].info.gitRoot == path then 0
    else
      var k := FirstRoot(d[1..], path);
      assert forall i | 1 <= i < |d| :: d[i] == d[1..][i - 1];
      k + 1
  }

  /** `_lookup_in_cache` on loaded data: a project rooted at the path, else one listing it as an alias. */
  function CacheLookup(d: CacheData, cwd: string): (r: Option<string>)
    ensures r.None? <==> forall i | 0 <= i < |d| :: d[i].info.gitRoot != cwd && cwd !in d[i].info.aliases
    ensures r.Some? ==> exists i | 0 <= i < |d| :: d[i].name == r.value && (d[i].info.gitRoot == cwd || cwd in d[i].info.aliases)
  {
    var k := FirstRoot(d, cwd);
    if k < |d| then Some(d[k].name) else FindByAlias(d, cwd)
  }

  /** The scan `_lookup_in_cache` makes over the projects, in dict order, for one whose root is `path`. */
  method ScanRoots(d: CacheData, path: string) returns (k: nat)
    ensures k == FirstRoot(d, path)
  {
    k := 0;
    while k < |d|
      invariant k <= |d|
      invariant forall j | 0 <= j < k :: d[j].info.gitRoot != path
    {
      if d[k].info.gitRoot == path {
        return;
      }
      k := k + 1;
    }
  }

  /** A root match wins over every alias match, wherever the alias stands. */
  lemma RootBeforeAlias(d: CacheData, cwd: string, k: nat)
    requires k < |d| && d[k].info.gitRoot == cwd
    requires forall j | 0 <= j < k :: d[j].info.gitRoot != cwd
    ensures CacheLookup(d, cwd) == Some(d[k].name)
  {
  }

  /** Without a root match, the first project in dict order listing the path as an alias answers. */
  lemma AliasWhenNoRoot(d: CacheData, cwd: string)
    requires forall i | 0 <= i < |d| :: d[i].info.gitRoot != cwd
    ensures CacheLookup(d, cwd) == FindByAlias(d, cwd)
  {
  }

  /** A cached answer counts only when it is a non-empty name. */
  predicate Hit(d: CacheData, cwd: string)
  {
    CacheLookup(d, cwd).Some? && CacheLookup(d, cwd).value != ""
  }

  /** The entry `_update_cache` leaves for the project: found or created from the root, aliased when the directory is not the root. */
  function Touched(d: CacheData, cwd: string, gitRoot: string, name: string, now: int): ProjectRecord
  {
    var found := Lookup(d, name);
    var base := if found.Some? then found.value else ProjectRecord(gitRoot, Paths.Basename(gitRoot), [], now);
    if cwd != gitRoot then WithAlias(base, cwd, now) else base
  }

  /** `_update_cache` on loaded data: a project already there and aliased nowhere new is left as it was. */
  function Updated(d: CacheData, cwd: string, gitRoot: string, name: string, now: int): CacheData
  {
    if Lookup(d, name).Some? && cwd == gitRoot then d else Put(d, name, Touched(d, cwd, gitRoot, name, now))
  }

  /**
   * After an update the project is in the cache: created from this root when
   * it was absent, otherwise with its root kept. The directory becomes an
   * alias exactly when it differs from the root, and no other project changes.
   */
  lemma UpdatedEntry(d: CacheData, cwd: string, gitRoot: string, name: string, now: int, other: string)
    requires DistinctNames(d)
    ensures DistinctNames(Updated(d, cwd, gitRoot, name, now))
    ensures Lookup(Updated(d, cwd, gitRoot, name, now), name).Some?
    ensures Lookup(d, name).None? ==>
              Lookup(Updated(d, cwd, gitRoot, name, now), name).value.gitRoot == gitRoot
              && Lookup(Updated(d, cwd, gitRoot, name, now), name).value.aliases == (if cwd != gitRoot then [cwd] else [])
              && Lookup(Updated(d, cwd, gitRoot, name, now), name).value.lastAccessed == now
    ensures Lookup(d, name).Some? ==>
              Lookup(Updated(d, cwd, gitRoot, name, now), name).value.gitRoot == Lookup(d, name).value.gitRoot
    ensures (cwd in Lookup(Updated(d, cwd, gitRoot, name, now), name).value.aliases)
              <==> (cwd != gitRoot || (Lookup(d, name).Some? && cwd in Lookup(d, name).value.aliases))
    ensures other != name ==> Lookup(Updated(d, cwd, gitRoot, name, now), other) == Lookup(d, other)
  {
    if !(Lookup(d, name).Some? && cwd == gitRoot) {
      PutLookup(d, name, Touched(d, cwd, gitRoot, name, now), other);
    }
  }

  /** Every project but the updated one keeps its place and its entry. */
  lemma UpdatedOthers(d: CacheData, cwd: string, gitRoot: string, name: string, now: int, i: nat)
    requires i < |Updated(d, cwd, gitRoot, name, now)| && Updated(d, cwd, gitRoot, name, now)[i].name != name
    ensures i < |d| && Updated(d, cwd, gitRoot, name, now)[i] == d[i]
  {
  }

  /** Updating keeps every project named after the basename of its root. */
  lemma UpdatedWellFormed(d: CacheData, cwd: string, gitRoot: string, name: string, now: int)
    requires forall i | 0 <= i < |d| :: WellFormed(d[i].info)
    ensures forall i | 0 <= i < |Updated(d, cwd, gitRoot, name, now)| :: WellFormed(Updated(d, cwd, gitRoot, name, now)[i].info)
  {
    var found := Lookup(d, name);
    if found.Some? {
      var k :| 0 <= k < |d| && d[k] == Named(name, found.value);
      assert WellFormed(d[k].info);
    }
    var rec := Touched(d, cwd, gitRoot, name, now);
    assert WellFormed(rec);
    if !(found.Some? && cwd == gitRoot) {
      var r := Put(d, name, rec);
      forall i | 0 <= i < |r| ensures WellFormed(r[i].info) {
        assert r[i] == Named(name, rec) || (i < |d| && r[i] == d[i]);
      }
    }
  }

  /** What one resolution answers, and the cache it saves (`None`: the file is not written). */
  datatype Resolution = Resolution(name: string, saved: Option<CacheData>)

  /** `resolve_project_name` on loaded data, with `gitRootOf` standing for `get_git_root`. */
  function Resolve(d: CacheData, gitRootOf: string -> Option<string>, cwd: string, now: int): (r: Resolution)
    ensures cwd == "" ==> r == Resolution("unknown", None)
    ensures r.saved.Some? ==> cwd != "" && !Hit(d, cwd) && Lookup(r.saved.value, r.name).Some?
    ensures r.name == "" ==> r.saved.None? && cwd != "" && cwd[|cwd| - 1] == '/'
  {
    if cwd == "" then Resolution("unknown", None)
    else if Hit(d, cwd) then Resolution(CacheLookup(d, cwd).value, None)
    else
      var root := gitRootOf(cwd);
      if root.Some? && root.value != "" then
        var name := GitResolver.ProjectNameFromGitRoot(root.value);
        var saved := Updated(d, cwd, root.value, name, now);
        assert Lookup(saved, name).Some? by {
          if saved != d {
            var k :| 0 <= k < |saved| && saved[k] == Named(name, Touched(d, cwd, root.value, name, now));
            assert Names(saved)[k] == name;
          }
        }
        Resolution(name, Some(saved))
      else
        Paths.BasenameEmpty(cwd);
        Resolution(Paths.Basename(cwd), None)
  }

  /** A cache hit answers the cached name, writes nothing, and whatever git would say does not matter. */
  lemma HitIgnoresGit(d: CacheData, g1: string -> Option<string>, g2: string -> Option<string>, cwd: string, now: int)
    requires cwd != "" && Hit(d, cwd)
    ensures Resolve(d, g1, cwd, now) == Resolution(CacheLookup(d, cwd).value, None)
    ensures Resolve(d, g1, cwd, now) == Resolve(d, g2, cwd, now)
  {
  }

  /** A miss with a git root answers the root's project name and saves the updated cache. */
  lemma MissWithRoot(d: CacheData, gitRootOf: string -> Option<string>, cwd: string, now: int)
    requires cwd != "" && !Hit(d, cwd)
    requires gitRootOf(cwd).Some? && gitRootOf(cwd).value != ""
    ensures Resolve(d, gitRootOf, cwd, now).name == GitResolver.ProjectNameFromGitRoot(gitRootOf(cwd).value)
    ensures Resolve(d, gitRootOf, cwd, now).saved
              == Some(Updated(d, cwd, gitRootOf(cwd).value, GitResolver.ProjectNameFromGitRoot(gitRootOf(cwd).value), now))
  {
  }

  /** A miss without a git root answers the directory's basename and leaves the cache alone. */
  lemma MissWithoutRoot(d: CacheData, gitRootOf: string -> Option<string>, cwd: string, now: int)
    requires cwd != "" && !Hit(d, cwd)
    requires gitRootOf(cwd).None? || gitRootOf(cwd).value == ""
    ensures Resolve(d, gitRootOf, cwd, now) == Resolution(Paths.Basename(cwd), None)
  {
  }

  /** When the cache knew nothing of `cwd`, after an update only the project's own entry can mention it. */
  lemma OnlyEntryMentions(d: CacheData, cwd: string, gitRoot: string, name: string, now: int) returns (k: nat)
    requires DistinctNames(d) && CacheLookup(d, cwd).None?
    ensures k < |Updated(d, cwd, gitRoot, name, now)|
    ensures Updated(d, cwd, gitRoot, name, now)[k] == Named(name, Lookup(Updated(d, cwd, gitRoot, name, now), name).value)
    ensures forall i | 0 <= i < |Updated(d, cwd, gitRoot, name, now)| && i != k ::
              Updated(d, cwd, gitRoot, name, now)[i].info.gitRoot != cwd && cwd !in Updated(d, cwd, gitRoot, name, now)[i].info.aliases
  {
    var d' := Updated(d, cwd, gitRoot, name, now);
    UpdatedEntry(d, cwd, gitRoot, name, now, name);
    var entry := Lookup(d', name).value;
    k :| 0 <= k < |d'| && d'[k] == Named(name, entry);
    forall i | 0 <= i < |d'| && i != k
      ensures d'[i].info.gitRoot != cwd && cwd !in d'[i].info.aliases
    {
      UpdatedOthers(d, cwd, gitRoot, name, now, i);
    }
  }

  /**
   * A directory the cache knew nothing about, once resolved through git,
   * resolves to the same name against the saved cache: from the cache when
   * it became an alias or the root of a new project, else through git again.
   */
  lemma ResolveStable(d: CacheData, gitRootOf: string -> Option<string>, cwd: string, now: int, later: int)
    requires DistinctNames(d) && cwd != "" && CacheLookup(d, cwd).None?
    requires gitRootOf(cwd).Some? && gitRootOf(cwd).value != ""
    ensures Resolve(d, gitRootOf, cwd, now).saved.Some?
    ensures Resolve(Resolve(d, gitRootOf, cwd, now).saved.value, gitRootOf, cwd, later).name
         == Resolve(d, gitRootOf, cwd, now).name
  {
    var root := gitRootOf(cwd).value;
    var name := GitResolver.ProjectNameFromGitRoot(root);
    var d' := Updated(d, cwd, root, name, now);
    var k := OnlyEntryMentions(d, cwd, root, name, now);
    var c := CacheLookup(d', cwd);
    if c.Some? {
      var j :| 0 <= j < |d'| && d'[j].name == c.value && (d'[j].info.gitRoot == cwd || cwd in d'[j].info.aliases);
      assert j == k;
    }
  }

  /** `ProjectNameResolver`: the cache file, and git as an oracle from directory to repository root. */
  class Resolver {
    const cache: ProjectCache
    const gitRootOf: string -> Option<string>

    constructor(cache: ProjectCache, gitRootOf: string -> Option<string>)
      ensures this.cache == cache && this.gitRootOf == gitRootOf
    {
      this.cache := cache;
      this.gitRootOf := gitRootOf;
    }

    /** The cache as `load` would read it now. */
    function Data(now: int): CacheData
      reads this, cache
    {
      Loaded(cache.file, cache.codec, cache.iso, now)
    }

    /** `_lookup_in_cache`: scan for a root match, then ask the cache for an alias match. */
    method LookupInCache(cwd: string, now: int) returns (r: Option<string>)
      ensures r == CacheLookup(Data(now), cwd)
    {
      var data := cache.Load(now);
      var k := ScanRoots(data, cwd);
      if k < |data| {
        return Some(data[k].name);
      }
      AliasWhenNoRoot(data, cwd);
      r := cache.FindProjectByAlias(cwd, now);
    }

    /** `_update_cache`: create or touch the project, alias the directory, save. */
    method UpdateCache(cwd: string, gitRoot: string, name: string, now: int)
      modifies cache
      ensures cache.file == Some(cache.codec.encode(EncodeAll(Updated(old(Data(now)), cwd, gitRoot, name, now), cache.iso)))
    {
      var data := cache.Load(now);
      var found := Lookup(data, name);
      var info: ProjectInfo;
      if found.None? {
        info := new ProjectInfo(gitRoot, now);
      } else {
        info := new ProjectInfo.FromRecord(found.value);
      }
      if cwd != gitRoot {
        info.AddAlias(cwd, now);
      }
      if found.None? || cwd != gitRoot {
        PutLookup(data, name, info.Record(), name);
        data := Put(data, name, info.Record());
      }
      cache.Save(data);
    }

    /** `resolve_project_name`. */
    method ResolveProjectName(cwd: string, now: int) returns (name: string)
      modifies cache
      ensures name == Resolve(old(Data(now)), gitRootOf, cwd, now).name
      ensures cache.file == if Resolve(old(Data(now)), gitRootOf, cwd, now).saved.None? then old(cache.file)
                            else Some(cache.codec.encode(EncodeAll(Resolve(old(Data(now)), gitRootOf, cwd, now).saved.value, cache.iso)))
    {
      if cwd == "" {
        return "unknown";
      }
      var cached := LookupInCache(cwd, now);
      if cached.Some? && cached.value != "" {
        return cached.value;
      }
      var root := gitRootOf(cwd);
      if root.Some? && root.value != "" {
        name := GitResolver.ProjectNameFromGitRoot(root.value);
        UpdateCache(cwd, root.value, name, now);
        return name;
      }
      return Paths.Basename(cwd);
    }
  }
}
