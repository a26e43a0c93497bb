/**
 * The project-name cache: what is known about each project (its git root,
 * the directories that resolve to it, when it was last used) and how the
 * cache is stored in its JSON file.
 */
module ProjectModels {
  import opened Wrappers
  import opened Json
  import opened Timestamps
  import Paths

  /** A `ProjectInfo` as a value. */
  datatype ProjectRecord = ProjectRecord(gitRoot: string, projectName: string, aliases: seq<string>, lastAccessed: int)

  /** `ProjectInfo` always names a project after the basename of its root; `load` recomputes the name. */
  predicate WellFormed(r: ProjectRecord)
  {
    r.projectName == Paths.Basename(r.gitRoot)
  }

  predicate Distinct(s: seq<string>)
  {
    forall i, j | 0 <= i < j < |s| :: s[i] != s[j]
  }

  /** `ProjectInfo.add_alias` on a value: append an absent path and touch the access time. */
  function WithAlias(r: ProjectRecord, path: string, now: int): (r': ProjectRecord)
    ensures r'.gitRoot == r.gitRoot && r'.projectName == r.projectName
    ensures path in r'.aliases
    ensures forall a :: a in r'.aliases <==> a in r.aliases || a == path
    ensures |r.aliases| <= |r'.aliases| && r'.aliases[..|r.aliases|] == r.aliases
  {
    if path in r.aliases then r
    else r.(aliases := r.aliases + [path], lastAccessed := now)
  }

  /** Adding aliases never creates a duplicate. */
  lemma WithAliasDistinct(r: ProjectRecord, path: string, now: int)
    requires Distinct(r.aliases)
    ensures Distinct(WithAlias(r, path, now).aliases)
  {
  }

  /** The access time moves exactly when the alias is new, and adding it twice is adding it once. */
  lemma WithAliasTouches(r: ProjectRecord, path: string, now: int, later: int)
    ensures WithAlias(r, path, now).lastAccessed == if path in r.aliases then r.lastAccessed else now
    ensures WithAlias(r, path, now).aliases == if path in r.aliases then r.aliases else r.aliases + [path]
    ensures WithAlias(WithAlias(r, path, now), path, later) == WithAlias(r, path, now)
  {
  }

  /** `ProjectInfo`, whose alias list and access time `add_alias` updates in place. */
  class ProjectInfo {
    var gitRoot: string
    var projectName: string
    var aliases: seq<string>
    var lastAccessed: int

    /** A new project is named after its root's basename and has no aliases. */
    constructor(gitRoot: string, now: int)
      ensures Record() == ProjectRecord(gitRoot, Paths.Basename(gitRoot), [], now)
      ensures WellFormed(Record())
    {
      this.gitRoot := gitRoot;
      projectName := Paths.Basename(gitRoot);
      aliases := [];
      lastAccessed := now;
    }

    /** The object `load` rebuilds from a stored entry. */
    constructor FromRecord(r: ProjectRecord)
      ensures Record() == r
    {
      gitRoot := r.gitRoot;
      projectName := r.projectName;
      aliases := r.aliases;
      lastAccessed := r.lastAccessed;
    }

    function Record(): ProjectRecord
      reads this
    {
      ProjectRecord(gitRoot, projectName, aliases, lastAccessed)
    }

    /** `add_alias`. */
    method AddAlias(path: string, now: int)
      modifies this
      ensures Record() == WithAlias(old(Record()), path, now)
    {
      if path !in aliases {
        aliases := aliases + [path];
        lastAccessed := now;
      }
    }
  }

  /** One item of the cache dict. */
  datatype Named = Named(name: string, info: ProjectRecord)

  /** The cache dict, in insertion order. */
  type CacheData = seq<Named>

  function Names(d: CacheData): (r: seq<string>)
    ensures |r| == |d| && forall i | 0 <= i < |d| :: r[i] == d[i].name
  {
    seq(|d|, i requires 0 <= i < |d| => d[i].name)
  }

  /** A dict has each key once. */
  predicate DistinctNames(d: CacheData)
  {
    forall i, j | 0 <= i < j < |d| :: d[i].name != d[j].name
  }

  /** `data.get(name)`. */
  function Lookup(d: CacheData, name: string): (r: Option<ProjectRecord>)
    ensures r.None? <==> name !in Names(d)
    ensures r.Some? ==> Named(name, r.value) in d
  {
    if d == [] then None
    else if d[0].name == name then Some(d[0].info)
    else
      assert Names(d) == [d[0].name] + Names(d[1..]);
      Lookup(d[1..], name)
  }

  /** Where `name` first stands in `d`, or `|d|` when it is absent. */
  function IndexOf(d: CacheData, name: string): (k: nat)
    ensures k <= |d|
    ensures k < |d| ==> d[k].name == name
    ensures forall i | 0 <= i < k :: d[i].name != name
  {
    if d == [] then 0
    else if d[0].name == name then 0
    else
      var k := IndexOf(d[1..], name);
      assert forall i | 1 <= i < |d| :: d[i] == d[1..][i - 1];
      k + 1
  }

  /** `data[name] = info`: an existing key keeps its place, a new one goes last. */
  function Put(d: CacheData, name: string, info: ProjectRecord): (r: CacheData)
    ensures name in Names(d) ==> |r| == |d| && Names(r) == Names(d)
    ensures name !in Names(d) ==> r == d + [Named(name, info)]
    ensures forall i | 0 <= i < |d| && d[i].name != name :: r[i] == d[i]
    ensures Named(name, info) in r
    ensures forall i | 0 <= i < |r| :: r[i] == Named(name, info) || (i < |d| && r[i] == d[i])
  {
    var k := IndexOf(d, name);
    if k == |d| then d + [Named(name, info)]
    else
      var r := d[k := Named(name, info)];
      assert Names(r) == Names(d);
      r
  }

  /** After `data[name] = info`, `name` maps to `info` and every other key keeps its value. */
  lemma PutLookup(d: CacheData, name: string, info: ProjectRecord, other: string)
    requires DistinctNames(d)
    ensures DistinctNames(Put(d, name, info))
    ensures Lookup(Put(d, name, info), name) == Some(info)
    ensures other != name ==> Lookup(Put(d, name, info), other) == Lookup(d, other)
  {
    var r := Put(d, name, info);
    var k :| 0 <= k < |r| && r[k] == Named(name, info);
    if name in Names(d) {
      forall i, j | 0 <= i < j < |r| ensures r[i].name != r[j].name {
        assert r[i].name == Names(r)[i] == Names(d)[i] == d[i].name;
        assert r[j].name == Names(r)[j] == Names(d)[j] == d[j].name;
      }
    }
    LookupDistinct(r, name);
    if other != name {
      LookupDistinct(r, other);
      LookupDistinct(d, other);
      if other in Names(d) {
        var i :| 0 <= i < |d| && d[i].name == other;
        assert r[i] == d[i];
      }
    }
  }

  /** With distinct keys, a lookup finds the one entry of that name. */
  lemma LookupDistinct(d: CacheData, name: string)
    requires DistinctNames(d)
    ensures forall i | 0 <= i < |d| && d[i].name == name :: Lookup(d, name) == Some(d[i].info)
  {
    if d != [] && d[0].name != name {
      LookupDistinct(d[1..], name);
    }
  }

  /** In a dict each entry occurs once. */
  lemma {:induction false} DistinctNamesCount(d: CacheData, x: Named)
    requires DistinctNames(d)
    ensures multiset(d)[x] <= 1
  {
    if d != [] {
      var n := |d| - 1;
      assert d == d[..n] + [d[n]];
      DistinctNamesCount(d[..n], x);
      if x == d[n] {
        assert x !in d[..n];
      }
    }
  }

  /** Keeping some of a dict's entries, in any order, keeps the keys distinct. */
  lemma DistinctNamesSub(a: CacheData, b: CacheData)
    requires DistinctNames(a) && multiset(b) <= multiset(a)
    ensures DistinctNames(b)
  {
    forall i, j | 0 <= i < j < |b| ensures b[i].name != b[j].name {
      if b[i] == b[j] {
        assert b == b[..i] + [b[i]] + b[i + 1..j] + [b[j]] + b[j + 1..];
        assert multiset(b)[b[i]] >= 2;
        DistinctNamesCount(a, b[i]);
      } else {
        assert b[i] in multiset(a) && b[j] in multiset(a);
        var p :| 0 <= p < |a| && a[p] == b[i];
        var q :| 0 <= q < |a| && a[q] == b[j];
        assert p != q;
      }
    }
  }

  /** `find_project_by_alias` on loaded data: the first project in dict order listing the path. */
  function FindByAlias(d: CacheData, path: string): (r: Option<string>)
    ensures r.None? <==> forall i | 0 <= i < |d| :: path !in d[i].info.aliases
    ensures r.Some? ==> exists i | 0 <= i < |d| :: d[i].name == r.value && path in d[i].info.aliases
                          && forall j | 0 <= j < i :: path !in d[j].info.aliases
  {
    if d == [] then None
    else if path in d[0].info.aliases then Some(d[0].name)
    else
      var r := FindByAlias(d[1..], path);
      if r.Some? then
        var i :| 0 <= i < |d| - 1 && d[1..][i].name == r.value && path in d[1..][i].info.aliases
                 && forall j | 0 <= j < i :: path !in d[1..][j].info.aliases;
        assert d[i + 1].name == r.value && path in d[i + 1].info.aliases;
        assert forall j | 0 <= j < i + 1 :: path !in d[j].info.aliases by {
          forall j | 0 <= j < i + 1 ensures path !in d[j].info.aliases {
            if j > 0 {
              assert d[j] == d[1..][j - 1];
            }
          }
        }
        r
      else
        assert forall i | 1 <= i < |d| :: d[i] == d[1..][i - 1];
        r
  }

  /** A member of the cache file's top-level JSON object. */
  datatype Member = Member(key: string, value: Value)

  /** The cache file's top-level JSON object, its members in file order. */
  type Document = seq<Member>

  /**
   * `json.dump` and `json.load` for the cache file, which the model does not
   * implement: `decode` gives `None` where `json.load` raises.
   */
  datatype DocCodec = DocCodec(encode: Document -> string, decode: string -> Option<Document>)

  ghost predicate Faithful(c: DocCodec)
  {
    forall d :: c.decode(c.encode(d)) == Some(d)
  }

  function EncodeStrings(s: seq<string>): (r: seq<Value>)
    ensures |r| == |s|
  {
    if s == [] then [] else [JStr(s[0])] + EncodeStrings(s[1..])
  }

  /** A JSON list of strings, or `None` when some item is not a string. */
  function DecodeStrings(v: seq<Value>): (r: Option<seq<string>>)
    ensures r.Some? ==> |r.value| == |v|
  {
    if v == [] then Some([])
    else if !v[0].JStr? then None
    else
      var rest := DecodeStrings(v[1..]);
      if rest.None? then None else Some([v[0].s] + rest.value)
  }

  lemma {:induction false} DecodeEncodeStrings(s: seq<string>)
    ensures DecodeStrings(EncodeStrings(s)) == Some(s)
  {
    if s != [] {
      var e := EncodeStrings(s);
      assert e == [JStr(s[0])] + EncodeStrings(s[1..]);
      assert e[1..] == EncodeStrings(s[1..]);
      DecodeEncodeStrings(s[1..]);
      assert [s[0]] + s[1..] == s;
    }
  }

  /** One stored project: its root, its aliases, its access time as ISO text. */
  function EncodeRecord(r: ProjectRecord, iso: IsoCodec): Value
  {
    JObj(map["git_root" := JStr(r.gitRoot),
             "aliases" := JList(EncodeStrings(r.aliases)),
             "last_accessed" := JStr(iso.format(r.lastAccessed))])
  }

  /**
   * How `load` rebuilds one project: `git_root` is required, `aliases`
   * defaults to none, and an absent `last_accessed` leaves the time of loading.
   */
  function DecodeRecord(v: Value, iso: IsoCodec, now: int): (r: Option<ProjectRecord>)
    ensures r.Some? ==> WellFormed(r.value)
    ensures r.Some? ==> v.JObj? && "git_root" in v.fields && v.fields["git_root"] == JStr(r.value.gitRoot)
  {
    if !v.JObj? || "git_root" !in v.fields || !v.fields["git_root"].JStr? then None
    else
      var gitRoot := v.fields["git_root"].s;
      var aliases := Get(v.fields, "aliases", JList([]));
      if !aliases.JList? || DecodeStrings(aliases.items).None? then None
      else if "last_accessed" !in v.fields then
        Some(ProjectRecord(gitRoot, Paths.Basename(gitRoot), DecodeStrings(aliases.items).value, now))
      else
        var stamp := v.fields["last_accessed"];
        if !stamp.JStr? || iso.parse(stamp.s).None? then None
        else Some(ProjectRecord(gitRoot, Paths.Basename(gitRoot), DecodeStrings(aliases.items).value, iso.parse(stamp.s).value))
  }

  /** The three fields `save` writes for a project. */
  lemma EncodeRecordFields(r: ProjectRecord, iso: IsoCodec)
    ensures EncodeRecord(r, iso).JObj?
    ensures var f := EncodeRecord(r, iso).fields;
      && "git_root" in f && f["git_root"] == JStr(r.gitRoot)
      && "aliases" in f && f["aliases"] == JList(EncodeStrings(r.aliases))
      && "last_accessed" in f && f["last_accessed"] == JStr(iso.format(r.lastAccessed))
  {
    assert |"git_root"| == 8 && |"aliases"| == 7 && |"last_accessed"| == 13;
  }

  lemma DecodeEncodeRecord(r: ProjectRecord, iso: IsoCodec, now: int)
    requires WellFormed(r) && RoundTrips(iso)
    ensures DecodeRecord(EncodeRecord(r, iso), iso, now) == Some(r)
  {
    EncodeRecordFields(r, iso);
    DecodeEncodeStrings(r.aliases);
    FormatParses(iso, r.lastAccessed);
  }

  /** What `save` writes: one member per project, in dict order. */
  function EncodeAll(d: CacheData, iso: IsoCodec): (r: Document)
    ensures |r| == |d|
    ensures forall i | 0 <= i < |d| :: r[i] == Member(d[i].name, EncodeRecord(d[i].info, iso))
  {
    seq(|d|, i requires 0 <= i < |d| => Member(d[i].name, EncodeRecord(d[i].info, iso)))
  }

  /** What `load` builds from a decoded document, or `None` where it gives up. */
  function DecodeAll(doc: Document, iso: IsoCodec, now: int): (r: Option<CacheData>)
    ensures r.Some? ==> DistinctNames(r.value) && forall i | 0 <= i < |r.value| :: WellFormed(r.value[i].info)
  {
    if doc == [] then Some([])
    else
      var init := DecodeAll(doc[..|doc| - 1], iso, now);
      var last := doc[|doc| - 1];
      var info := DecodeRecord(last.value, iso, now);
      if init.None? || info.None? then None
      else
        PutLookup(init.value, last.key, info.value, last.key);
        Some(Put(init.value, last.key, info.value))
  }

  lemma DecodeAllStep(doc: Document, i: nat, iso: IsoCodec, now: int)
    requires i < |doc|
    ensures DecodeAll(doc[..i + 1], iso, now)
         == if DecodeAll(doc[..i], iso, now).None? || DecodeRecord(doc[i].value, iso, now).None? then None
            else Some(Put(DecodeAll(doc[..i], iso, now).value, doc[i].key, DecodeRecord(doc[i].value, iso, now).value))
  {
    assert doc[..i + 1][..i] == doc[..i];
  }

  /** Once one member cannot be loaded, the whole load gives up. */
  lemma {:induction false} DecodeAllStops(doc: Document, k: nat, iso: IsoCodec, now: int)
    requires k <= |doc| && DecodeAll(doc[..k], iso, now).None?
    ensures DecodeAll(doc, iso, now).None?
    decreases |doc| - k
  {
    if k < |doc| {
      DecodeAllStep(doc, k, iso, now);
      DecodeAllStops(doc, k + 1, iso, now);
    } else {
      assert doc[..k] == doc;
    }
  }

  /** `ProjectCache.load`: a missing file, bad JSON or a malformed entry give the empty cache. */
  function Loaded(file: Option<string>, codec: DocCodec, iso: IsoCodec, now: int): (r: CacheData)
    ensures DistinctNames(r) && forall i | 0 <= i < |r| :: WellFormed(r[i].info)
  {
    if file.None? then []
    else
      var doc := codec.decode(file.value);
      if doc.None? then []
      else
        var d := DecodeAll(doc.value, iso, now);
        if d.None? then [] else d.value
  }

  /** A document whose members decode one by one to a dict's entries loads as that dict. */
  lemma {:induction false} DecodeAllMatches(doc: Document, d: CacheData, iso: IsoCodec, now: int)
    requires |doc| == |d| && DistinctNames(d)
    requires forall i | 0 <= i < |d| :: doc[i].key == d[i].name && DecodeRecord(doc[i].value, iso, now) == Some(d[i].info)
    ensures DecodeAll(doc, iso, now) == Some(d)
  {
    if d != [] {
      var n := |d| - 1;
      DecodeAllMatches(doc[..n], d[..n], iso, now);
      DecodeAllStep(doc, n, iso, now);
      PutLast(d);
      assert doc[..n + 1] == doc;
    }
  }

  /** Loading what was saved gives the same projects, in the same order, field for field. */
  lemma DecodeEncodeAll(d: CacheData, iso: IsoCodec, now: int)
    requires DistinctNames(d) && RoundTrips(iso)
    requires forall i | 0 <= i < |d| :: WellFormed(d[i].info)
    ensures DecodeAll(EncodeAll(d, iso), iso, now) == Some(d)
  {
    var doc := EncodeAll(d, iso);
    forall i | 0 <= i < |d|
      ensures doc[i].key == d[i].name && DecodeRecord(doc[i].value, iso, now) == Some(d[i].info)
    {
      EncodedMemberDecodes(d, i, iso, now);
    }
    DecodeAllMatches(doc, d, iso, now);
  }

  lemma EncodedMemberDecodes(d: CacheData, n: nat, iso: IsoCodec, now: int)
    requires n < |d| && WellFormed(d[n].info) && RoundTrips(iso)
    ensures EncodeAll(d, iso)[n].key == d[n].name
    ensures DecodeRecord(EncodeAll(d, iso)[n].value, iso, now) == Some(d[n].info)
  {
    DecodeEncodeRecord(d[n].info, iso, now);
  }

  /** With distinct keys, putting the last entry after the others rebuilds the dict. */
  lemma PutLast(d: CacheData)
    requires d != [] && DistinctNames(d)
    ensures Put(d[..|d| - 1], d[|d| - 1].name, d[|d| - 1].info) == d
  {
    var n := |d| - 1;
    assert d[n].name !in Names(d[..n]);
    var last := Named(d[n].name, d[n].info);
    assert d[..n] + [last] == d;
  }

  lemma SaveLoadRoundTrip(d: CacheData, codec: DocCodec, iso: IsoCodec, now: int)
    requires Faithful(codec) && RoundTrips(iso)
    requires DistinctNames(d) && forall i | 0 <= i < |d| :: WellFormed(d[i].info)
    ensures Loaded(Some(codec.encode(EncodeAll(d, iso))), codec, iso, now) == d
  {
    DecodeEncodeAll(d, iso, now);
  }

  /** `ProjectCache`: the cache file, which every operation loads afresh and rewrites whole. */
  class ProjectCache {
    const codec: DocCodec
    const iso: IsoCodec
    var file: Option<string>

    constructor(codec: DocCodec, iso: IsoCodec, file: Option<string>)
      ensures this.codec == codec && this.iso == iso && this.file == file
    {
      this.codec := codec;
      this.iso := iso;
      this.file := file;
    }

    /** `load`. */
    method Load(now: int) returns (data: CacheData)
      ensures data == Loaded(file, codec, iso, now)
    {
      if file.None? {
        return [];
      }
      var doc := codec.decode(file.value);
      if doc.None? {
        return [];
      }
      data := [];
      var i := 0;
      while i < |doc.value|
        invariant 0 <= i <= |doc.value|
        invariant DecodeAll(doc.value[..i], iso, now) == Some(data)
      {
        DecodeAllStep(doc.value, i, iso, now);
        var info := DecodeRecord(doc.value[i].value, iso, now);
        if info.None? {
          DecodeAllStops(doc.value, i + 1, iso, now);
          return [];
        }
        data := Put(data, doc.value[i].key, info.value);
        i := i + 1;
      }
      assert doc.value[..i] == doc.value;
    }

    /** `save`: one member per project, written over the old file. */
    method Save(data: CacheData)
      requires DistinctNames(data)
      modifies this`file
      ensures file == Some(codec.encode(EncodeAll(data, iso)))
    {
      var doc: Document := [];
      var i := 0;
      while i < |data|
        invariant 0 <= i <= |data|
        invariant doc == EncodeAll(data[..i], iso)
      {
        doc := doc + [Member(data[i].name, EncodeRecord(data[i].info, iso))];
        i := i + 1;
      }
      assert data[..i] == data;
      file := Some(codec.encode(doc));
    }

    /** `find_project_by_alias`. */
    method FindProjectByAlias(path: string, now: int) returns (r: Option<string>)
      ensures r == FindByAlias(Loaded(file, codec, iso, now), path)
    {
      var data := Load(now);
      var i := 0;
      while i < |data|
        invariant 0 <= i <= |data|
        invariant FindByAlias(data[i..], path) == FindByAlias(data, path)
      {
        if path in data[i].info.aliases {
          return Some(data[i].name);
        }
        assert data[i..][1..] == data[i + 1..];
        i := i + 1;
      }
      return None;
    }

    /** `add_alias`: an unknown project leaves the file as it was. */
    method AddAlias(name: string, path: string, now: int)
      modifies this`file
      ensures var d := Loaded(old(file), codec, iso, now);
        file == if Lookup(d, name).None? then old(file)
                else Some(codec.encode(EncodeAll(Put(d, name, WithAlias(Lookup(d, name).value, path, now)), iso)))
    {
      var data := Load(now);
      var found := Lookup(data, name);
      if found.Some? {
        var info := new ProjectInfo.FromRecord(found.value);
        info.AddAlias(path, now);
        PutLookup(data, name, info.Record(), name);
        data := Put(data, name, info.Record());
        Save(data);
      }
    }
  }
}
