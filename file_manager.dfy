/**
 * The JSON file manager: whole-document writes, a reader that falls back to
 * an empty document, backups and their pruning, the configuration merge
 * with defaults, and the stamped monitoring-data write. `ConfigFileManager`
 * and `DataFileManager` only fix the paths, so one class models all three.
 */
module FileManagement {
  import opened Wrappers
  import opened Json
  import opened Files
  import opened Text
  import Paths
  import StableSort
  import Timestamps

  /** `json.dump(data, indent=2)` and `json.load`, as the lines of a file; `load` is `None` where it raises. */
  datatype DocCodec = DocCodec(dump: Value -> seq<string>, load: seq<string> -> Option<Value>)

  /** What `read_data` yields for the file at `path`: its object, or `{}` when missing or not a JSON object. */
  function ReadFrom(files: map<string, FileState>, path: string, codec: DocCodec): (data: Object)
    ensures path !in files ==> data == map[]
    ensures path in files && codec.load(files[path].lines).Some? && codec.load(files[path].lines).value.JObj?
            ==> data == codec.load(files[path].lines).value.fields
    ensures path in files && (codec.load(files[path].lines).None? || !codec.load(files[path].lines).value.JObj?)
            ==> data == map[]
  {
    if path !in files then map[]
    else match codec.load(files[path].lines)
      case Some(JObj(fields)) => fields
      case _ => map[]
  }

  /** The files after `write_data`: nothing changes on failure; otherwise the document, and its iCloud copy when one is configured and that copy succeeds. */
  function Written(files: map<string, FileState>, path: string, icloud: Option<string>, codec: DocCodec,
                   data: Object, now: int, mainFails: bool, syncFails: bool): map<string, FileState>
  {
    if mainFails then files
    else
      var doc := FileState(codec.dump(JObj(data)), Some(now));
      var main := files[path := doc];
      if SyncConfigured(icloud) && !syncFails then main[icloud.value := doc] else main
  }

  /** `if self.icloud_sync_path:` — a non-empty path is configured. */
  predicate SyncConfigured(icloud: Option<string>)
  {
    icloud.Some? && icloud.value != ""
  }

  /** A successful write is read back as the data written, whatever happened to the iCloud copy. */
  lemma WriteThenRead(files: map<string, FileState>, path: string, icloud: Option<string>, codec: DocCodec,
                      data: Object, now: int, syncFails: bool)
    requires codec.load(codec.dump(JObj(data))) == Some(JObj(data))
    requires icloud.Some? ==> icloud.value != path
    ensures ReadFrom(Written(files, path, icloud, codec, data, now, false, syncFails), path, codec) == data
  {
    var w := Written(files, path, icloud, codec, data, now, false, syncFails);
    assert path in w && w[path] == FileState(codec.dump(JObj(data)), Some(now));
  }

  /** The files after `backup_file`: a copy of the document, modification time included, beside it. */
  function BackedUp(files: map<string, FileState>, path: string, suffix: string, copyFails: bool): map<string, FileState>
  {
    if path !in files || copyFails then files else files[path + suffix := files[path]]
  }

  /** A backup copies the document as it was, and leaves the document itself as it was. */
  lemma BackedUpCopies(files: map<string, FileState>, path: string, suffix: string)
    requires path in files && suffix != ""
    ensures path + suffix in BackedUp(files, path, suffix, false) && BackedUp(files, path, suffix, false)[path + suffix] == files[path]
    ensures path in BackedUp(files, path, suffix, false) && BackedUp(files, path, suffix, false)[path] == files[path]
  {
    assert |path + suffix| > |path|;
  }

  /** A backup candidate: its path and modification time. */
  datatype Backup = Backup(path: string, mtime: int)

  function Mtime(b: Backup): int
  {
    b.mtime
  }

  /** `file.startswith(base_name) and file.endswith('.bak')`. */
  predicate IsBackupName(name: string, base: string)
  {
    StartsWith(name, base) && EndsWith(name, ".bak")
  }

  /**
   * The backups found in a directory listing, in listing order; `None` when
   * `getmtime` fails on one of them, which abandons the whole clean-up.
   */
  function Candidates(files: map<string, FileState>, dir: string, base: string, listing: seq<string>): (r: Option<seq<Backup>>)
    ensures r.Some? ==> forall b | b in r.value :: b.path in files && files[b.path].mtime == Some(b.mtime)
  {
    if listing == [] then Some([])
    else
      var rest := Candidates(files, dir, base, listing[..|listing| - 1]);
      var name := listing[|listing| - 1];
      if !IsBackupName(name, base) then rest
      else
        var p := Paths.Join(dir, name);
        if p !in files || files[p].mtime.None? || rest.None? then None
        else Some(rest.value + [Backup(p, files[p].mtime.value)])
  }

  /** Python's `s[k:]`. */
  function DropPrefix<T>(s: seq<T>, k: int): (r: seq<T>)
    ensures k >= 0 ==> r == s[(if k < |s| then k else |s|)..]
  {
    if k >= 0 then s[(if k < |s| then k else |s|)..]
    else s[(if |s| + k > 0 then |s| + k else 0)..]
  }

  /** The paths of some backups. */
  function PathsOf(bs: seq<Backup>): (r: set<string>)
    ensures forall b | b in bs :: b.path in r
    ensures forall p | p in r :: exists b | b in bs :: b.path == p
  {
    set b | b in bs :: b.path
  }

  /** The backups `cleanup_old_backups` deletes: all but the `maxBackups` newest (ties kept in listing order). */
  function Doomed(cands: seq<Backup>, maxBackups: int): seq<Backup>
  {
    DropPrefix(StableSort.SortDescending(cands, Mtime), maxBackups)
  }

  /** The files after `cleanup_old_backups`. */
  function Pruned(files: map<string, FileState>, dir: string, base: string, listing: seq<string>, maxBackups: int): map<string, FileState>
  {
    match Candidates(files, dir, base, listing)
    case None => files
    case Some(cands) => files - PathsOf(Doomed(cands, maxBackups))
  }

  /** Pruning with a non-negative limit deletes the surplus over the limit, no more and no less. */
  lemma DoomedCount(cands: seq<Backup>, maxBackups: nat)
    ensures |Doomed(cands, maxBackups)| == if |cands| <= maxBackups then 0 else |cands| - maxBackups
  {
    StableSort.SortDescendingSpec(cands, Mtime);
  }

  /** Pruning deletes only backups that were found, and never one newer than a backup it keeps. */
  lemma DoomedOldest(cands: seq<Backup>, maxBackups: nat)
    ensures forall b | b in Doomed(cands, maxBackups) :: b in cands
    ensures forall b, c | b in Doomed(cands, maxBackups) && c in cands && c !in Doomed(cands, maxBackups) :: b.mtime <= c.mtime
  {
    var sorted := StableSort.SortDescending(cands, Mtime);
    StableSort.SortDescendingSpec(cands, Mtime);
    var k := if maxBackups < |cands| then maxBackups else |cands|;
    var doomed := Doomed(cands, maxBackups);
    assert doomed == sorted[k..];
    forall b | b in doomed
      ensures b in cands
    {
      assert b in multiset(sorted);
    }
    forall b, c | b in doomed && c in cands && c !in doomed
      ensures b.mtime <= c.mtime
    {
      assert c in multiset(sorted);
      var i :| k <= i < |sorted| && sorted[i] == b;
      var j :| 0 <= j < |sorted| && sorted[j] == c;
      assert j < k;
    }
  }

  /** Pruning never touches a file that is not a listed backup, and leaves everything alone when it is abandoned. */
  lemma PrunedKeepsOthers(files: map<string, FileState>, dir: string, base: string, listing: seq<string>, maxBackups: int, p: string)
    requires p in files
    requires Candidates(files, dir, base, listing).None? || forall b | b in Candidates(files, dir, base, listing).value :: b.path != p
    ensures p in Pruned(files, dir, base, listing, maxBackups) && Pruned(files, dir, base, listing, maxBackups)[p] == files[p]
  {
    match Candidates(files, dir, base, listing)
    case None =>
    case Some(cands) =>
      StableSort.SortDescendingSpec(cands, Mtime);
      var doomed := Doomed(cands, maxBackups);
      forall b | b in doomed
        ensures b.path != p
      {
        assert b in multiset(StableSort.SortDescending(cands, Mtime));
      }
  }

  /** The merge loop of `load_config_with_defaults`: each default key missing from `stored` is added. */
  method MergeDefaults<K, V>(stored: map<K, V>, defaults: map<K, V>) returns (config: map<K, V>)
    ensures config.Keys == stored.Keys + defaults.Keys
    ensures forall k | k in stored :: config[k] == stored[k]
    ensures forall k | k in defaults && k !in stored :: config[k] == defaults[k]
  {
    config := stored;
    var done: set<K> := {};
    while defaults.Keys - done != {}
      invariant done <= defaults.Keys
      invariant config.Keys == stored.Keys + done
      invariant forall k | k in stored :: config[k] == stored[k]
      invariant forall k | k in done && k !in stored :: config[k] == defaults[k]
      decreases defaults.Keys - done
    {
      var key :| key in defaults.Keys - done;
      if key !in stored {
        config := config[key := defaults[key]];
      }
      done := done + {key};
    }
  }

  /** The key `write_monitoring_data` stamps. */
  const LAST_FILE_UPDATE: string := "last_file_update"

  /** `FileManager`; the two subclasses only choose `filePath` and `icloudPath`. */
  class FileManager {
    const filePath: string
    const icloudPath: Option<string>
    const codec: DocCodec

    constructor(filePath: string, icloudPath: Option<string>, codec: DocCodec)
      ensures this.filePath == filePath && this.icloudPath == icloudPath && this.codec == codec
    {
      this.filePath, this.icloudPath, this.codec := filePath, icloudPath, codec;
    }

    /** `read_data`. */
    function ReadData(fs: FileSystem): Object
      reads fs
    {
      ReadFrom(fs.files, filePath, codec)
    }

    /** `_sync_to_icloud`: false when no path is configured or the copy fails. */
    method SyncToIcloud(fs: FileSystem, data: Object, now: int, syncFails: bool) returns (ok: bool)
      modifies fs
      ensures ok <==> SyncConfigured(icloudPath) && !syncFails
      ensures fs.files == if ok then old(fs.files)[icloudPath.value := FileState(codec.dump(JObj(data)), Some(now))] else old(fs.files)
    {
      if !SyncConfigured(icloudPath) || syncFails {
        return false;
      }
      fs.files := fs.files[icloudPath.value := FileState(codec.dump(JObj(data)), Some(now))];
      ok := true;
    }

    /** `write_data`: the result is whether the document was written; the iCloud copy cannot change it. */
    method WriteData(fs: FileSystem, data: Object, now: int, mainFails: bool, syncFails: bool) returns (ok: bool)
      modifies fs
      ensures ok == !mainFails
      ensures fs.files == Written(old(fs.files), filePath, icloudPath, codec, data, now, mainFails, syncFails)
    {
      if mainFails {
        return false;
      }
      fs.files := fs.files[filePath := FileState(codec.dump(JObj(data)), Some(now))];
      if SyncConfigured(icloudPath) {
        var _ := SyncToIcloud(fs, data, now, syncFails);
      }
      ok := true;
    }

    /** `backup_file`: false when there is no document or the copy fails. */
    method BackupFile(fs: FileSystem, suffix: string, copyFails: bool) returns (ok: bool)
      modifies fs
      ensures ok <==> filePath in old(fs.files) && !copyFails
      ensures fs.files == BackedUp(old(fs.files), filePath, suffix, copyFails)
    {
      if filePath !in fs.files {
        return false;
      }
      if copyFails {
        return false;
      }
      fs.files := fs.files[filePath + suffix := fs.files[filePath]];
      ok := true;
    }

    /**
     * `cleanup_old_backups`: `listing` is what `os.listdir` returns for the
     * document's directory, in its order.
     */
    method CleanupOldBackups(fs: FileSystem, listing: seq<string>, maxBackups: int)
      modifies fs
      ensures fs.files == Pruned(old(fs.files), Paths.Dirname(filePath), Paths.Basename(filePath), listing, maxBackups)
    {
      var found := FindBackups(fs, Paths.Dirname(filePath), Paths.Basename(filePath), listing);
      if found.Some? {
        DeleteAll(fs, Doomed(found.value, maxBackups));
      }
    }

    /** The first loop of `cleanup_old_backups`: the listed backups and their times, `None` when a time cannot be read. */
    method FindBackups(fs: FileSystem, dir: string, base: string, listing: seq<string>) returns (found: Option<seq<Backup>>)
      ensures found == Candidates(fs.files, dir, base, listing)
    {
      var acc: seq<Backup> := [];
      var i := 0;
      while i < |listing|
        invariant 0 <= i <= |listing|
        invariant Candidates(fs.files, dir, base, listing[..i]) == Some(acc)
      {
        assert listing[..i + 1][..i] == listing[..i];
        var name := listing[i];
        if IsBackupName(name, base) {
          var p := Paths.Join(dir, name);
          if p !in fs.files || fs.files[p].mtime.None? {
            CandidatesAbandoned(fs.files, dir, base, listing, i + 1);
            return None;
          }
          acc := acc + [Backup(p, fs.files[p].mtime.value)];
        }
        i := i + 1;
      }
      assert listing[..i] == listing;
      found := Some(acc);
    }

    /** The second loop of `cleanup_old_backups`: each doomed backup is unlinked; a missing one is skipped. */
    method DeleteAll(fs: FileSystem, doomed: seq<Backup>)
      modifies fs
      ensures fs.files == old(fs.files) - PathsOf(doomed)
    {
      var gone: set<string> := {};
      var j := 0;
      while j < |doomed|
        invariant 0 <= j <= |doomed|
        invariant gone == PathsOf(doomed[..j])
        invariant fs.files == old(fs.files) - gone
      {
        assert doomed[..j + 1] == doomed[..j] + [doomed[j]];
        fs.files := fs.files - {doomed[j].path};
        gone := gone + {doomed[j].path};
        j := j + 1;
      }
      assert doomed[..j] == doomed;
    }

    /** `load_config_with_defaults`: the stored keys, plus every default key the file lacks. */
    method LoadConfigWithDefaults(fs: FileSystem, defaults: Object) returns (config: Object)
      ensures config.Keys == ReadData(fs).Keys + defaults.Keys
      ensures forall k | k in ReadData(fs) :: config[k] == ReadData(fs)[k]
      ensures forall k | k in defaults && k !in ReadData(fs) :: config[k] == defaults[k]
    {
      config := MergeDefaults(ReadData(fs), defaults);
    }

    /** `save_config`: back up, write, and prune backups (at most five) only after a successful write. */
    method SaveConfig(fs: FileSystem, config: Object, now: int, copyFails: bool, mainFails: bool, syncFails: bool,
                      listing: seq<string>) returns (ok: bool)
      modifies fs
      ensures ok == !mainFails
      ensures var backed := BackedUp(old(fs.files), filePath, ".bak", copyFails);
        fs.files == if mainFails then backed
                    else Pruned(Written(backed, filePath, icloudPath, codec, config, now, false, syncFails),
                                Paths.Dirname(filePath), Paths.Basename(filePath), listing, 5)
    {
      var _ := BackupFile(fs, ".bak", copyFails);
      ok := WriteData(fs, config, now, mainFails, syncFails);
      if ok {
        CleanupOldBackups(fs, listing, 5);
      }
    }

    /** `write_monitoring_data`: stamps the update time into the data, then writes it. */
    method WriteMonitoringData(fs: FileSystem, data: Object, now: int, iso: Timestamps.IsoCodec, mainFails: bool, syncFails: bool)
      returns (ok: bool, stamped: Object)
      modifies fs
      ensures stamped.Keys == data.Keys + {LAST_FILE_UPDATE}
      ensures stamped[LAST_FILE_UPDATE] == JStr(iso.format(now))
      ensures forall k | k in data && k != LAST_FILE_UPDATE :: stamped[k] == data[k]
      ensures ok == !mainFails
      ensures fs.files == Written(old(fs.files), filePath, icloudPath, codec, stamped, now, mainFails, syncFails)
    {
      stamped := data[LAST_FILE_UPDATE := JStr(iso.format(now))];
      ok := WriteData(fs, stamped, now, mainFails, syncFails);
    }
  }

  /** Once a listed backup has no readable time, the candidates of any longer listing are `None` too. */
  lemma {:induction false} CandidatesAbandoned(files: map<string, FileState>, dir: string, base: string, listing: seq<string>, n: nat)
    requires 0 < n <= |listing|
    requires Candidates(files, dir, base, listing[..n]).None?
    ensures Candidates(files, dir, base, listing).None?
    decreases |listing| - n
  {
    if n < |listing| {
      assert listing[..n + 1][..n] == listing[..n];
      CandidatesAbandoned(files, dir, base, listing, n + 1);
    } else {
      assert listing[..n] == listing;
    }
  }
}
