/**
 * The hook log compressor: keeps the shared activity log short by rewriting
 * it with only its most recent JSON entries. The file is one `FileState` of
 * the `FileSystem`; the JSON library is the `Codec` oracle.
 */
module HookLogCompressor {
  import opened Wrappers
  import opened Json
  import opened Text
  import opened Files

  /** What one line contributes when read back: nothing when blank or not JSON, else its value. */
  function LineEntry(line: string, decode: string -> Option<Value>): seq<Value>
  {
    if IsBlank(line) then []
    else match decode(Strip(line))
      case None => []
      case Some(v) => [v]
  }

  /** The entries of a log, line by line in file order. */
  function Entries(lines: seq<string>, decode: string -> Option<Value>): seq<Value>
  {
    if lines == [] then []
    else Entries(lines[..|lines| - 1], decode) + LineEntry(lines[|lines| - 1], decode)
  }

  /** Reading a log split in two reads the first part, then the second: order is kept. */
  lemma {:induction false} EntriesAppend(a: seq<string>, b: seq<string>, decode: string -> Option<Value>)
    ensures Entries(a + b, decode) == Entries(a, decode) + Entries(b, decode)
  {
    if b == [] {
      assert a + b == a;
    } else {
      var b' := b[..|b| - 1];
      var last := b[|b| - 1];
      assert (a + b)[..|a + b| - 1] == a + b';
      assert (a + b)[|a + b| - 1] == last;
      EntriesAppend(a, b', decode);
      calc {
        Entries(a + b, decode);
        Entries(a + b', decode) + LineEntry(last, decode);
        Entries(a, decode) + Entries(b', decode) + LineEntry(last, decode);
        Entries(a, decode) + (Entries(b', decode) + LineEntry(last, decode));
      }
    }
  }

  /** Every entry read comes from a non-blank line that decodes to it. */
  lemma {:induction false} EntriesFromLines(lines: seq<string>, decode: string -> Option<Value>, j: nat)
    requires j < |Entries(lines, decode)|
    ensures exists i | 0 <= i < |lines| :: !IsBlank(lines[i]) && decode(Strip(lines[i])) == Some(Entries(lines, decode)[j])
  {
    var init := lines[..|lines| - 1];
    var last := lines[|lines| - 1];
    if j < |Entries(init, decode)| {
      EntriesFromLines(init, decode, j);
      var i :| 0 <= i < |init| && !IsBlank(init[i]) && decode(Strip(init[i])) == Some(Entries(init, decode)[j]);
      assert lines[i] == init[i];
    } else {
      assert LineEntry(last, decode) != [];
    }
  }

  /** `_write_log_entries`: one compact JSON document per line. */
  function Encoded(entries: seq<Value>, encode: Value -> string): (r: seq<string>)
    ensures |r| == |entries|
    ensures forall i | 0 <= i < |r| :: r[i] == encode(entries[i])
  {
    if entries == [] then [] else Encoded(entries[..|entries| - 1], encode) + [encode(entries[|entries| - 1])]
  }

  /** `json.dump(entry, separators=(',', ':'))` writes neither blank lines nor surrounding white space. */
  ghost predicate CompactLines(c: Codec)
  {
    forall v :: !IsBlank(c.encode(v)) && Strip(c.encode(v)) == c.encode(v)
  }

  /** Every line the compressor writes reads back as the entry it holds. */
  ghost predicate LinesRoundTrip(c: Codec)
  {
    forall v :: LineEntry(c.encode(v), c.decode) == [v]
  }

  /** A faithful codec writing compact lines makes every written line read back. */
  lemma CompactRoundTrip(c: Codec)
    requires Faithful(c) && CompactLines(c)
    ensures LinesRoundTrip(c)
  {
    forall v
      ensures LineEntry(c.encode(v), c.decode) == [v]
    {
      CompactLine(c, v);
    }
  }

  lemma CompactLine(c: Codec, v: Value)
    requires Faithful(c) && CompactLines(c)
    ensures LineEntry(c.encode(v), c.decode) == [v]
  {
    var line := c.encode(v);
    assert !IsBlank(line) && Strip(line) == line;
    assert c.decode(line) == Some(v);
  }

  /** Entries written by the compressor read back unchanged, in order. */
  lemma {:induction false} ReadBackWritten(entries: seq<Value>, c: Codec)
    requires LinesRoundTrip(c)
    ensures Entries(Encoded(entries, c.encode), c.decode) == entries
  {
    if entries != [] {
      var init := entries[..|entries| - 1];
      var v := entries[|entries| - 1];
      ReadBackWritten(init, c);
      var lines := Encoded(entries, c.encode);
      assert lines[..|lines| - 1] == Encoded(init, c.encode);
      assert LineEntry(lines[|lines| - 1], c.decode) == [v];
    }
  }

  /** Python's `s[-k:]`: the last `k` items for positive `k`, all of `s` for `k == 0`, `s[-k:]` from the front for negative `k`. */
  function RecentSlice<T>(s: seq<T>, k: int): (r: seq<T>)
    ensures k > 0 ==> r == s[|s| - (if k < |s| then k else |s|)..]
  {
    if k > 0 then s[(if k < |s| then |s| - k else 0)..]
    else if k == 0 then s
    else s[(if -k < |s| then -k else |s|)..]
  }

  /**
   * The file system after keeping the last `k` entries of the log at `path`:
   * unchanged when the log is missing or holds at most `k` entries.
   */
  function KeptRecent(files: map<string, FileState>, path: string, k: int, c: Codec, now: int): map<string, FileState>
  {
    if path !in files then files
    else
      var entries := Entries(files[path].lines, c.decode);
      if |entries| <= k then files
      else files[path := FileState(Encoded(RecentSlice(entries, k), c.encode), Some(now))]
  }

  /** A log holding at most `k` entries, or none, is left alone; no file but the log ever changes. */
  lemma KeptRecentUntouched(files: map<string, FileState>, path: string, k: int, c: Codec, now: int)
    ensures path !in files ==> KeptRecent(files, path, k, c, now) == files
    ensures path in files && |Entries(files[path].lines, c.decode)| <= k ==> KeptRecent(files, path, k, c, now) == files
    ensures forall p | p != path :: (p in files <==> p in KeptRecent(files, path, k, c, now))
    ensures forall p | p != path && p in files :: KeptRecent(files, path, k, c, now)[p] == files[p]
  {
  }

  /**
   * A log holding more than `k >= 1` entries is rewritten with the lines of
   * its last `k` entries; no other file changes.
   */
  lemma KeptRecentWrites(files: map<string, FileState>, path: string, k: int, c: Codec, now: int)
    requires k >= 1 && path in files && |Entries(files[path].lines, c.decode)| > k
    ensures path in KeptRecent(files, path, k, c, now)
    ensures KeptRecent(files, path, k, c, now)[path]
         == FileState(Encoded(RecentSlice(Entries(files[path].lines, c.decode), k), c.encode), Some(now))
  {
  }

  /** The lines written for the last `k >= 1` of more than `k` entries read back as exactly those entries, in order. */
  lemma KeptRecentReadBack(lines: seq<string>, k: int, c: Codec)
    requires k >= 1 && LinesRoundTrip(c) && |Entries(lines, c.decode)| > k
    ensures Entries(Encoded(RecentSlice(Entries(lines, c.decode), k), c.encode), c.decode)
         == Entries(lines, c.decode)[|Entries(lines, c.decode)| - k..]
  {
    var entries := Entries(lines, c.decode);
    ReadBackWritten(RecentSlice(entries, k), c);
  }

  /** With a limit of zero, `entries[-0:]` is the whole list: the log is rewritten with every entry kept. */
  lemma KeptRecentZero(files: map<string, FileState>, path: string, c: Codec, now: int)
    requires path in files && Entries(files[path].lines, c.decode) != []
    requires LinesRoundTrip(c)
    ensures path in KeptRecent(files, path, 0, c, now)
    ensures Entries(KeptRecent(files, path, 0, c, now)[path].lines, c.decode) == Entries(files[path].lines, c.decode)
  {
    ReadBackWritten(Entries(files[path].lines, c.decode), c);
  }

  /** The loop of `_read_log_entries`: blank lines and lines that do not decode are skipped. */
  method DecodeLines(lines: seq<string>, decode: string -> Option<Value>) returns (entries: seq<Value>)
    ensures entries == Entries(lines, decode)
  {
    entries := [];
    var i := 0;
    while i < |lines|
      invariant 0 <= i <= |lines|
      invariant entries == Entries(lines[..i], decode)
    {
      assert lines[..i + 1][..i] == lines[..i];
      if !IsBlank(lines[i]) {
        var parsed := decode(Strip(lines[i]));
        if parsed.Some? {
          entries := entries + [parsed.value];
        }
      }
      i := i + 1;
    }
    assert lines[..i] == lines;
  }

  /** `HookLogCompressor`, with its log path, its two limits and the JSON library fixed when built. */
  class Compressor {
    const logPath: string
    const maxEntries: int
    const threshold: int
    const codec: Codec

    constructor(logPath: string, maxEntries: int, threshold: int, codec: Codec)
      ensures this.logPath == logPath && this.maxEntries == maxEntries
      ensures this.threshold == threshold && this.codec == codec
    {
      this.logPath, this.maxEntries, this.threshold, this.codec := logPath, maxEntries, threshold, codec;
    }

    /** `_count_log_entries`: the non-blank lines of the log, 0 when it is missing. */
    method CountLogEntries(fs: FileSystem) returns (count: nat)
      ensures count == if logPath in fs.files then CountNonBlank(fs.files[logPath].lines) else 0
    {
      if logPath !in fs.files {
        return 0;
      }
      var lines := fs.files[logPath].lines;
      count := 0;
      var i := 0;
      while i < |lines|
        invariant 0 <= i <= |lines|
        invariant count == CountNonBlank(lines[..i])
      {
        assert lines[..i + 1][..i] == lines[..i];
        if !IsBlank(lines[i]) {
          count := count + 1;
        }
        i := i + 1;
      }
      assert lines[..i] == lines;
    }

    /** `should_compress`: false for a missing log, else whether it has reached the threshold. */
    method ShouldCompress(fs: FileSystem) returns (b: bool)
      ensures b <==> logPath in fs.files && CountNonBlank(fs.files[logPath].lines) >= threshold
    {
      if logPath !in fs.files {
        return false;
      }
      var count := CountLogEntries(fs);
      b := count >= threshold;
    }

    /** `_read_log_entries`: the decoded non-blank lines in file order, none for a missing log. */
    method ReadLogEntries(fs: FileSystem) returns (entries: seq<Value>)
      ensures entries == if logPath in fs.files then Entries(fs.files[logPath].lines, codec.decode) else []
    {
      entries := [];
      if logPath !in fs.files {
        return;
      }
      entries := DecodeLines(fs.files[logPath].lines, codec.decode);
    }

    /** `_write_log_entries`: the log is replaced by one line per entry. */
    method WriteLogEntries(fs: FileSystem, entries: seq<Value>, now: int)
      modifies fs
      ensures fs.files == old(fs.files)[logPath := FileState(Encoded(entries, codec.encode), Some(now))]
    {
      var lines := [];
      var i := 0;
      while i < |entries|
        invariant 0 <= i <= |entries|
        invariant lines == Encoded(entries[..i], codec.encode)
      {
        assert entries[..i + 1][..i] == entries[..i];
        lines := lines + [codec.encode(entries[i])];
        i := i + 1;
      }
      assert entries[..i] == entries;
      fs.files := fs.files[logPath := FileState(lines, Some(now))];
    }

    /** Reads the log and keeps its last `k` entries (the shared body of both compressions). */
    method KeepRecent(fs: FileSystem, k: int, now: int)
      requires logPath in fs.files || k >= 0
      modifies fs
      ensures fs.files == KeptRecent(old(fs.files), logPath, k, codec, now)
    {
      var entries := ReadLogEntries(fs);
      if |entries| <= k {
        return;
      }
      WriteLogEntries(fs, RecentSlice(entries, k), now);
    }

    /** `compress_log_file`: keeps the last `maxEntries` entries when there are more; a modelled write cannot fail, so it succeeds. */
    method CompressLogFile(fs: FileSystem, now: int) returns (ok: bool)
      modifies fs
      ensures ok
      ensures fs.files == KeptRecent(old(fs.files), logPath, maxEntries, codec, now)
    {
      if logPath !in fs.files {
        return true;
      }
      KeepRecent(fs, maxEntries, now);
      ok := true;
    }

    /** `force_compress_to_size`: refuses a target below one, else keeps the last `target` entries. */
    method ForceCompressToSize(fs: FileSystem, target: int, now: int) returns (ok: bool)
      modifies fs
      ensures ok <==> target > 0
      ensures fs.files == if target <= 0 then old(fs.files) else KeptRecent(old(fs.files), logPath, target, codec, now)
    {
      if target <= 0 {
        return false;
      }
      KeepRecent(fs, target, now);
      ok := true;
    }

    /** `clear_log_file`: an existing log is emptied; a missing one is not created. */
    method ClearLogFile(fs: FileSystem, now: int) returns (ok: bool)
      modifies fs
      ensures ok
      ensures fs.files == if logPath in old(fs.files) then old(fs.files)[logPath := FileState([], Some(now))] else old(fs.files)
    {
      if logPath in fs.files {
        fs.files := fs.files[logPath := FileState([], Some(now))];
      }
      ok := true;
    }
  }
}
