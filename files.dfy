/**
 * The part of the filesystem the daemon and the hooks touch: text files
 * held as their lines, each with a modification time that may be unreadable.
 */
module Files {
  import opened Wrappers

  datatype FileState = FileState(lines: seq<string>, mtime: Option<int>)

  /** The files of the machine, by path; the hooks and the daemon change them in place. */
  class FileSystem {
    var files: map<string, FileState>

    constructor(files: map<string, FileState>)
      ensures this.files == files
    {
      this.files := files;
    }
  }

  /** The lines of a file, or `None` when it does not exist. */
  function LinesOf(files: map<string, FileState>, path: string): Option<seq<string>>
  {
    if path in files then Some(files[path].lines) else None
  }
}
