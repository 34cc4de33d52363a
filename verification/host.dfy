/**
  The host facts the build script probes: the file system it lists, and the
  errors those probes raise.
 */
module Host {
  import opened Wrappers

  /** The file system as the script sees it: every directory (keyed by the
      exact path string the script passes) with its listing in `os.listdir`
      order, and the paths that exist but are not directories. */
  datatype FileSystem = FileSystem(dirs: map<string, seq<string>>, files: set<string>)

  /** Everything that aborts the script before `setup` is reached. */
  datatype BuildError =
    | UnsupportedPlatform(system: string)   // no profile block ran: `osname` and friends are undefined
    | MissingDirectory(path: string)        // `os.listdir` raised FileNotFoundError
    | NotADirectory(path: string)           // `os.listdir` raised NotADirectoryError

  /** `os.access(path, os.F_OK)`: something exists at `path`. */
  predicate Exists(fs: FileSystem, path: string) {
    path in fs.dirs || path in fs.files
  }

  /** `os.listdir(path)`: the directory's entries, or the error it raises. */
  function ListDir(fs: FileSystem, path: string): (r: Result<seq<string>, BuildError>)
    ensures r.Success? <==> path in fs.dirs
    ensures r.Success? ==> r.value == fs.dirs[path]
    ensures r.Failure? ==> r.error == (if path in fs.files then NotADirectory(path) else MissingDirectory(path))
  {
    if path in fs.dirs then Success(fs.dirs[path])
    else if path in fs.files then Failure(NotADirectory(path))
    else Failure(MissingDirectory(path))
  }
}
