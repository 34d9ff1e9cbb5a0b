/**
 * The process's view of the file system: regular files with their bytes, the set of existing
 * directories, and the set of paths at which writing fails (permissions, a full disk, ...).
 * Paths are absolute; a relative path `p` names `Join(cwd, p)`.
 */
module FileSystem {

  import opened Wrappers
  import opened Paths
  import opened Text

  newtype Byte = b: int | 0 <= b < 256

  type Bytes = seq<Byte>

  datatype Disk = Disk(files: map<Path, Bytes>, dirs: set<Path>, faulty: set<Path>)

  /** An `OSError` raised by a file-system call: its `errno`, the path the program handed to
      the call, and the system's text for the error. */
  datatype IoError = IoError(errno: nat, path: Path, message: string)

  const ENOENT: nat := 2
  const EACCES: nat := 13
  const EEXIST: nat := 17
  const EISDIR: nat := 21

  /** `str(e)` for an `OSError` raised with a file name. */
  function OsErrorText(e: IoError): string {
    "[Errno " + Decimal(e.errno) + "] " + e.message + ": '" + e.path + "'"
  }

  /** `str(e)` for an `OSError` raised without a file name, as by a write to an open file. */
  function OsErrorTextNoPath(e: IoError): string {
    "[Errno " + Decimal(e.errno) + "] " + e.message
  }

  /** The error as raised by a call handed `p`, which the model resolves before the call. */
  function AsPassed(e: IoError, p: Path): (r: IoError)
    ensures r.errno == e.errno && r.message == e.message && r.path == p
  {
    e.(path := p)
  }

  /** The codes print as Python prints them. */
  lemma ErrnoNumerals()
    ensures Decimal(ENOENT) == "2" && Decimal(EACCES) == "13"
    ensures Decimal(EEXIST) == "17" && Decimal(EISDIR) == "21"
  {
    assert Decimal(13) == Decimal(1) + ['3'];
    assert Decimal(17) == Decimal(1) + ['7'];
    assert Decimal(21) == Decimal(2) + ['1'];
  }

  /** The relative path `p` resolved against the working directory `cwd`. */
  function Resolve(cwd: Path, p: Path): Path {
    Join(cwd, p)
  }

  /** `os.makedirs(p, exist_ok=True)`: nothing happens when the directory exists. */
  function MakeDirs(d: Disk, p: Path): Result<Disk, IoError> {
    if p in d.dirs then Ok(d)
    else if p in d.files then Err(IoError(EEXIST, p, "File exists"))
    else if p in d.faulty then Err(IoError(EACCES, p, "Permission denied"))
    else Ok(d.(dirs := d.dirs + {p}))
  }

  /** Opening `p` for writing and writing `bytes` into it (creating or truncating the file). */
  function WriteFile(d: Disk, p: Path, bytes: Bytes): Result<Disk, IoError> {
    if Dirname(p) !in d.dirs then Err(IoError(ENOENT, p, "No such file or directory"))
    else if p in d.dirs then Err(IoError(EISDIR, p, "Is a directory"))
    else if p in d.faulty then Err(IoError(EACCES, p, "Permission denied"))
    else Ok(d.(files := d.files[p := bytes]))
  }

  /** Creating the empty file `p`, as a named temporary file is created. */
  function CreateEmpty(d: Disk, p: Path): Result<Disk, IoError> {
    if Dirname(p) !in d.dirs then Err(IoError(ENOENT, p, "No such file or directory"))
    else Ok(d.(files := d.files[p := []]))
  }

  /** `os.remove(p)`. */
  function Remove(d: Disk, p: Path): Result<Disk, IoError> {
    if p !in d.files then Err(IoError(ENOENT, p, "No such file or directory"))
    else if p in d.faulty then Err(IoError(EACCES, p, "Permission denied"))
    else Ok(d.(files := d.files - {p}))
  }

  /** `os.path.exists(p)`: true for files and directories. */
  predicate Exists(d: Disk, p: Path) {
    p in d.files || p in d.dirs
  }

  // ---------------------------------------------------------------------
  // Properties

  /** Creating a directory a second time changes nothing and succeeds. */
  lemma MakeDirsIdempotent(d: Disk, p: Path)
    requires MakeDirs(d, p).Ok?
    ensures MakeDirs(d, p).value.files == d.files
    ensures p in MakeDirs(d, p).value.dirs
    ensures MakeDirs(MakeDirs(d, p).value, p) == MakeDirs(d, p)
  {
  }

  /** A successful write is read back unchanged and leaves every other file as it was. */
  lemma WriteThenRead(d: Disk, p: Path, bytes: Bytes)
    requires WriteFile(d, p, bytes).Ok?
    ensures p in WriteFile(d, p, bytes).value.files
    ensures WriteFile(d, p, bytes).value.files[p] == bytes
    ensures forall q :: q != p && q in d.files ==> q in WriteFile(d, p, bytes).value.files
    ensures forall q :: q != p && q in WriteFile(d, p, bytes).value.files ==>
      q in d.files && WriteFile(d, p, bytes).value.files[q] == d.files[q]
  {
  }

  /** Once the containing directory exists, a write fails only at a faulty path or a directory. */
  lemma WriteAfterMakeDirs(d: Disk, p: Path, bytes: Bytes)
    requires Dirname(p) != p
    requires MakeDirs(d, Dirname(p)).Ok?
    ensures WriteFile(MakeDirs(d, Dirname(p)).value, p, bytes).Ok? <==> p !in d.faulty && p !in d.dirs
  {
  }
}
