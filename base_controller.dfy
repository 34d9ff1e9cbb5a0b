/**
 * The base of the controllers: the application's asset directories, derived from where the
 * controllers live, random identifiers of lowercase letters and digits, and database paths
 * whose directory is created on a best-effort basis.
 */
module BaseController {

  import opened Wrappers
  import opened Paths
  import opened FileSystem

  /** `string.ascii_lowercase + string.digits`. */
  const Alphabet: string := "abcdefghijklmnopqrstuvwxyz0123456789"

  /** A position in the alphabet: what one random choice draws. */
  type Pick = n: int | 0 <= n < 36

  predicate IsLowerOrDigit(c: char) {
    ('a' <= c <= 'z') || ('0' <= c <= '9')
  }

  lemma AlphabetIsLowerAndDigits()
    ensures |Alphabet| == 36
    ensures forall k :: 0 <= k < |Alphabet| ==> IsLowerOrDigit(Alphabet[k])
    ensures forall c :: IsLowerOrDigit(c) ==> c in Alphabet
  {
    forall c | IsLowerOrDigit(c)
      ensures c in Alphabet
    {
      if 'a' <= c <= 'z' {
        assert Alphabet[c as int - 'a' as int] == c;
      } else {
        assert Alphabet[26 + c as int - '0' as int] == c;
      }
    }
  }

  /** The position of an alphabet character. */
  function PickOf(c: char): (n: Pick)
    requires IsLowerOrDigit(c)
    ensures Alphabet[n] == c
  {
    if 'a' <= c <= 'z' then c as int - 'a' as int else 26 + c as int - '0' as int
  }

  /** Every string of lowercase letters and digits is drawn by some sequence of choices. */
  lemma EveryStringCanBeDrawn(c: Controller, s: string)
    requires forall k :: 0 <= k < |s| ==> IsLowerOrDigit(s[k])
    ensures exists draw: nat -> Pick :: c.GenerateRandomString(draw, |s|) == s
  {
    var draw: nat -> Pick := (i: nat) => if i < |s| then PickOf(s[i]) else 0;
    assert c.GenerateRandomString(draw, |s|) == s;
  }

  class Controller {

    const baseDir: Path
    const filesDir: Path
    const databaseDir: Path

    /** The base directory is two levels above `sourceFile`, the module's own path; the
        files and database directories are `assets/files` and `assets/database` in it. */
    constructor (sourceFile: Path)
      ensures baseDir == Dirname(Dirname(sourceFile))
      ensures filesDir == Join(baseDir, "assets/files")
      ensures databaseDir == Join(baseDir, "assets/database")
    {
      baseDir := Dirname(Dirname(sourceFile));
      filesDir := Join(Dirname(Dirname(sourceFile)), "assets/files");
      databaseDir := Join(Dirname(Dirname(sourceFile)), "assets/database");
    }

    /** `generate_random_string`: `random.choices(alphabet, k=length)` joined, the `i`-th
        character being the alphabet entry of the `i`-th draw; `length` characters, 12 by
        default, and none for a length below one. */
    function GenerateRandomString(draw: nat -> Pick, length: int := 12): (r: string)
      ensures |r| == if length < 0 then 0 else length
      ensures forall k :: 0 <= k < |r| ==> IsLowerOrDigit(r[k])
    {
      AlphabetIsLowerAndDigits();
      seq(if length < 0 then 0 else length, i requires 0 <= i => Alphabet[draw(i)])
    }

    /** `get_database_path`: the database directory joined with `dbName`, returned whether or
        not creating that directory succeeds; an existing directory is kept as it is. */
    method GetDatabasePath(d0: Disk, dbName: string) returns (path: Path, d: Disk)
      ensures path == Join(databaseDir, dbName)
      ensures MakeDirs(d0, path).Err? ==> d == d0
      ensures MakeDirs(d0, path).Ok? ==> path in d.dirs && d.files == d0.files && d.faulty == d0.faulty
      ensures MakeDirs(d0, path).Ok? ==> d.dirs == d0.dirs + {path} && MakeDirs(d, path) == Ok(d)
      ensures path in d0.dirs ==> d == d0
    {
      path := Join(databaseDir, dbName);
      d := d0;
      var made := MakeDirs(d0, path);
      if made.Ok? {
        d := made.value;
      }
    }
  }

  /** For a module at `root/package/file` the base directory is `root`: two `dirname`
      steps remove the file name and the package directory. */
  lemma LayoutOfRoot(root: Path, package: string, file: string)
    requires root != [] && !EndsWithSlash(root)
    requires package != [] && NoSlash(package) && NoSlash(file)
    ensures Dirname(Dirname(root + "/" + package + "/" + file)) == root
  {
    var dir := root + "/" + package;
    assert dir != [] && !EndsWithSlash(dir) by {
      assert dir[|dir| - 1] == package[|package| - 1];
    }
    DirnameOfChild(dir, file);
    DirnameOfChild(root, package);
  }
}
