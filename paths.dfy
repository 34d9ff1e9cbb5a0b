/** POSIX path manipulation as Python's `posixpath` does it: `join`, `dirname`, `splitext`. */
module Paths {

  import opened Wrappers

  type Path = string

  predicate EndsWithSlash(p: Path) {
    p != [] && p[|p| - 1] == '/'
  }

  /** `os.path.join(a, b)`: an absolute `b` replaces `a`; otherwise one separator goes between. */
  function Join(a: Path, b: Path): (r: Path)
    ensures b != [] && b[0] == '/' ==> r == b
    ensures (b == [] || b[0] != '/') && !EndsWithSlash(a) && a != [] ==> r == a + "/" + b
    ensures (b == [] || b[0] != '/') && (EndsWithSlash(a) || a == []) ==> r == a + b
  {
    if b != [] && b[0] == '/' then b
    else if a == [] || EndsWithSlash(a) then a + b
    else a + "/" + b
  }

  /** Index just after the last '/' of `p` (0 when there is none), as `p.rfind('/') + 1`. */
  function AfterLastSlash(p: Path): (i: nat)
    ensures i <= |p|
    ensures i > 0 ==> p[i - 1] == '/'
    ensures forall k :: i <= k < |p| ==> p[k] != '/'
  {
    if p == [] then 0
    else if p[|p| - 1] == '/' then |p|
    else AfterLastSlash(p[..|p| - 1])
  }

  predicate AllSlashes(p: Path) {
    forall k :: 0 <= k < |p| ==> p[k] == '/'
  }

  /** `s.rstrip('/')`. */
  function RStripSlashes(s: Path): (r: Path)
    ensures |r| <= |s| && r == s[..|r|]
    ensures r == [] || r[|r| - 1] != '/'
  {
    if s != [] && s[|s| - 1] == '/' then RStripSlashes(s[..|s| - 1]) else s
  }

  /** `os.path.dirname(p)`. */
  function Dirname(p: Path): Path {
    var head := p[..AfterLastSlash(p)];
    if head != [] && !AllSlashes(head) then RStripSlashes(head) else head
  }

  /** `os.path.splitext(p)`: (root, extension), the extension starting at the last dot of the
      final component unless that component consists only of leading dots before it. */
  function SplitExt(p: Path): (r: (Path, Path))
    ensures r.0 + r.1 == p
    ensures r.1 == [] || r.1[0] == '.'
  {
    var sepIndex := AfterLastSlash(p);
    var dotIndex := LastDot(p);
    if dotIndex.Some? && dotIndex.value >= sepIndex && !AllDots(p[sepIndex..dotIndex.value]) then
      (p[..dotIndex.value], p[dotIndex.value..])
    else
      (p, "")
  }

  /** Index of the last '.' in `p`, as `p.rfind('.')`. */
  function LastDot(p: Path): (r: Option<nat>)
    ensures r.Some? ==> r.value < |p| && p[r.value] == '.'
    ensures r.Some? ==> forall k :: r.value < k < |p| ==> p[k] != '.'
    ensures r.None? ==> forall k :: 0 <= k < |p| ==> p[k] != '.'
  {
    if p == [] then None
    else if p[|p| - 1] == '.' then Some(|p| - 1)
    else LastDot(p[..|p| - 1])
  }

  predicate AllDots(s: Path) {
    forall k :: 0 <= k < |s| ==> s[k] == '.'
  }

  // ---------------------------------------------------------------------
  // Properties

  predicate NoSlash(s: string) {
    forall k :: 0 <= k < |s| ==> s[k] != '/'
  }

  /** The directory of `d/n` is `d`, for a file name `n` without separators. */
  lemma DirnameOfChild(d: Path, n: string)
    requires d != [] && !EndsWithSlash(d)
    requires NoSlash(n)
    ensures Dirname(d + "/" + n) == d
  {
    var p := d + "/" + n;
    var i := AfterLastSlash(p);
    assert p[|d|] == '/';
    assert forall k :: |d| + 1 <= k < |p| ==> p[k] == n[k - |d| - 1];
    assert i == |d| + 1;
    var head := p[..i];
    assert head == d + "/";
    assert head[|head| - 2] == d[|d| - 1];
    assert !AllSlashes(head);
    assert RStripSlashes(head) == RStripSlashes(d);
  }

  /** Joining a relative path in two steps or one gives the same path. */
  lemma JoinJoin(a: Path, dir: Path, n: Path)
    requires dir != [] && dir[0] != '/' && !EndsWithSlash(dir)
    requires n == [] || n[0] != '/'
    ensures Join(Join(a, dir), n) == Join(a, dir + "/" + n)
    ensures Join(a, dir) != [] && !EndsWithSlash(Join(a, dir))
  {
    var j := Join(a, dir);
    var full := dir + "/" + n;
    assert full[0] == dir[0];
    if a == [] || EndsWithSlash(a) {
      assert j == a + dir;
      assert Join(a, full) == a + full;
    } else {
      assert j == a + "/" + dir;
      assert Join(a, full) == a + "/" + full;
    }
    assert j[|j| - 1] == dir[|dir| - 1];
    assert Join(j, n) == j + "/" + n;
  }

  /** The directory of a file under `Join(a, dir)` is `Join(a, dir)`. */
  lemma DirnameOfJoined(a: Path, dir: Path, n: string)
    requires dir != [] && dir[0] != '/' && !EndsWithSlash(dir)
    requires NoSlash(n)
    ensures Dirname(Join(a, dir + "/" + n)) == Join(a, dir)
  {
    if n != [] { assert n[0] != '/'; }
    JoinJoin(a, dir, n);
    DirnameOfChild(Join(a, dir), n);
  }
}
