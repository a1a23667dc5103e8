/** The POSIX `os.path` functions the artifact naming rules use:
    `join`, `basename`, `dirname` and `splitext`. */
module Paths {

  /** `p.rfind('/')`: index of the last slash, or -1. */
  function LastSlash(p: string): (i: int)
    ensures -1 <= i < |p|
    ensures i >= 0 ==> p[i] == '/'
    ensures forall j | i < j < |p| :: p[j] != '/'
  {
    if p == [] then -1
    else if p[|p| - 1] == '/' then |p| - 1
    else LastSlash(p[..|p| - 1])
  }

  predicate AllSlashes(p: string) {
    forall c | c in p :: c == '/'
  }

  /** `p.rstrip('/')` */
  function StripTrailingSlashes(p: string): (r: string)
    ensures |r| <= |p| && r == p[..|r|]
    ensures r == [] || r[|r| - 1] != '/'
    ensures !AllSlashes(p) ==> r != []
  {
    if p != [] && p[|p| - 1] == '/' then
      assert p == p[..|p| - 1] + [p[|p| - 1]];
      StripTrailingSlashes(p[..|p| - 1])
    else p
  }

  /** `os.path.basename(p)`: everything after the last slash. */
  function Basename(p: string): (r: string)
    ensures '/' !in r
  {
    p[LastSlash(p) + 1..]
  }

  /** A directory as `dirname` returns it: empty, the root (all slashes),
      or without a trailing slash. */
  predicate CleanDir(d: string) {
    d == [] || AllSlashes(d) || d[|d| - 1] != '/'
  }

  /** `os.path.dirname(p)`: everything before the last slash, trailing
      slashes stripped unless the head is the root. */
  function Dirname(p: string): (r: string)
    ensures CleanDir(r)
  {
    var head := p[..LastSlash(p) + 1];
    if head != [] && !AllSlashes(head) then StripTrailingSlashes(head) else head
  }

  /** `os.path.join(a, b)` for two components. */
  function Join(a: string, b: string): string {
    if |b| > 0 && b[0] == '/' then b
    else if a == [] || a[|a| - 1] == '/' then a + b
    else a + "/" + b
  }

  /** `p.rfind('.')` */
  function LastDot(p: string): (i: int)
    ensures -1 <= i < |p|
    ensures i >= 0 ==> p[i] == '.'
    ensures forall j | i < j < |p| :: p[j] != '.'
  {
    if p == [] then -1
    else if p[|p| - 1] == '.' then |p| - 1
    else LastDot(p[..|p| - 1])
  }

  /** `os.path.splitext(name)` for a name without slashes: the extension
      starts at the last dot, unless only dots precede it. */
  function SplitExt(name: string): (r: (string, string))
    ensures r.0 + r.1 == name
    ensures r.1 == [] || (r.1[0] == '.' && '.' !in r.1[1..])
  {
    var dot := LastDot(name);
    if dot > 0 && exists k | 0 <= k < dot :: name[k] != '.' then
      assert name == name[..dot] + name[dot..];
      (name[..dot], name[dot..])
    else (name, [])
  }

  lemma {:induction false} LastSlashAfter(a: string, n: string)
    requires '/' !in n
    ensures LastSlash(a + n) == (if LastSlash(a) >= 0 then LastSlash(a) else -1)
  {
    if n != [] {
      assert (a + n)[..|a + n| - 1] == a + n[..|n| - 1];
      LastSlashAfter(a, n[..|n| - 1]);
    } else {
      assert a + n == a;
    }
  }

  /** A name joined onto a directory is the basename of the result. */
  lemma BasenameOfJoin(d: string, n: string)
    requires n != [] && '/' !in n
    ensures Basename(Join(d, n)) == n
  {
    if d == [] {
      assert Join(d, n) == [] + n;
      LastSlashAfter([], n);
    } else if d[|d| - 1] == '/' {
      LastSlashAfter(d, n);
    } else {
      LastSlashAfter(d + "/", n);
      assert (d + "/" + n)[|d| + 1..] == n;
    }
  }

  /** The directory a name is joined onto is recovered by `dirname`. */
  lemma DirnameOfJoin(d: string, n: string)
    requires CleanDir(d)
    requires n != [] && '/' !in n
    ensures Dirname(Join(d, n)) == d
  {
    if d == [] {
      assert Join(d, n) == [] + n;
      LastSlashAfter([], n);
    } else if d[|d| - 1] == '/' {
      LastSlashAfter(d, n);
      assert (d + n)[..|d|] == d;
    } else {
      var p := d + "/" + n;
      LastSlashAfter(d + "/", n);
      assert p[..|d| + 1] == d + "/";
      assert !AllSlashes(d + "/") by { assert d[|d| - 1] in d + "/"; }
      assert StripTrailingSlashes(d + "/") == d by {
        assert (d + "/")[..|d|] == d;
      }
    }
  }
}
