/** POSIX path helpers with the semantics of Python's `os.path` and `str.rstrip('/')`. */
module Paths {
  /** `p.rstrip('/')`: `p` without its trailing slashes. */
  function RStripSlash(p: string): (r: string)
    ensures |r| <= |p| && r == p[..|r|]
    ensures forall i | |r| <= i < |p| :: p[i] == '/'
    ensures r == [] || r[|r| - 1] != '/'
  {
    if p != [] && p[|p| - 1] == '/' then RStripSlash(p[..|p| - 1]) else p
  }

  /** A string made only of slashes (the empty string included). */
  predicate AllSlashes(p: string)
  {
    forall i | 0 <= i < |p| :: p[i] == '/'
  }

  /**
   * `os.path.basename(p)`: the longest suffix of `p` without a slash, which
   * is empty exactly when `p` is empty or ends in a slash.
   */
  function Basename(p: string): (r: string)
    ensures |r| <= |p| && r == p[|p| - |r|..]
    ensures forall i | 0 <= i < |r| :: r[i] != '/'
    ensures |r| < |p| ==> p[|p| - |r| - 1] == '/'
  {
    if p == [] || p[|p| - 1] == '/' then []
    else
      var b := Basename(p[..|p| - 1]);
      b + [p[|p| - 1]]
  }

  /** A slash-free path is its own basename. */
  lemma {:induction false} BasenameNoSlash(p: string)
    requires forall i | 0 <= i < |p| :: p[i] != '/'
    ensures Basename(p) == p
  {
    if p != [] {
      BasenameNoSlash(p[..|p| - 1]);
    }
  }

  /** The basename of `parent/name` is `name` when `name` has no slash. */
  lemma {:induction false} BasenameAfterSlash(parent: string, name: string)
    requires forall i | 0 <= i < |name| :: name[i] != '/'
    ensures Basename(parent + "/" + name) == name
  {
    var p := parent + "/" + name;
    if name != [] {
      var init := name[..|name| - 1];
      assert p[..|p| - 1] == parent + "/" + init;
      BasenameAfterSlash(parent, init);
      assert init + [name[|name| - 1]] == name;
    }
  }

  /** A basename is empty exactly for the empty path and for paths that end in a slash. */
  lemma BasenameEmpty(p: string)
    ensures Basename(p) == [] <==> p == [] || p[|p| - 1] == '/'
  {
  }

  /** `os.path.dirname(p)`: everything before the last slash, trailing slashes removed unless only slashes remain. */
  function Dirname(p: string): (r: string)
    ensures |r| <= |p| && r == p[..|r|]
  {
    var head := p[..|p| - |Basename(p)|];
    if AllSlashes(head) then head else RStripSlash(head)
  }

  /** `os.path.join(a, b)` for a relative `b`. */
  function Join(a: string, b: string): (r: string)
    ensures |r| >= |b| && r[|r| - |b|..] == b
  {
    if a == [] || a[|a| - 1] == '/' then a + b else a + "/" + b
  }
}
