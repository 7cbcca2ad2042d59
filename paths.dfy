/** The POSIX `os.path` functions the asset indexer calls: `splitext` and `join`. */
module PosixPath {

  /** `s.rfind(c)`: the index of the last `c` in `s`, or -1 when there is none. */
  function RFind(s: string, c: char): (k: int)
    ensures -1 <= k < |s|
    ensures k >= 0 ==> s[k] == c
    ensures forall i :: k < i < |s| ==> s[i] != c
  {
    if s == [] then -1
    else if s[|s| - 1] == c then |s| - 1
    else RFind(s[..|s| - 1], c)
  }

  /** Some character other than '.' stands in `p` strictly between indexes `lo` and `hi`. */
  predicate HasNonDotBetween(p: string, lo: int, hi: int)
    requires -1 <= lo && hi <= |p|
  {
    exists k :: lo < k < hi && p[k] != '.'
  }

  /**
   * `os.path.splitext(p)`: `(root, ext)` where `ext` runs from the last '.' of
   * the final path component to the end, provided that component has a
   * character other than '.' before that dot; otherwise `ext` is empty, so
   * ".png" and "..png" have no extension.
   */
  function SplitExt(p: string): (r: (string, string))
    ensures r.0 + r.1 == p
    ensures r.1 != [] ==> r.1[0] == '.' && forall i :: 1 <= i < |r.1| ==> r.1[i] != '.' && r.1[i] != '/'
    ensures r.1 != [] ==> HasNonDotBetween(p, RFind(p, '/'), |r.0|)
    ensures r.1 == [] ==> forall d :: RFind(p, '/') < d < |p| && p[d] == '.' ==> !HasNonDotBetween(p, RFind(p, '/'), d)
  {
    var sep, dot := RFind(p, '/'), RFind(p, '.');
    if dot > sep && HasNonDotBetween(p, sep, dot) then
      assert p[..dot] + p[dot..] == p;
      (p[..dot], p[dot..])
    else
      assert p + [] == p;
      assert forall d :: sep < d < |p| && p[d] == '.' ==> d <= dot;
      (p, [])
  }

  /** A name made of one leading '.' and no other dot, such as ".png", has no extension. */
  lemma LeadingDotIsNotAnExtension(name: string)
    requires |name| >= 1 && name[0] == '.'
    requires forall i :: 0 < i < |name| ==> name[i] != '.' && name[i] != '/'
    ensures SplitExt(name).1 == []
  {
    var sep, dot := RFind(name, '/'), RFind(name, '.');
    assert sep == -1;
    assert dot == 0;
  }

  /**
   * `os.path.join(a, b)`: `b` itself when it is absolute, `a + b` when `a` is
   * empty or ends in '/', and `a + "/" + b` otherwise.
   */
  function Join(a: string, b: string): (r: string)
    ensures |b| <= |r| && r[|r| - |b|..] == b
    ensures (b == [] || b[0] != '/') ==> |a| <= |r| && r[..|a|] == a
    ensures |r| <= |a| + 1 + |b|
    ensures b != [] && b[0] == '/' ==> r == b
    ensures (b == [] || b[0] != '/') ==> r == a + b || r == a + "/" + b
    ensures (b == [] || b[0] != '/') ==> (|r| == |a| + 1 + |b| <==> a != [] && a[|a| - 1] != '/')
  {
    if b != [] && b[0] == '/' then b
    else if a == [] || a[|a| - 1] == '/' then a + b
    else a + "/" + b
  }
}
