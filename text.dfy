/** The Python string operations the agents rely on: `str.strip()`, `in` on strings, `str.lower()`. */
module Text {

  /** Python's `str.isspace()` for one character: the characters `str.strip()` removes. */
  predicate IsSpace(c: char) {
    var n := c as int;
    || 0x09 <= n <= 0x0D || 0x1C <= n <= 0x20
    || n == 0x85 || n == 0xA0 || n == 0x1680
    || 0x2000 <= n <= 0x200A
    || n == 0x2028 || n == 0x2029 || n == 0x202F || n == 0x205F || n == 0x3000
  }

  predicate AllSpace(s: string) {
    forall i :: 0 <= i < |s| ==> IsSpace(s[i])
  }

  /** The number of whitespace characters `s` starts with. */
  function LeadingSpace(s: string): (n: nat)
    ensures n <= |s| && AllSpace(s[..n])
    ensures n < |s| ==> !IsSpace(s[n])
  {
    if s == [] || !IsSpace(s[0]) then 0
    else
      var n := 1 + LeadingSpace(s[1..]);
      assert forall i :: 1 <= i < n ==> s[..n][i] == s[1..][..n - 1][i - 1];
      n
  }

  /** The number of whitespace characters `s` ends with. */
  function TrailingSpace(s: string): (n: nat)
    ensures n <= |s| && AllSpace(s[|s| - n..])
    ensures n < |s| ==> !IsSpace(s[|s| - n - 1])
  {
    if s == [] || !IsSpace(s[|s| - 1]) then 0
    else
      var front := s[..|s| - 1];
      var m := TrailingSpace(front);
      var tail := s[|s| - (m + 1)..];
      assert AllSpace(tail) by {
        forall k | 0 <= k < |tail| ensures IsSpace(tail[k]) {
          if k < m {
            assert tail[k] == front[|front| - m..][k];
          }
        }
      }
      assert m + 1 < |s| ==> s[|s| - (m + 1) - 1] == front[|front| - m - 1];
      m + 1
  }

  /** `s.strip()`: `s` without its leading and trailing whitespace. */
  function Strip(s: string): (r: string)
    ensures exists i, j :: 0 <= i <= j <= |s| && r == s[i..j] && AllSpace(s[..i]) && AllSpace(s[j..])
    ensures r != [] ==> !IsSpace(r[0]) && !IsSpace(r[|r| - 1])
  {
    var i := LeadingSpace(s);
    if i == |s| then
      assert s[i..] == [] && s[i..i] == [];
      assert 0 <= i <= i <= |s| && AllSpace(s[..i]) && AllSpace(s[i..]);
      []
    else
      var rest := s[i..];
      var t := TrailingSpace(rest);
      assert rest[0] == s[i];
      var j := |s| - t;
      assert s[j..] == rest[|rest| - t..];
      var r := s[i..j];
      assert r[0] == s[i];
      assert r[|r| - 1] == rest[|rest| - t - 1];
      assert 0 <= i <= j <= |s| && AllSpace(s[..i]) && AllSpace(s[j..]);
      r
  }

  /** The whitespace-only strings are exactly those that strip to nothing. */
  lemma StripEmptyIffAllSpace(s: string)
    ensures Strip(s) == [] <==> AllSpace(s)
  {
    var r := Strip(s);
    var i, j :| 0 <= i <= j <= |s| && r == s[i..j] && AllSpace(s[..i]) && AllSpace(s[j..]);
    if r == [] {
      assert i == j;
      forall k | 0 <= k < |s| ensures IsSpace(s[k]) {
        if k < i { assert s[..i][k] == s[k]; } else { assert s[j..][k - j] == s[k]; }
      }
    } else {
      assert r[0] == s[i];
    }
  }

  /** Text that neither starts nor ends with whitespace strips to itself. */
  lemma StripOfTrimmed(s: string)
    requires s != [] && !IsSpace(s[0]) && !IsSpace(s[|s| - 1])
    ensures Strip(s) == s
  {
    var i, j :| 0 <= i <= j <= |s| && Strip(s) == s[i..j] && AllSpace(s[..i]) && AllSpace(s[j..]);
    if i > 0 { assert s[..i][0] == s[0]; }
    if j < |s| { assert s[j..][|s| - j - 1] == s[|s| - 1]; }
    assert s[0..|s|] == s;
  }

  /** `t` occurs in `s` starting at index `i`. */
  predicate OccursAt(s: string, t: string, i: nat) {
    i + |t| <= |s| && s[i..i + |t|] == t
  }

  /** `t in s` for strings: `t` occurs in `s` as a contiguous run. */
  function Contains(s: string, t: string): (b: bool)
    ensures b <==> exists i: nat :: OccursAt(s, t, i)
    decreases |s|
  {
    if |s| < |t| then false
    else if s[..|t|] == t then
      assert OccursAt(s, t, 0);
      true
    else
      var b := Contains(s[1..], t);
      assert forall i: nat :: OccursAt(s[1..], t, i) <==> OccursAt(s, t, i + 1) by {
        forall i: nat ensures OccursAt(s[1..], t, i) <==> OccursAt(s, t, i + 1) {
          if i + |t| <= |s| - 1 { assert s[1..][i..i + |t|] == s[i + 1..i + 1 + |t|]; }
        }
      }
      assert !OccursAt(s, t, 0);
      assert b ==> exists i: nat :: OccursAt(s, t, i) by {
        if b { var i: nat :| OccursAt(s[1..], t, i); assert OccursAt(s, t, i + 1); }
      }
      assert (exists i: nat :: OccursAt(s, t, i)) ==> b by {
        if exists i: nat :: OccursAt(s, t, i) {
          var i: nat :| OccursAt(s, t, i);
          assert i > 0 && OccursAt(s[1..], t, i - 1);
        }
      }
      b
  }

  /** Text without the first character of `t` does not contain `t`. */
  lemma NotContainsWithoutFirst(s: string, t: string)
    requires t != [] && forall i :: 0 <= i < |s| ==> s[i] != t[0]
    ensures !Contains(s, t)
  {
    forall i: nat ensures !OccursAt(s, t, i) {
      if i + |t| <= |s| {
        assert s[i..i + |t|][0] == s[i];
      }
    }
  }

  /** An ASCII capital letter, the only characters `Lower` changes. */
  predicate IsUpper(c: char) {
    'A' <= c <= 'Z'
  }

  /** Lower-cases an ASCII letter; every other character is left as it is. */
  function LowerChar(c: char): (d: char)
    ensures !IsUpper(d)
    ensures IsUpper(c) ==> d as int == c as int + 32
    ensures !IsUpper(c) ==> d == c
  {
    if IsUpper(c) then (c as int - 'A' as int + 'a' as int) as char else c
  }

  /**
   * `s.lower()` on the ASCII letters: no capital letter is left, every
   * capital becomes its small letter, and every other character is kept.
   */
  function Lower(s: string): (r: string)
    ensures |r| == |s|
    ensures forall i :: 0 <= i < |r| ==> !IsUpper(r[i])
    ensures forall i :: 0 <= i < |s| && IsUpper(s[i]) ==> r[i] as int == s[i] as int + 32
    ensures forall i :: 0 <= i < |s| && !IsUpper(s[i]) ==> r[i] == s[i]
  {
    seq(|s|, i requires 0 <= i < |s| => LowerChar(s[i]))
  }

  /** Lower-casing twice is lower-casing once. */
  lemma LowerIsIdempotent(s: string)
    ensures Lower(Lower(s)) == Lower(s)
  {
    var r := Lower(s);
    assert forall i :: 0 <= i < |r| ==> Lower(r)[i] == r[i];
  }

  /** `s` equals the lower-case word `w` when ASCII case is ignored. */
  predicate MatchesIgnoringCase(s: string, w: string) {
    |s| == |w| && forall i :: 0 <= i < |s| ==> s[i] == w[i] || (IsUpper(s[i]) && s[i] as int + 32 == w[i] as int)
  }

  /** Lower-casing gives a word without capitals exactly when the text matches that word ignoring case. */
  lemma LowerMatches(s: string, w: string)
    requires forall i :: 0 <= i < |w| ==> !IsUpper(w[i])
    ensures Lower(s) == w <==> MatchesIgnoringCase(s, w)
  {
    var r := Lower(s);
    if MatchesIgnoringCase(s, w) {
      forall i | 0 <= i < |r| ensures r[i] == w[i] {
        if !IsUpper(s[i]) { assert s[i] == w[i]; }
      }
    }
  }
}
