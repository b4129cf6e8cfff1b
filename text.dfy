/** String primitives the rule engine applies to every text attribute:
    trimming, upper-casing, substring search and three-way comparison. */
module Text {

  /** A character that `trim()` is modelled as removing: every code point up to U+0020. */
  predicate IsSpace(c: char) {
    c <= ' '
  }

  /** True when `s` starts and ends with a non-space character (or is empty). */
  predicate Clean(s: string) {
    s == [] || (!IsSpace(s[0]) && !IsSpace(s[|s| - 1]))
  }

  predicate AllSpaces(s: string) {
    forall i :: 0 <= i < |s| ==> IsSpace(s[i])
  }

  /** The number of space characters at the start of `s`. */
  function LeadingSpaces(s: string): (k: nat)
    ensures k <= |s|
    ensures forall i :: 0 <= i < k ==> IsSpace(s[i])
    ensures k == |s| || !IsSpace(s[k])
  {
    if s != [] && IsSpace(s[0]) then 1 + LeadingSpaces(s[1..]) else 0
  }

  /** The number of space characters at the end of `s`. */
  function TrailingSpaces(s: string): (k: nat)
    ensures k <= |s|
    ensures forall i :: |s| - k <= i < |s| ==> IsSpace(s[i])
    ensures k == |s| || !IsSpace(s[|s| - 1 - k])
  {
    if s != [] && IsSpace(s[|s| - 1]) then 1 + TrailingSpaces(s[..|s| - 1]) else 0
  }

  /** `trim()`: drops leading and trailing spaces. */
  function Trim(s: string): (r: string)
    ensures Clean(r)
    ensures |r| <= |s|
  {
    var t := s[LeadingSpaces(s)..];
    t[..|t| - TrailingSpaces(t)]
  }

  /** Trimming a padded string gives back exactly what the padding surrounds. */
  lemma {:induction false} TrimPadded(pre: string, core: string, post: string)
    requires AllSpaces(pre) && AllSpaces(post) && Clean(core)
    ensures Trim(pre + core + post) == core
  {
    var s := pre + core + post;
    var k := LeadingSpaces(s);
    if core == [] {
      assert AllSpaces(s) by {
        forall i | 0 <= i < |s| ensures IsSpace(s[i]) {
          if i < |pre| { assert s[i] == pre[i]; } else { assert s[i] == post[i - |pre|]; }
        }
      }
      assert k == |s|;
    } else {
      assert s[|pre|] == core[0];
      assert k == |pre|;
      var t := s[k..];
      assert t == core + post;
      var m := TrailingSpaces(t);
      assert t[|core| - 1] == core[|core| - 1];
      assert m == |post|;
      assert t[..|t| - m] == core;
    }
  }

  /** A string that is already clean is left alone by `trim()`. */
  lemma TrimClean(s: string)
    requires Clean(s)
    ensures Trim(s) == s
  {
    TrimPadded([], s, []);
    assert [] + s + [] == s;
  }

  /** Trimming is idempotent. */
  lemma TrimIdempotent(s: string)
    ensures Trim(Trim(s)) == Trim(s)
  {
    TrimClean(Trim(s));
  }

  /** `toUpperCase()` on one character; only ASCII letters are mapped. */
  function UpperChar(c: char): (u: char)
    ensures !('a' <= u <= 'z')
    ensures 'a' <= c <= 'z' ==> u as int == c as int - 32
    ensures !('a' <= c <= 'z') ==> u == c
  {
    if 'a' <= c <= 'z' then (c as int - 32) as char else c
  }

  predicate NoLower(s: string) {
    forall i :: 0 <= i < |s| ==> !('a' <= s[i] <= 'z')
  }

  /** `toUpperCase()`: maps every character, keeping the length. */
  function ToUpper(s: string): (r: string)
    ensures |r| == |s|
    ensures forall i :: 0 <= i < |s| ==> r[i] == UpperChar(s[i])
    ensures NoLower(r)
  {
    if s == [] then [] else [UpperChar(s[0])] + ToUpper(s[1..])
  }

  /** Upper-casing an upper-case string changes nothing. */
  lemma ToUpperIdempotent(s: string)
    ensures ToUpper(ToUpper(s)) == ToUpper(s)
  {
  }

  /** `pat` occurs in `s` starting at position `i`. */
  predicate OccursAt(s: string, pat: string, i: int) {
    0 <= i && i + |pat| <= |s| && s[i..i + |pat|] == pat
  }

  /** Substring containment: the meaning of a regular-expression `match` on a literal
      pattern having at least one match. */
  function Contains(s: string, pat: string): (b: bool)
    ensures b <==> exists i :: 0 <= i <= |s| && OccursAt(s, pat, i)
    decreases |s|
  {
    if |pat| <= |s| && s[..|pat|] == pat then
      assert OccursAt(s, pat, 0);
      true
    else if s == [] then
      false
    else
      var rest := Contains(s[1..], pat);
      assert !OccursAt(s, pat, 0) by {
        if |pat| <= |s| { assert s[0..|pat|] == s[..|pat|]; }
      }
      OccursShift(s, pat);
      rest
  }

  /** An occurrence past the first position of `s` is an occurrence in `s[1..]`. */
  lemma OccursShift(s: string, pat: string)
    requires s != []
    ensures (exists i :: 1 <= i <= |s| && OccursAt(s, pat, i))
        <==> (exists j :: 0 <= j <= |s[1..]| && OccursAt(s[1..], pat, j))
  {
    forall i | 1 <= i <= |s| ensures OccursAt(s, pat, i) <==> OccursAt(s[1..], pat, i - 1) {
      if i + |pat| <= |s| {
        assert s[i..i + |pat|] == s[1..][i - 1..i - 1 + |pat|];
      }
    }
    if exists i :: 1 <= i <= |s| && OccursAt(s, pat, i) {
      var i :| 1 <= i <= |s| && OccursAt(s, pat, i);
      assert OccursAt(s[1..], pat, i - 1);
    }
    if exists j :: 0 <= j <= |s[1..]| && OccursAt(s[1..], pat, j) {
      var j :| 0 <= j <= |s[1..]| && OccursAt(s[1..], pat, j);
      assert OccursAt(s, pat, j + 1);
    }
  }

  /** `compareTo`: the sign of the lexicographic comparison of `a` and `b`. */
  function Compare(a: string, b: string): (r: int)
    ensures -1 <= r <= 1
    ensures r == 0 <==> a == b
    decreases |a|
  {
    if a == [] && b == [] then 0
    else if a == [] then -1
    else if b == [] then 1
    else if a[0] < b[0] then -1
    else if b[0] < a[0] then 1
    else
      var r := Compare(a[1..], b[1..]);
      assert a == [a[0]] + a[1..] && b == [b[0]] + b[1..];
      r
  }

  /** Comparison is antisymmetric: swapping the arguments flips the sign. */
  lemma {:induction false} CompareFlip(a: string, b: string)
    ensures Compare(b, a) == -Compare(a, b)
    decreases |a|
  {
    if a != [] && b != [] && a[0] == b[0] {
      CompareFlip(a[1..], b[1..]);
    }
  }

  /** Comparison is transitive, and strictly so when either step is strict. */
  lemma {:induction false} CompareTrans(a: string, b: string, c: string)
    requires Compare(a, b) <= 0 && Compare(b, c) <= 0
    ensures Compare(a, c) <= 0
    ensures Compare(a, b) < 0 || Compare(b, c) < 0 ==> Compare(a, c) < 0
    decreases |a|
  {
    if a != [] && b != [] && c != [] && a[0] == b[0] && b[0] == c[0] {
      CompareTrans(a[1..], b[1..], c[1..]);
    }
  }
}
