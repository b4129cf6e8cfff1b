/** Lists of short code strings as the rule engine handles them: filtered by
    membership in a list, sorted by string order and joined without separator. */
module CodeLists {
  import Text

  /** String order, as the server-side `sort()` compares strings. */
  predicate Le(a: string, b: string) {
    Text.Compare(a, b) <= 0
  }

  predicate Lt(a: string, b: string) {
    Text.Compare(a, b) < 0
  }

  predicate Sorted(xs: seq<string>) {
    forall i, j :: 0 <= i < j < |xs| ==> Le(xs[i], xs[j])
  }

  /** Strictly ascending: sorted, and therefore without repeated codes. */
  predicate Ascending(xs: seq<string>) {
    forall i, j :: 0 <= i < j < |xs| ==> Lt(xs[i], xs[j])
  }

  predicate Distinct(xs: seq<string>) {
    forall i, j :: 0 <= i < j < |xs| ==> xs[i] != xs[j]
  }

  /** Places `x` in front of the first element of `ys` it does not exceed. */
  function Insert(x: string, ys: seq<string>): seq<string> {
    if ys == [] then [x]
    else if Le(x, ys[0]) then [x] + ys
    else [ys[0]] + Insert(x, ys[1..])
  }

  /** Inserting adds `x` and keeps every element of `ys`. */
  lemma {:induction false} InsertMembers(x: string, ys: seq<string>)
    ensures multiset(Insert(x, ys)) == multiset(ys) + multiset{x}
    ensures forall z :: z in Insert(x, ys) <==> z == x || z in ys
  {
    if ys != [] && !Le(x, ys[0]) {
      InsertMembers(x, ys[1..]);
      assert ys == [ys[0]] + ys[1..];
    }
  }

  /** `sort()`: an insertion sort; for a strict total order any correct sort gives
      the same list (AscendingUnique). */
  function Sort(xs: seq<string>): seq<string> {
    if xs == [] then [] else Insert(xs[0], Sort(xs[1..]))
  }

  /** Sorting permutes its input. */
  lemma {:induction false} SortMembers(xs: seq<string>)
    ensures multiset(Sort(xs)) == multiset(xs)
    ensures forall z :: z in Sort(xs) <==> z in xs
  {
    if xs != [] {
      SortMembers(xs[1..]);
      InsertMembers(xs[0], Sort(xs[1..]));
      assert xs == [xs[0]] + xs[1..];
    }
  }

  /** Every member of the tail of `ys` is some `ys[k]` with `k > 0`. */
  lemma InTail(ys: seq<string>, z: string) returns (k: int)
    requires ys != [] && z in ys[1..]
    ensures 0 < k < |ys| && ys[k] == z
  {
    var m :| 0 <= m < |ys[1..]| && ys[1..][m] == z;
    k := m + 1;
  }

  lemma {:induction false} InsertSorted(x: string, ys: seq<string>)
    requires Sorted(ys)
    ensures Sorted(Insert(x, ys))
  {
    if ys != [] && Le(x, ys[0]) {
      var r := Insert(x, ys);
      assert r == [x] + ys;
      forall i, j | 0 <= i < j < |r| ensures Le(r[i], r[j]) {
        assert r[j] == ys[j - 1];
        if i == 0 {
          if j > 1 { Text.CompareTrans(x, ys[0], ys[j - 1]); }
        } else {
          assert r[i] == ys[i - 1];
        }
      }
    } else if ys != [] {
      assert Sorted(ys[1..]) by {
        forall i, j | 0 <= i < j < |ys[1..]| ensures Le(ys[1..][i], ys[1..][j]) {
          assert ys[1..][i] == ys[i + 1] && ys[1..][j] == ys[j + 1];
        }
      }
      InsertSorted(x, ys[1..]);
      InsertMembers(x, ys[1..]);
      InsertSortedBehind(x, ys);
    }
  }

  /** Inserting behind the head keeps the list sorted once the tail's insertion is. */
  lemma InsertSortedBehind(x: string, ys: seq<string>)
    requires Sorted(ys) && ys != [] && !Le(x, ys[0])
    requires Sorted(Insert(x, ys[1..]))
    requires forall z :: z in Insert(x, ys[1..]) <==> z == x || z in ys[1..]
    ensures Sorted(Insert(x, ys))
  {
    Text.CompareFlip(x, ys[0]);
    var r := Insert(x, ys);
    var t := Insert(x, ys[1..]);
    assert r == [ys[0]] + t;
    forall i, j | 0 <= i < j < |r| ensures Le(r[i], r[j]) {
      assert r[j] == t[j - 1];
      if i == 0 {
        assert t[j - 1] in t;
        if t[j - 1] != x {
          var k := InTail(ys, t[j - 1]);
        }
      } else {
        assert r[i] == t[i - 1];
      }
    }
  }

  lemma {:induction false} InsertAscending(x: string, ys: seq<string>)
    requires Ascending(ys) && x !in ys
    ensures Ascending(Insert(x, ys))
  {
    if ys != [] {
      Text.CompareFlip(x, ys[0]);
      if !Le(x, ys[0]) {
        AscendingTail(ys, x);
        InsertAscending(x, ys[1..]);
        InsertMembers(x, ys[1..]);
        InsertBehind(x, ys);
      } else {
        assert ys[0] in ys;
        ConsAscendingList(x, ys);
      }
    }
  }

  /** Inserting behind the head keeps the list ascending once the tail's insertion is. */
  lemma InsertBehind(x: string, ys: seq<string>)
    requires Ascending(ys) && ys != [] && !Le(x, ys[0])
    requires Ascending(Insert(x, ys[1..]))
    requires forall z :: z in Insert(x, ys[1..]) <==> z == x || z in ys[1..]
    ensures Ascending(Insert(x, ys))
  {
    Text.CompareFlip(x, ys[0]);
    var r := Insert(x, ys);
    var t := Insert(x, ys[1..]);
    assert r == [ys[0]] + t;
    forall i, j | 0 <= i < j < |r| ensures Lt(r[i], r[j]) {
      assert r[j] == t[j - 1];
      if i == 0 {
        assert t[j - 1] in t;
        if t[j - 1] != x {
          var k := InTail(ys, t[j - 1]);
        }
      } else {
        assert r[i] == t[i - 1];
      }
    }
  }

  /** A code below the head of an ascending list may be put in front of it. */
  lemma ConsAscendingList(x: string, ys: seq<string>)
    requires Ascending(ys) && ys != [] && Lt(x, ys[0])
    ensures Ascending([x] + ys)
  {
    var r := [x] + ys;
    forall i, j | 0 <= i < j < |r| ensures Lt(r[i], r[j]) {
      assert r[j] == ys[j - 1];
      if i == 0 {
        if j > 1 { Text.CompareTrans(x, ys[0], ys[j - 1]); }
      } else {
        assert r[i] == ys[i - 1];
      }
    }
  }

  /** The sorted list is sorted; without repeats it is strictly ascending. */
  lemma {:induction false} SortAscending(xs: seq<string>)
    ensures Sorted(Sort(xs))
    ensures Distinct(xs) ==> Ascending(Sort(xs))
  {
    if xs != [] {
      SortAscending(xs[1..]);
      SortMembers(xs[1..]);
      InsertSorted(xs[0], Sort(xs[1..]));
      if Distinct(xs) {
        assert Distinct(xs[1..]) by {
          forall i, j | 0 <= i < j < |xs[1..]| ensures xs[1..][i] != xs[1..][j] {
            assert xs[1..][i] == xs[i + 1] && xs[1..][j] == xs[j + 1];
          }
        }
        assert xs[0] !in multiset(xs[1..]);
        assert xs[0] !in Sort(xs[1..]) by {
          assert multiset(Sort(xs[1..])) == multiset(xs[1..]);
        }
        InsertAscending(xs[0], Sort(xs[1..]));
      }
    }
  }

  /** Two strictly ascending lists with the same members are the same list. */
  lemma {:induction false} AscendingUnique(xs: seq<string>, ys: seq<string>)
    requires Ascending(xs) && Ascending(ys)
    requires forall x :: x in xs <==> x in ys
    ensures xs == ys
  {
    SameMembersEmpty(xs, ys);
    if xs != [] {
      Text.CompareFlip(xs[0], ys[0]);
      assert xs[0] in xs && ys[0] in ys;
      AscendingHeadLeast(xs, ys[0]);
      AscendingHeadLeast(ys, xs[0]);
      forall x ensures x in xs[1..] <==> x in ys[1..] {
        AscendingTail(xs, x);
        AscendingTail(ys, x);
      }
      AscendingTail(xs, xs[0]);
      AscendingUnique(xs[1..], ys[1..]);
    }
  }

  lemma AscendingDistinct(xs: seq<string>)
    requires Ascending(xs)
    ensures Distinct(xs)
  {
  }

  /** The head of an ascending list is at most each of its members. */
  lemma AscendingHeadLeast(xs: seq<string>, x: string)
    requires Ascending(xs) && x in xs
    ensures Le(xs[0], x)
  {
    var k :| 0 <= k < |xs| && xs[k] == x;
    if k == 0 { assert Text.Compare(x, x) == 0; }
  }

  /** Lists with the same members are both empty or both non-empty. */
  lemma SameMembersEmpty(xs: seq<string>, ys: seq<string>)
    requires forall x :: x in xs <==> x in ys
    ensures xs == [] <==> ys == []
  {
    if xs != [] { assert xs[0] in ys; }
    if ys != [] { assert ys[0] in xs; }
  }

  /** The tail of an ascending list is ascending and holds every member but the head. */
  lemma AscendingTail(xs: seq<string>, x: string)
    requires Ascending(xs) && xs != []
    ensures Ascending(xs[1..])
    ensures x in xs[1..] <==> x in xs && x != xs[0]
  {
    assert forall i, j :: 0 <= i < j < |xs[1..]| ==> xs[1..][i] == xs[i + 1] && xs[1..][j] == xs[j + 1];
    if x in xs[1..] {
      var i :| 0 <= i < |xs[1..]| && xs[1..][i] == x;
      assert Lt(xs[0], xs[i + 1]);
    }
  }

  /** `filter(inList('item', allowed))`: keeps, in order, the members found in `allowed`. */
  function FilterIn(xs: seq<string>, allowed: seq<string>): seq<string> {
    if xs == [] then []
    else (if xs[0] in allowed then [xs[0]] else []) + FilterIn(xs[1..], allowed)
  }

  /** The filtered list holds exactly the members of `xs` found in `allowed`. */
  lemma {:induction false} FilterMembers(xs: seq<string>, allowed: seq<string>)
    ensures |FilterIn(xs, allowed)| <= |xs|
    ensures forall x :: x in FilterIn(xs, allowed) <==> x in xs && x in allowed
  {
    if xs != [] {
      FilterMembers(xs[1..], allowed);
      assert forall x :: x in xs <==> x == xs[0] || x in xs[1..];
    }
  }

  /** Filtering keeps a strictly ascending list strictly ascending. */
  lemma {:induction false} FilterAscending(xs: seq<string>, allowed: seq<string>)
    ensures Ascending(xs) ==> Ascending(FilterIn(xs, allowed))
  {
    if xs != [] && Ascending(xs) {
      AscendingTail(xs, xs[0]);
      FilterAscending(xs[1..], allowed);
      FilterMembers(xs[1..], allowed);
      var t := FilterIn(xs[1..], allowed);
      if xs[0] in allowed {
        var r := FilterIn(xs, allowed);
        assert r == [xs[0]] + t;
        forall j | 1 <= j < |r| ensures Lt(xs[0], r[j]) {
          assert r[j] == t[j - 1];
          assert t[j - 1] in xs[1..];
        }
      }
    }
  }

  /** `join('')`: concatenation without separator. */
  function Join(cs: seq<string>): (s: string)
  {
    if cs == [] then "" else cs[0] + Join(cs[1..])
  }

  /** Joining a concatenation joins the two parts. */
  lemma {:induction false} JoinAppend(a: seq<string>, b: seq<string>)
    ensures Join(a + b) == Join(a) + Join(b)
  {
    if a != [] {
      assert (a + b)[1..] == a[1..] + b;
      JoinAppend(a[1..], b);
    } else {
      assert a + b == b;
    }
  }

  /** Cuts a string into consecutive two-character codes. */
  function SplitPairs(s: string): (cs: seq<string>)
    ensures forall c :: c in cs ==> |c| == 2
    decreases |s|
  {
    if |s| < 2 then [] else [s[..2]] + SplitPairs(s[2..])
  }

  /** Joining two-character codes loses nothing: splitting the result recovers them. */
  lemma {:induction false} SplitJoin(cs: seq<string>)
    requires forall c :: c in cs ==> |c| == 2
    ensures |Join(cs)| == 2 * |cs|
    ensures SplitPairs(Join(cs)) == cs
  {
    if cs != [] {
      assert cs[0] in cs;
      assert forall c :: c in cs[1..] ==> c in cs;
      SplitJoin(cs[1..]);
      var s := Join(cs);
      assert s == cs[0] + Join(cs[1..]);
      assert s[..2] == cs[0];
      assert s[2..] == Join(cs[1..]);
    }
  }
}
