/** Python's ordering of strings (code point by code point, a proper prefix
  * first) and `sorted` on lists of strings. */
module TextOrder {

  /** `a <= b` on strings. */
  predicate LessEq(a: string, b: string)
    decreases |a|
  {
    |a| == 0 || (|b| > 0 && (a[0] < b[0] || (a[0] == b[0] && LessEq(a[1..], b[1..]))))
  }

  lemma {:induction false} LessEqTotal(a: string, b: string)
    ensures LessEq(a, b) || LessEq(b, a)
    decreases |a|
  {
    if |a| > 0 && |b| > 0 && a[0] == b[0] {
      LessEqTotal(a[1..], b[1..]);
    }
  }

  lemma {:induction false} LessEqTrans(a: string, b: string, c: string)
    requires LessEq(a, b) && LessEq(b, c)
    ensures LessEq(a, c)
    decreases |a|
  {
    if |a| > 0 && a[0] == b[0] && b[0] == c[0] {
      LessEqTrans(a[1..], b[1..], c[1..]);
    }
  }

  lemma {:induction false} LessEqAntisym(a: string, b: string)
    requires LessEq(a, b) && LessEq(b, a)
    ensures a == b
    decreases |a|
  {
    if |a| > 0 {
      LessEqAntisym(a[1..], b[1..]);
      assert a == [a[0]] + a[1..] && b == [b[0]] + b[1..];
    }
  }

  predicate Sorted(s: seq<string>)
  {
    forall i, j :: 0 <= i < j < |s| ==> LessEq(s[i], s[j])
  }

  /** `x` placed before the first element greater than it. */
  function Insert(x: string, s: seq<string>): (r: seq<string>)
    requires Sorted(s)
    ensures Sorted(r)
    ensures multiset(r) == multiset(s) + multiset{x}
  {
    if |s| == 0 then [x]
    else if LessEq(x, s[0]) then
      assert forall j :: 0 < j < |s| ==> LessEq(x, s[j]) by {
        forall j | 0 < j < |s| ensures LessEq(x, s[j]) {
          LessEqTrans(x, s[0], s[j]);
        }
      }
      [x] + s
    else
      var rest := Insert(x, s[1..]);
      LessEqTotal(x, s[0]);
      assert s == [s[0]] + s[1..];
      assert forall k :: 0 <= k < |rest| ==> LessEq(s[0], rest[k]) by {
        forall k | 0 <= k < |rest| ensures LessEq(s[0], rest[k]) {
          assert rest[k] in multiset(rest);
          if rest[k] != x {
            assert rest[k] in multiset(s[1..]);
            var j :| 0 <= j < |s[1..]| && s[1..][j] == rest[k];
            assert s[j + 1] == rest[k];
          }
        }
      }
      [s[0]] + rest
  }

  /** `sorted(s)`. */
  function Sort(s: seq<string>): (r: seq<string>)
    ensures Sorted(r)
    ensures multiset(r) == multiset(s)
    ensures |r| == |s|
  {
    if |s| == 0 then []
    else
      assert s == [s[0]] + s[1..];
      var r := Insert(s[0], Sort(s[1..]));
      assert |r| == |multiset(r)| == |multiset(s)| == |s|;
      r
  }

  /** The first element of a sorted list is its least, the last its
    * greatest. */
  lemma SortedEnds(s: seq<string>, x: string)
    requires Sorted(s) && x in s
    ensures LessEq(s[0], x) && LessEq(x, s[|s| - 1])
  {
    var i :| 0 <= i < |s| && s[i] == x;
    LessEqTotal(x, x);
    if i > 0 {
      assert LessEq(s[0], s[i]);
    }
    if i < |s| - 1 {
      assert LessEq(s[i], s[|s| - 1]);
    }
  }

  /** Two sorted lists with the same elements are equal: `sorted` does not
    * depend on the order of its input. */
  lemma {:induction false} SortedUnique(a: seq<string>, b: seq<string>)
    requires Sorted(a) && Sorted(b) && multiset(a) == multiset(b)
    ensures a == b
    decreases |a|
  {
    assert |a| == |multiset(a)| == |multiset(b)| == |b|;
    if |a| > 0 {
      assert a[0] in multiset(b) && b[0] in multiset(a);
      SortedEnds(b, a[0]);
      SortedEnds(a, b[0]);
      LessEqAntisym(a[0], b[0]);
      DropFirst(a);
      DropFirst(b);
      SortedUnique(a[1..], b[1..]);
    }
  }

  /** Dropping the first element removes one occurrence of it. */
  lemma DropFirst(a: seq<string>)
    requires |a| > 0
    ensures multiset(a[1..]) == multiset(a) - multiset{a[0]}
    ensures Sorted(a) ==> Sorted(a[1..])
  {
    assert a == [a[0]] + a[1..];
  }

  /** `x` is the smallest element of `s`. */
  predicate IsLeast(x: string, s: set<string>)
  {
    x in s && forall y :: y in s ==> LessEq(x, y)
  }

  lemma {:induction false} LeastExists(s: set<string>)
    requires s != {}
    ensures exists x :: IsLeast(x, s)
    decreases |s|
  {
    var y :| y in s;
    LessEqTotal(y, y);
    var rest := s - {y};
    if rest == {} {
      assert s == {y};
      assert IsLeast(y, s);
    } else {
      LeastExists(rest);
      var x :| IsLeast(x, rest);
      LessEqTotal(x, y);
      if LessEq(y, x) {
        forall z | z in s ensures LessEq(y, z) {
          if z != y { LessEqTrans(y, x, z); }
        }
        assert IsLeast(y, s);
      } else {
        assert IsLeast(x, s);
      }
    }
  }

  lemma LeastUnique(s: set<string>)
    ensures forall x, y :: IsLeast(x, s) && IsLeast(y, s) ==> x == y
  {
    forall x, y | IsLeast(x, s) && IsLeast(y, s) ensures x == y {
      LessEqAntisym(x, y);
    }
  }

  /** `sorted(names)` for the names a directory listing returns (a set, so
    * without duplicates): the names in ascending order. */
  function SortSet(s: set<string>): (r: seq<string>)
    ensures Sorted(r) && |r| == |s|
    ensures forall x :: x in r <==> x in s
    decreases |s|
  {
    if s == {} then []
    else
      LeastExists(s);
      LeastUnique(s);
      var x :| IsLeast(x, s);
      var rest := SortSet(s - {x});
      LeastFirst(x, s, rest);
      [x] + rest
  }

  /** `sorted` of a set lists each element exactly once. */
  lemma {:induction false} SortSetMultiset(s: set<string>)
    ensures multiset(SortSet(s)) == multiset(s)
    decreases |s|
  {
    if s != {} {
      LeastExists(s);
      LeastUnique(s);
      var x :| IsLeast(x, s);
      SortSetMultiset(s - {x});
      assert SortSet(s) == [x] + SortSet(s - {x});
      assert s == {x} + (s - {x});
    }
  }

  lemma LeastFirst(x: string, s: set<string>, rest: seq<string>)
    requires IsLeast(x, s) && Sorted(rest)
    requires forall y :: y in rest ==> y in s
    ensures Sorted([x] + rest)
  {
    var r := [x] + rest;
    forall i, j | 0 <= i < j < |r| ensures LessEq(r[i], r[j]) {
      if i > 0 {
        assert r[i] == rest[i - 1] && r[j] == rest[j - 1];
      } else {
        assert r[j] == rest[j - 1] && r[j] in s;
      }
    }
  }

  /** The first and last elements of a sorted list are those of the sorted
    * list of its distinct elements: `sorted(l)[0]` and `sorted(l)[-1]` are
    * the smallest and the greatest element, whatever the order of `l`. */
  lemma SortedBounds(a: seq<string>, s: set<string>)
    requires Sorted(a) && |a| > 0
    requires forall x :: x in a <==> x in s
    ensures |SortSet(s)| > 0
    ensures a[0] == SortSet(s)[0] && a[|a| - 1] == SortSet(s)[|SortSet(s)| - 1]
  {
    var b := SortSet(s);
    assert a[0] in s && a[|a| - 1] in s;
    SortedEnds(a, b[0]);
    SortedEnds(b, a[0]);
    LessEqAntisym(a[0], b[0]);
    SortedEnds(a, b[|b| - 1]);
    SortedEnds(b, a[|a| - 1]);
    LessEqAntisym(a[|a| - 1], b[|b| - 1]);
  }
}
