/** String helpers with the meaning the toolkit's Python code gives them:
  * substring tests (`x in s`), `str.split` / `str.join` on one separator
  * character, `str.replace` of one character, ASCII lower-casing,
  * clamped slicing, and decimal numbers (`int(s)`, `str(n)`, `{:02d}`). */
module Strings {
  import opened Errors

  predicate StartsWith(s: string, prefix: string)
  {
    |prefix| <= |s| && s[..|prefix|] == prefix
  }

  predicate EndsWith(s: string, suffix: string)
  {
    |suffix| <= |s| && s[|s| - |suffix|..] == suffix
  }

  /** The part of `s` between a prefix and a suffix, when `s` carries both
    * without overlap. */
  function Between(s: string, prefix: string, suffix: string): (r: Option<string>)
    ensures r.Some? <==> |prefix| + |suffix| <= |s| && StartsWith(s, prefix) && EndsWith(s, suffix)
    ensures r.Some? ==> s == prefix + r.value + suffix
  {
    if |prefix| + |suffix| <= |s| && StartsWith(s, prefix) && EndsWith(s, suffix) then
      var v := s[|prefix|..|s| - |suffix|];
      assert s == s[..|prefix|] + v + s[|s| - |suffix|..];
      Some(v)
    else None
  }

  /** The text wrapped in a prefix and a suffix is recovered exactly. */
  lemma BetweenOf(prefix: string, x: string, suffix: string)
    ensures Between(prefix + x + suffix, prefix, suffix) == Some(x)
  {
    var s := prefix + x + suffix;
    assert s[..|prefix|] == prefix && s[|s| - |suffix|..] == suffix;
    assert s[|prefix|..|s| - |suffix|] == x;
  }

  /** `needle` occurs in `hay` at position `i`. */
  predicate OccursAt(hay: string, needle: string, i: int)
  {
    0 <= i && i + |needle| <= |hay| && hay[i..i + |needle|] == needle
  }

  /** Python's `needle in hay`, computed by scanning from the left. */
  function Contains(hay: string, needle: string): (b: bool)
    ensures b <==> exists i :: OccursAt(hay, needle, i)
    decreases |hay|
  {
    if |needle| > |hay| then
      assert forall i :: !OccursAt(hay, needle, i);
      false
    else if hay[..|needle|] == needle then
      assert OccursAt(hay, needle, 0);
      true
    else
      var rest := Contains(hay[1..], needle);
      assert forall i :: OccursAt(hay[1..], needle, i) ==> OccursAt(hay, needle, i + 1) by {
        forall i | OccursAt(hay[1..], needle, i)
          ensures OccursAt(hay, needle, i + 1)
        {
          assert hay[1..][i..i + |needle|] == hay[i + 1..i + 1 + |needle|];
        }
      }
      assert forall i :: OccursAt(hay, needle, i) ==> i == 0 || OccursAt(hay[1..], needle, i - 1) by {
        forall i | OccursAt(hay, needle, i) && i != 0
          ensures OccursAt(hay[1..], needle, i - 1)
        {
          assert hay[1..][i - 1..i - 1 + |needle|] == hay[i..i + |needle|];
        }
      }
      rest
  }

  /** A prefix of a prefix is a prefix. */
  lemma StartsWithPrefix(s: string, a: string, b: string)
    requires StartsWith(s, a + b)
    ensures StartsWith(s, a)
  {
    assert s[..|a|] == s[..|a + b|][..|a|] == (a + b)[..|a|] == a;
  }

  /** A substring of a prefix is a substring of the whole string. */
  lemma ContainsPrefix(s: string, prefix: string, needle: string)
    requires StartsWith(s, prefix) && Contains(prefix, needle)
    ensures Contains(s, needle)
  {
    var i :| OccursAt(prefix, needle, i);
    assert s[i..i + |needle|] == prefix[i..i + |needle|];
    assert OccursAt(s, needle, i);
  }

  /** Concatenation is associative (stated once, so that proofs can
    * regroup a path without unfolding it). */
  lemma ConcatAssoc<T>(a: seq<T>, b: seq<T>, c: seq<T>)
    ensures (a + b) + c == a + (b + c)
  {
  }

  /** `s.replace(a, b)` for single characters. */
  function ReplaceChar(s: string, a: char, b: char): (r: string)
    ensures |r| == |s|
    ensures forall i :: 0 <= i < |s| ==> r[i] == (if s[i] == a then b else s[i])
    ensures a != b ==> a !in r
  {
    if |s| == 0 then [] else [if s[0] == a then b else s[0]] + ReplaceChar(s[1..], a, b)
  }

  /** `s.replace(c, '')`: every occurrence of `c` removed, every other
    * character kept in order. */
  function RemoveChar(s: string, c: char): (r: string)
    ensures c !in r
    ensures |r| <= |s|
    ensures forall x :: x != c ==> multiset(r)[x] == multiset(s)[x]
    ensures c !in s ==> r == s
  {
    if |s| == 0 then []
    else
      assert s == [s[0]] + s[1..];
      (if s[0] == c then [] else [s[0]]) + RemoveChar(s[1..], c)
  }

  function LowerChar(ch: char): char
  {
    if 'A' <= ch <= 'Z' then (ch as int + 32) as char else ch
  }

  /** `s.lower()` on ASCII letters. */
  function Lower(s: string): (r: string)
    ensures |r| == |s|
    ensures forall i :: 0 <= i < |s| ==> r[i] == LowerChar(s[i])
  {
    if |s| == 0 then [] else [LowerChar(s[0])] + Lower(s[1..])
  }

  /** Python slice `s[i:j]` for non-negative bounds: out-of-range bounds are
    * clamped, never an error. */
  function Slice(s: string, i: nat, j: nat): (r: string)
    ensures |r| <= |s|
    ensures i <= j <= |s| ==> r == s[i..j]
  {
    var lo := if i < |s| then i else |s|;
    var hi := if j < |s| then j else |s|;
    if lo <= hi then s[lo..hi] else []
  }

  /** Python slice `s[i:]`. */
  function From(s: string, i: nat): string
  {
    if i < |s| then s[i..] else []
  }

  /** Python `s[:-n]` for `n > 0`: all but the last `n` characters. */
  function DropLast(s: string, n: nat): (r: string)
    requires n > 0
    ensures |s| >= n ==> r == s[..|s| - n]
    ensures |s| < n ==> r == []
  {
    if |s| >= n then s[..|s| - n] else []
  }

  /** `s.replace(pat, '')`: every occurrence of `pat` found by a left-to-right
    * scan is removed, the other characters kept in order. */
  function RemoveAll(s: string, pat: string): (r: string)
    requires |pat| > 0
    ensures |r| <= |s|
    ensures pat == s ==> r == []
    decreases |s|
  {
    if |s| < |pat| then s
    else if s[..|pat|] == pat then RemoveAll(s[|pat|..], pat)
    else [s[0]] + RemoveAll(s[1..], pat)
  }

  /** No occurrence of `pat` straddles a boundary followed by a character
    * that does not occur in `pat`, so the two sides are cleaned apart. */
  lemma {:induction false} RemoveAllSplit(a: string, u: string, pat: string)
    requires |pat| > 0 && |u| > 0 && u[0] !in pat
    ensures RemoveAll(a + u, pat) == RemoveAll(a, pat) + RemoveAll(u, pat)
    decreases |a|
  {
    var s := a + u;
    if |a| == 0 {
      assert s == u;
    } else if |a| >= |pat| && a[..|pat|] == pat {
      assert s[..|pat|] == pat;
      assert s[|pat|..] == a[|pat|..] + u;
      RemoveAllSplit(a[|pat|..], u, pat);
    } else if |a| >= |pat| {
      assert s[..|pat|] == a[..|pat|];
      assert s[1..] == a[1..] + u;
      RemoveAllSplit(a[1..], u, pat);
    } else if |s| < |pat| {
      assert RemoveAll(u, pat) == u;
    } else {
      Straddle(a, u, pat);
      assert s[1..] == a[1..] + u;
      RemoveAllSplit(a[1..], u, pat);
      assert RemoveAll(a[1..], pat) == a[1..];
      assert a == [a[0]] + a[1..];
    }
  }

  /** A text shorter than `pat`, followed by a character `pat` lacks, does
    * not start an occurrence of `pat`. */
  lemma Straddle(a: string, u: string, pat: string)
    requires |a| < |pat| <= |a| + |u| && |u| > 0 && u[0] !in pat
    ensures (a + u)[..|pat|] != pat
  {
    var s := a + u;
    assert s[|a|] == u[0];
    assert pat[|a|] in pat;
  }

  /** Python `s[i]`: a one-character string, or IndexError. */
  function At(s: string, i: nat): (r: Result<string>)
    ensures r.Success? <==> i < |s|
    ensures r.Success? ==> r.value == [s[i]]
  {
    if i < |s| then Success([s[i]]) else Failure(IndexError)
  }

  // ---------------------------------------------------------------- split / join

  /** The position of the first `c` in `s`, or `|s|` when there is none. */
  function Find(s: string, c: char): (i: nat)
    ensures i <= |s| && (i < |s| ==> s[i] == c)
    ensures forall j :: 0 <= j < i ==> s[j] != c
  {
    if |s| == 0 || s[0] == c then 0 else 1 + Find(s[1..], c)
  }

  /** `c` does not occur in `s`. */
  predicate Free(s: string, c: char)
  {
    forall j :: 0 <= j < |s| ==> s[j] != c
  }

  /** A string is free of `c` exactly when `c in s` is false. */
  lemma FreeNotIn(s: string, c: char)
    ensures Free(s, c) <==> c !in s
  {
    if c in s {
      var j :| 0 <= j < |s| && s[j] == c;
    }
  }

  /** The first separator after a separator-free prefix is the one that ends it. */
  lemma {:induction false} FindAfter(a: string, c: char, b: string)
    requires Free(a, c)
    ensures Find(a + [c] + b, c) == |a|
    decreases |a|
  {
    var s := a + [c] + b;
    if |a| > 0 {
      assert s[0] == a[0];
      assert s[1..] == a[1..] + [c] + b;
      FindAfter(a[1..], c, b);
    } else {
      assert s[0] == c;
    }
  }

  /** `s.split(c)`: the fields between occurrences of `c`; never empty. */
  function Split(s: string, c: char): (parts: seq<string>)
    ensures |parts| >= 1
    decreases |s|
  {
    var i := Find(s, c);
    if i == |s| then [s] else [s[..i]] + Split(s[i + 1..], c)
  }

  /** A string without the separator is its own single field. */
  lemma SplitNone(s: string, c: char)
    requires c !in s
    ensures Split(s, c) == [s]
  {
    FreeNotIn(s, c);
    assert Find(s, c) == |s|;
  }

  /** No field of a split holds the separator. */
  lemma {:induction false} SplitFields(s: string, c: char)
    ensures forall k :: 0 <= k < |Split(s, c)| ==> Free(Split(s, c)[k], c)
    decreases |s|
  {
    var i := Find(s, c);
    if i < |s| {
      var rest := Split(s[i + 1..], c);
      SplitFields(s[i + 1..], c);
      assert Split(s, c) == [s[..i]] + rest;
    }
  }

  /** `c.join(parts)`. */
  function Join(parts: seq<string>, c: char): string
  {
    if |parts| == 0 then []
    else if |parts| == 1 then parts[0]
    else parts[0] + [c] + Join(parts[1..], c)
  }

  /** Joining a first field to at least one more puts a separator between. */
  lemma JoinCons(head: string, rest: seq<string>, c: char)
    requires |rest| >= 1
    ensures Join([head] + rest, c) == head + [c] + Join(rest, c)
  {
    assert ([head] + rest)[1..] == rest;
  }

  /** Extending the last field extends the joined string. */
  lemma {:induction false} JoinExtendLast(parts: seq<string>, c: char, ext: string)
    requires |parts| >= 1
    ensures Join(parts[..|parts| - 1] + [parts[|parts| - 1] + ext], c) == Join(parts, c) + ext
    decreases |parts|
  {
    var q := parts[..|parts| - 1] + [parts[|parts| - 1] + ext];
    if |parts| > 1 {
      JoinExtendLast(parts[1..], c, ext);
      assert q[1..] == parts[1..][..|parts| - 2] + [parts[1..][|parts| - 2] + ext];
      JoinCons(parts[0], parts[1..], c);
      JoinCons(q[0], q[1..], c);
      assert [q[0]] + q[1..] == q && [parts[0]] + parts[1..] == parts;
    }
  }

  /** Joining the fields of a split gives the string back. */
  lemma {:induction false} JoinSplit(s: string, c: char)
    ensures Join(Split(s, c), c) == s
    decreases |s|
  {
    var i := Find(s, c);
    if i < |s| {
      var head, tail := s[..i], s[i + 1..];
      JoinSplit(tail, c);
      SplitAt(s, c);
      JoinCons(head, Split(tail, c), c);
    }
  }

  /** A string holding the separator is its first field, the separator and
    * the rest, and splits accordingly. */
  lemma SplitAt(s: string, c: char)
    requires Find(s, c) < |s|
    ensures var i := Find(s, c);
      s == s[..i] + [c] + s[i + 1..] && Split(s, c) == [s[..i]] + Split(s[i + 1..], c)
  {
  }

  /** Splitting a join of separator-free fields gives the fields back. */
  lemma {:induction false} SplitJoin(parts: seq<string>, c: char)
    requires |parts| >= 1
    requires forall k :: 0 <= k < |parts| ==> Free(parts[k], c)
    ensures Split(Join(parts, c), c) == parts
    decreases |parts|
  {
    if |parts| == 1 {
      var s := parts[0];
      assert Find(s, c) == |s|;
    } else {
      var head, rest := parts[0], parts[1..];
      assert forall k :: 0 <= k < |rest| ==> Free(rest[k], c) by {
        forall k | 0 <= k < |rest| ensures Free(rest[k], c) {
          assert rest[k] == parts[k + 1];
        }
      }
      var tail := Join(rest, c);
      SplitJoin(rest, c);
      SplitAfter(head, c, tail);
      assert Join(parts, c) == head + [c] + tail;
      assert parts == [head] + rest;
    }
  }

  /** Splitting at the separator that ends a separator-free first field. */
  lemma SplitAfter(a: string, c: char, b: string)
    requires Free(a, c)
    ensures Split(a + [c] + b, c) == [a] + Split(b, c)
  {
    var s := a + [c] + b;
    FindAfter(a, c, b);
    assert s[..|a|] == a;
    assert s[|a| + 1..] == b;
  }

  /** Splitting two strings joined by a separator gives the fields of the
    * first followed by those of the second. */
  lemma {:induction false} SplitConcat(a: string, c: char, b: string)
    ensures Split(a + [c] + b, c) == Split(a, c) + Split(b, c)
    decreases |a|
  {
    var i := Find(a, c);
    if i == |a| {
      SplitAfter(a, c, b);
    } else {
      var head, tail := a[..i], a[i + 1..];
      assert a == head + [c] + tail;
      SplitConcat(tail, c, b);
      SplitConcatStep(a, c, b, head, tail);
    }
  }

  /** The inductive step of `SplitConcat`: a first field `head` comes off
    * both sides alike. */
  lemma SplitConcatStep(a: string, c: char, b: string, head: string, tail: string)
    requires a == head + [c] + tail && Free(head, c)
    requires Split(tail + [c] + b, c) == Split(tail, c) + Split(b, c)
    ensures Split(a + [c] + b, c) == Split(a, c) + Split(b, c)
  {
    SplitHeadAfter(a, c, b, head, tail);
    SplitHead(a, c, head, tail);
    ConcatAssoc([head], Split(tail, c), Split(b, c));
  }

  /** A separator-free first field comes off a split. */
  lemma SplitHead(a: string, c: char, head: string, tail: string)
    requires a == head + [c] + tail && Free(head, c)
    ensures Split(a, c) == [head] + Split(tail, c)
  {
    var k := |head|;
    assert a[k] == c;
    assert forall j :: 0 <= j < k ==> a[j] == head[j];
    SplitFirst(a, c, k);
    assert a[..k] == head;
    assert a[k + 1..] == tail;
  }

  /** The same, with more text after the tail. */
  lemma SplitHeadAfter(a: string, c: char, b: string, head: string, tail: string)
    requires a == head + [c] + tail && Free(head, c)
    ensures Split(a + [c] + b, c) == [head] + Split(tail + [c] + b, c)
  {
    var x := a + [c] + b;
    var k := |head|;
    assert x[k] == c;
    assert forall j :: 0 <= j < k ==> x[j] == head[j];
    SplitFirst(x, c, k);
    assert x[..k] == head;
    assert x[k + 1..] == tail + [c] + b;
  }

  /** A string whose first separator is at `k` splits there. */
  lemma SplitFirst(s: string, c: char, k: nat)
    requires k < |s| && s[k] == c
    requires forall j :: 0 <= j < k ==> s[j] != c
    ensures Split(s, c) == [s[..k]] + Split(s[k + 1..], c)
  {
    assert Find(s, c) == k;
  }

  /** A string holding the separator splits into at least two fields. */
  lemma SplitTwo(s: string, c: char, i: nat)
    requires i < |s| && s[i] == c
    ensures |Split(s, c)| >= 2
  {
    assert s == s[..i] + [c] + s[i + 1..];
    SplitConcat(s[..i], c, s[i + 1..]);
  }

  /** A string holding the separator at two places splits into at least
    * three fields. */
  lemma SplitThree(s: string, c: char, i: nat, j: nat)
    requires i < j < |s| && s[i] == c && s[j] == c
    ensures |Split(s, c)| >= 3
  {
    var f := Find(s, c);
    SplitAt(s, c);
    var tail := s[f + 1..];
    assert tail[j - f - 1] == c;
    SplitTwo(tail, c, j - f - 1);
  }

  /** A string of two fields or more starts with its first field and the
    * separator. */
  lemma FirstFieldPrefix(s: string, c: char)
    requires |Split(s, c)| >= 2
    ensures StartsWith(s, Split(s, c)[0] + [c])
  {
    var i := Find(s, c);
    assert i < |s|;
    SplitAt(s, c);
    assert s[..i + 1] == s[..i] + [c];
  }

  /** The last field of `s.split(c)`, i.e. `s.split(c)[-1]`. */
  function LastField(s: string, c: char): (r: string)
    ensures c !in r
  {
    var parts := Split(s, c);
    SplitFields(s, c);
    FreeNotIn(parts[|parts| - 1], c);
    parts[|parts| - 1]
  }

  /** Python `parts[k]`: the k-th field or IndexError. */
  function Field(s: string, c: char, k: nat): (r: Result<string>)
    ensures r.Success? <==> k < |Split(s, c)|
    ensures r.Success? ==> c !in r.value
  {
    var parts := Split(s, c);
    SplitFields(s, c);
    if k < |parts| then FreeNotIn(parts[k], c); Success(parts[k]) else Failure(IndexError)
  }

  // ---------------------------------------------------------------- numbers

  predicate IsDigit(ch: char)
  {
    '0' <= ch <= '9'
  }

  predicate AllDigits(s: string)
  {
    forall i :: 0 <= i < |s| ==> IsDigit(s[i])
  }

  function DigitChar(d: nat): char
    requires d < 10
  {
    ('0' as int + d) as char
  }

  function DigitValue(ch: char): nat
    requires IsDigit(ch)
  {
    ch as int - '0' as int
  }

  /** The value of a digit string, most significant digit first. */
  function DigitsValue(s: string): nat
    requires AllDigits(s)
  {
    if |s| == 0 then 0 else 10 * DigitsValue(s[..|s| - 1]) + DigitValue(s[|s| - 1])
  }

  /** `str(n)` for a natural number. */
  function NatToString(n: nat): (r: string)
    ensures |r| >= 1 && AllDigits(r)
    ensures DigitsValue(r) == n
    ensures n < 10 <==> |r| == 1
  {
    if n < 10 then [DigitChar(n)]
    else
      var r := NatToString(n / 10) + [DigitChar(n % 10)];
      assert r[..|r| - 1] == NatToString(n / 10);
      r
  }

  /** `str(n)` for any integer. */
  function IntToString(n: int): (r: string)
    ensures n >= 0 ==> r == NatToString(n)
    ensures n < 0 ==> r == "-" + NatToString(-n)
  {
    if n >= 0 then NatToString(n) else "-" + NatToString(-n)
  }

  /** Python's `str(b).lower()` of a boolean. */
  function BoolToLower(b: bool): string
  {
    if b then "true" else "false"
  }

  /** `int(s)` on a string of ASCII digits; anything else is a ValueError. */
  function ParseNat(s: string): (r: Result<nat>)
    ensures r.Success? <==> |s| >= 1 && AllDigits(s)
  {
    if |s| >= 1 && AllDigits(s) then Success(DigitsValue(s)) else Failure(ValueError)
  }

  /** `str(n)` reads back as `n`. */
  lemma ParseNatToString(n: nat)
    ensures ParseNat(NatToString(n)) == Success(n)
  {
  }

  /** Leading zeros do not change the value of a digit string. */
  lemma {:induction false} LeadingZero(s: string)
    requires AllDigits(s)
    ensures AllDigits("0" + s) && DigitsValue("0" + s) == DigitsValue(s)
    decreases |s|
  {
    var t := "0" + s;
    assert AllDigits(t);
    if |s| > 0 {
      LeadingZero(s[..|s| - 1]);
      assert t[..|t| - 1] == "0" + s[..|s| - 1];
    }
  }

  /** `'{:02d}'.format(n)`: at least two digits, zero-padded. */
  function Pad2(n: nat): (r: string)
    ensures |r| >= 2 && AllDigits(r)
    ensures ParseNat(r) == Success(n)
    ensures n < 100 ==> |r| == 2
  {
    if n < 10 then
      LeadingZero(NatToString(n));
      "0" + NatToString(n)
    else
      NatToString(n)
  }

  /** `'{:02d}'` prints different numbers differently. */
  lemma Pad2Injective(a: nat, b: nat)
    requires Pad2(a) == Pad2(b)
    ensures a == b
  {
    assert ParseNat(Pad2(a)) == Success(a);
  }
}
