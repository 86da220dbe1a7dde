/** Calendar dates as the toolkit handles them with Python's `datetime`:
  * `strptime` with the directives `%Y %m %d %b` (a regular-expression match
  * whose alternatives are tried in order, then a calendar check), `strftime`
  * with `%Y %y %m %d %b` in the C locale, and the chronological order used to
  * sort acquisition dates. */
module Dates {
  import opened Errors
  import opened Strings

  datatype Date = Date(year: int, month: int, day: int)

  predicate IsLeap(y: int)
  {
    y % 4 == 0 && (y % 100 != 0 || y % 400 == 0)
  }

  function DaysIn(year: int, month: int): int
  {
    if month == 2 then (if IsLeap(year) then 29 else 28)
    else if month == 4 || month == 6 || month == 9 || month == 11 then 30
    else 31
  }

  /** A date `datetime` accepts: years 1 to 9999 and a day that exists. */
  predicate Valid(d: Date)
  {
    1 <= d.year <= 9999 && 1 <= d.month <= 12 && 1 <= d.day <= DaysIn(d.year, d.month)
  }

  /** Chronological order (datetime comparison). */
  predicate NotAfter(a: Date, b: Date)
  {
    a.year < b.year
    || (a.year == b.year && (a.month < b.month || (a.month == b.month && a.day <= b.day)))
  }

  // ---------------------------------------------------------------- formats

  /** The strptime/strftime directives the toolkit uses. */
  datatype Directive = FullYear | ShortYear | Month | Day | MonthAbbr | Lit(ch: char)

  const DMY: seq<Directive> := [Day, MonthAbbr, FullYear]                 // %d%b%Y
  const YMD: seq<Directive> := [FullYear, Month, Day]                     // %Y%m%d
  const ISO: seq<Directive> := [FullYear, Lit('-'), Month, Lit('-'), Day] // %Y-%m-%d
  const SHORT: seq<Directive> := [ShortYear, Month, Day]                  // %y%m%d

  const ABBR: seq<string> :=
    ["Jan", "Feb", "Mar", "Apr", "May", "Jun", "Jul", "Aug", "Sep", "Oct", "Nov", "Dec"]

  /** The abbreviations as strptime keeps them for matching: lower-cased. */
  const LOWER_ABBR: seq<string> :=
    ["jan", "feb", "mar", "apr", "may", "jun", "jul", "aug", "sep", "oct", "nov", "dec"]

  /** One way a directive can match the start of the text: the value it
    * reads and how many characters it consumes. */
  datatype Token = Token(value: int, len: nat)

  function DigitOf(ch: char): int
  {
    if IsDigit(ch) then DigitValue(ch) else 0
  }

  /** The prefixes of `s` a directive matches, in the order in which the
    * alternatives of its regular expression are tried:
    * `%Y` four digits; `%m` `1[0-2]|0[1-9]|[1-9]`;
    * `%d` `3[01]|[12]\d|0[1-9]|[1-9]| [1-9]`; `%b` a month abbreviation,
    * ignoring case. */
  function Candidates(d: Directive, s: string): (ts: seq<Token>)
    ensures forall k :: 0 <= k < |ts| ==> 1 <= ts[k].len <= |s|
  {
    match d
    case FullYear => YearCands(s)
    case ShortYear => []   // only ever formatted, never parsed, by the toolkit
    case Month => MonthCands(s)
    case Day => DayCands(s)
    case MonthAbbr => if |s| >= 3 then AbbrFrom(Lower(s[..3]), 0) else []
    case Lit(c) => if |s| >= 1 && s[0] == c then [Token(0, 1)] else []
  }

  function YearCands(s: string): (ts: seq<Token>)
    ensures forall k :: 0 <= k < |ts| ==> 1 <= ts[k].len <= |s|
  {
    if |s| >= 4 && AllDigits(s[..4]) then [Token(DigitsValue(s[..4]), 4)] else []
  }

  function MonthCands(s: string): (ts: seq<Token>)
    ensures forall k :: 0 <= k < |ts| ==> 1 <= ts[k].len <= |s|
  {
    (if |s| >= 2 && s[0] == '1' && '0' <= s[1] <= '2' then [Token(10 + DigitOf(s[1]), 2)] else [])
    + (if |s| >= 2 && s[0] == '0' && '1' <= s[1] <= '9' then [Token(DigitOf(s[1]), 2)] else [])
    + (if |s| >= 1 && '1' <= s[0] <= '9' then [Token(DigitOf(s[0]), 1)] else [])
  }

  function DayCands(s: string): (ts: seq<Token>)
    ensures forall k :: 0 <= k < |ts| ==> 1 <= ts[k].len <= |s|
  {
    (if |s| >= 2 && s[0] == '3' && '0' <= s[1] <= '1' then [Token(30 + DigitOf(s[1]), 2)] else [])
    + (if |s| >= 2 && '1' <= s[0] <= '2' && IsDigit(s[1]) then [Token(10 * DigitOf(s[0]) + DigitOf(s[1]), 2)] else [])
    + (if |s| >= 2 && s[0] == '0' && '1' <= s[1] <= '9' then [Token(DigitOf(s[1]), 2)] else [])
    + (if |s| >= 1 && '1' <= s[0] <= '9' then [Token(DigitOf(s[0]), 1)] else [])
    + (if |s| >= 2 && s[0] == ' ' && '1' <= s[1] <= '9' then [Token(DigitOf(s[1]), 2)] else [])
  }

  /** The month abbreviation (from the `i`-th on) equal to `w`, ignoring case. */
  function AbbrFrom(w: string, i: nat): (ts: seq<Token>)
    requires |w| == 3
    ensures |ts| <= 1
    ensures forall k :: 0 <= k < |ts| ==> ts[k].len == 3 && 1 <= ts[k].value <= 12
    decreases 12 - i
  {
    if i >= 12 then []
    else if LOWER_ABBR[i] == w then [Token(i + 1, 3)]
    else AbbrFrom(w, i + 1)
  }

  /** The outcome of matching a format: no match, or the values read (one
    * per directive) and the number of characters consumed. */
  datatype Match = NoMatch | Matched(values: seq<int>, len: nat)

  /** `re.match` of the format's expression: the first way, in the order the
    * alternatives are tried, to match every directive in turn from the start
    * of `s` (the text after the match may remain). */
  function MatchSeq(ds: seq<Directive>, s: string): (r: Match)
    ensures r.Matched? ==> |r.values| == |ds| && r.len <= |s|
    decreases |ds|, 1, 0
  {
    if |ds| == 0 then Matched([], 0) else TryAlts(ds, s, Candidates(ds[0], s))
  }

  function TryAlts(ds: seq<Directive>, s: string, cands: seq<Token>): (r: Match)
    requires |ds| >= 1
    requires forall k :: 0 <= k < |cands| ==> cands[k].len <= |s|
    ensures r.Matched? ==> |r.values| == |ds| && r.len <= |s|
    decreases |ds|, 0, |cands|
  {
    if |cands| == 0 then NoMatch
    else
      var t := cands[0];
      var rest := MatchSeq(ds[1..], s[t.len..]);
      if rest.Matched? then Matched([t.value] + rest.values, t.len + rest.len)
      else TryAlts(ds, s, cands[1..])
  }

  /** The date a matched format denotes; fields it does not mention take
    * strptime's defaults (1900, January, the first). */
  function Assemble(ds: seq<Directive>, vs: seq<int>, acc: Date): Date
    requires |vs| == |ds|
  {
    if |ds| == 0 then acc
    else
      var acc' := match ds[0]
        case FullYear => acc.(year := vs[0])
        case Month => acc.(month := vs[0])
        case MonthAbbr => acc.(month := vs[0])
        case Day => acc.(day := vs[0])
        case _ => acc;
      Assemble(ds[1..], vs[1..], acc')
  }

  /** `datetime.strptime(s, fmt)`: ValueError when the expression does not
    * match, when text is left over, or when the date does not exist. */
  function Strptime(s: string, fmt: seq<Directive>): (r: Result<Date>)
    ensures r.Success? ==> Valid(r.value)
  {
    match MatchSeq(fmt, s)
    case NoMatch => Failure(ValueError)
    case Matched(vs, n) =>
      if n != |s| then Failure(ValueError)
      else
        var d := Assemble(fmt, vs, Date(1900, 1, 1));
        if Valid(d) then Success(d) else Failure(ValueError)
  }

  /** `strftime` in the C locale. `%Y` prints the year unpadded, as the C
    * library on Linux does. */
  function FormatOne(d: Date, x: Directive): string
    requires Valid(d)
  {
    match x
    case FullYear => NatToString(d.year)
    case ShortYear => Pad2(d.year % 100)
    case Month => Pad2(d.month)
    case Day => Pad2(d.day)
    case MonthAbbr => ABBR[d.month - 1]
    case Lit(c) => [c]
  }

  function Strftime(d: Date, fmt: seq<Directive>): string
    requires Valid(d)
  {
    if |fmt| == 0 then [] else FormatOne(d, fmt[0]) + Strftime(d, fmt[1..])
  }

  // ---------------------------------------------------------------- round trips

  /** The values a format's directives print for a date. */
  function Values(d: Date, ds: seq<Directive>): (vs: seq<int>)
    ensures |vs| == |ds|
    ensures forall k :: 0 <= k < |ds| ==> vs[k] == ValueOf(d, ds[k])
  {
    seq(|ds|, k requires 0 <= k < |ds| => ValueOf(d, ds[k]))
  }

  /** Matching a format against its own output (followed by anything) reads
    * back every printed value and consumes exactly the printed text. */
  lemma {:induction false} MatchFormatted(d: Date, ds: seq<Directive>, rest: string)
    requires Valid(d) && 1000 <= d.year
    requires ShortYear !in ds
    ensures MatchSeq(ds, Strftime(d, ds) + rest) == Matched(Values(d, ds), |Strftime(d, ds)|)
    decreases |ds|
  {
    if |ds| > 0 {
      assert ShortYear !in ds[1..] by {
        forall k | 0 <= k < |ds[1..]| ensures ds[1..][k] != ShortYear {
          assert ds[1..][k] == ds[k + 1];
        }
      }
      MatchFormatted(d, ds[1..], rest);
      MatchFormattedStep(d, ds, rest);
    }
  }

  /** The step of `MatchFormatted`: the first directive reads its own
    * printed value back, and the rest of the format matches the rest of the
    * text. */
  lemma MatchFormattedStep(d: Date, ds: seq<Directive>, rest: string)
    requires Valid(d) && 1000 <= d.year
    requires |ds| > 0 && ds[0] != ShortYear
    requires MatchSeq(ds[1..], Strftime(d, ds[1..]) + rest)
      == Matched(Values(d, ds[1..]), |Strftime(d, ds[1..])|)
    ensures MatchSeq(ds, Strftime(d, ds) + rest) == Matched(Values(d, ds), |Strftime(d, ds)|)
  {
    var f, tail := FormatOne(d, ds[0]), Strftime(d, ds[1..]);
    StrftimeCons(d, ds, rest);
    ValuesCons(d, ds);
    FirstCandidate(d, ds[0], tail + rest);
    MatchCons(ds, f, tail, rest, ValueOf(d, ds[0]), Values(d, ds[1..]));
  }

  lemma StrftimeCons(d: Date, ds: seq<Directive>, rest: string)
    requires Valid(d) && |ds| > 0
    ensures Strftime(d, ds) + rest == FormatOne(d, ds[0]) + (Strftime(d, ds[1..]) + rest)
    ensures |Strftime(d, ds)| == |FormatOne(d, ds[0])| + |Strftime(d, ds[1..])|
  {
    var f, tail := FormatOne(d, ds[0]), Strftime(d, ds[1..]);
    assert Strftime(d, ds) == f + tail;
    ConcatAssoc(f, tail, rest);
  }

  lemma ValuesCons(d: Date, ds: seq<Directive>)
    requires |ds| > 0
    ensures Values(d, ds) == [ValueOf(d, ds[0])] + Values(d, ds[1..])
  {
    assert Values(d, ds)[1..] == Values(d, ds[1..]);
  }

  /** Parsing what `strftime` printed gives the date back, for the three
    * formats the toolkit reads (`%d%b%Y`, `%Y%m%d`, `%Y-%m-%d`) and every
    * four-digit year. */
  lemma StrptimeStrftime(d: Date, fmt: seq<Directive>)
    requires Valid(d) && 1000 <= d.year
    requires fmt == DMY || fmt == YMD || fmt == ISO
    ensures Strptime(Strftime(d, fmt), fmt) == Success(d)
  {
    var s := Strftime(d, fmt);
    MatchFormatted(d, fmt, []);
    assert s + [] == s;
    AssembleValues(d, fmt);
    StrptimeOfMatch(s, fmt, Values(d, fmt), d);
  }

  lemma StrptimeOfMatch(s: string, fmt: seq<Directive>, vs: seq<int>, d: Date)
    requires |vs| == |fmt|
    requires MatchSeq(fmt, s) == Matched(vs, |s|)
    requires Assemble(fmt, vs, Date(1900, 1, 1)) == d && Valid(d)
    ensures Strptime(s, fmt) == Success(d)
  {
  }

  lemma AssembleValues(d: Date, fmt: seq<Directive>)
    requires Valid(d)
    requires fmt == DMY || fmt == YMD || fmt == ISO
    ensures Assemble(fmt, Values(d, fmt), Date(1900, 1, 1)) == d
  {
    var vs := Values(d, fmt);
    if fmt == DMY {
      assert vs == [d.day, d.month, d.year];
      assert Assemble(fmt[2..], vs[2..], Date(1900, d.month, d.day)) == d;
      assert Assemble(fmt[1..], vs[1..], Date(1900, 1, d.day)) == d;
    } else if fmt == YMD {
      assert vs == [d.year, d.month, d.day];
      assert Assemble(fmt[2..], vs[2..], Date(d.year, d.month, 1)) == d;
      assert Assemble(fmt[1..], vs[1..], Date(d.year, 1, 1)) == d;
    } else {
      assert vs == [d.year, 0, d.month, 0, d.day];
      assert Assemble(fmt[4..], vs[4..], Date(d.year, d.month, 1)) == d;
      assert Assemble(fmt[3..], vs[3..], Date(d.year, d.month, 1)) == d;
      assert Assemble(fmt[2..], vs[2..], Date(d.year, 1, 1)) == d;
      assert Assemble(fmt[1..], vs[1..], Date(d.year, 1, 1)) == d;
    }
  }

  /** A match whose first directive takes its first candidate, which
    * consumes the text `f` and reads `v`, and whose other directives
    * consume `tail`. */
  lemma MatchCons(ds: seq<Directive>, f: string, tail: string, rest: string, v: int, vs: seq<int>)
    requires |ds| >= 1
    requires |Candidates(ds[0], f + (tail + rest))| >= 1
    requires Candidates(ds[0], f + (tail + rest))[0] == Token(v, |f|)
    requires MatchSeq(ds[1..], tail + rest) == Matched(vs, |tail|)
    ensures MatchSeq(ds, f + (tail + rest)) == Matched([v] + vs, |f| + |tail|)
  {
    var s := f + (tail + rest);
    assert s[|f|..] == tail + rest;
    assert MatchSeq(ds, s) == TryAlts(ds, s, Candidates(ds[0], s));
  }

  /** The first candidate of a directive on its own formatted value (and any
    * following text that does not start with a digit) reads that value back
    * and consumes exactly the formatted text. */
  lemma FirstCandidate(d: Date, x: Directive, rest: string)
    requires Valid(d) && 1000 <= d.year
    requires x != ShortYear
    ensures FirstReadsBack(d, x, rest)
  {
    match x
    case FullYear => YearCandidate(d, rest);
    case Month => MonthCandidate(d, rest);
    case Day => DayCandidate(d, rest);
    case MonthAbbr => AbbrCandidate(d, rest);
    case Lit(c) =>
  }

  /** The first alternative a directive tries on its own printed value
    * (followed by `rest`) reads that value back and consumes exactly the
    * printed text. */
  predicate FirstReadsBack(d: Date, x: Directive, rest: string)
    requires Valid(d)
  {
    var s := FormatOne(d, x) + rest;
    |Candidates(x, s)| >= 1 && Candidates(x, s)[0] == Token(ValueOf(d, x), |FormatOne(d, x)|)
  }

  lemma YearCandidate(d: Date, rest: string)
    requires Valid(d) && 1000 <= d.year
    ensures FirstReadsBack(d, FullYear, rest)
  {
    var f := NatToString(d.year);
    var s := f + rest;
    assert |f| == 4 by { YearDigits(d.year); }
    assert s[..4] == f;
  }

  /** `%m` reads back the two digits it printed through its first
    * alternative that applies. */
  lemma MonthCandidate(d: Date, rest: string)
    requires Valid(d)
    ensures FirstReadsBack(d, Month, rest)
  {
    var f := Pad2(d.month);
    var s := f + rest;
    assert FormatOne(d, Month) == f;
    assert s[..2] == f;
    assert |f| == 2 && ParseNat(f) == Success(d.month);
    DigitsValueTwo(f);
  }

  /** `%d` reads back the two digits it printed through its first
    * alternative that applies. */
  lemma DayCandidate(d: Date, rest: string)
    requires Valid(d)
    ensures FirstReadsBack(d, Day, rest)
  {
    var f := Pad2(d.day);
    var s := f + rest;
    assert FormatOne(d, Day) == f;
    assert s[..2] == f;
    assert |f| == 2 && ParseNat(f) == Success(d.day);
    DigitsValueTwo(f);
  }

  lemma AbbrCandidate(d: Date, rest: string)
    requires Valid(d)
    ensures FirstReadsBack(d, MonthAbbr, rest)
  {
    var f := ABBR[d.month - 1];
    var s := f + rest;
    assert |f| == 3;
    assert s[..3] == f;
    AbbrFound(d.month - 1);
  }

  function ValueOf(d: Date, x: Directive): int
  {
    match x
    case FullYear => d.year
    case Month => d.month
    case MonthAbbr => d.month
    case Day => d.day
    case _ => 0
  }

  lemma DigitsValueTwo(f: string)
    requires |f| == 2 && AllDigits(f)
    ensures DigitsValue(f) == 10 * DigitValue(f[0]) + DigitValue(f[1])
  {
    assert f[..|f| - 1] == f[..1];
    assert f[..1][..0] == [];
    assert DigitsValue(f[..1]) == DigitValue(f[0]);
  }

  lemma YearDigits(y: int)
    requires 1000 <= y <= 9999
    ensures |NatToString(y)| == 4
  {
    assert |NatToString(y / 10)| == 3 by {
      assert |NatToString(y / 100)| == 2 by {
        assert |NatToString(y / 1000)| == 1;
      }
    }
  }

  lemma AbbrFound(i: nat)
    requires i < 12
    ensures AbbrFrom(Lower(ABBR[i]), 0) == [Token(i + 1, 3)]
  {
    LowerAbbr(i);
    AbbrFoundFrom(i, 0);
  }

  /** Scanning the table from `j` up to `i` finds the `i`-th entry. */
  lemma {:induction false} AbbrFoundFrom(i: nat, j: nat)
    requires j <= i < 12
    ensures AbbrFrom(LOWER_ABBR[i], j) == [Token(i + 1, 3)]
    decreases i - j
  {
    if j < i {
      DistinctAbbr(i, j);
      AbbrFoundFrom(i, j + 1);
    }
  }

  /** Lower-casing an abbreviation gives the form strptime matches. */
  lemma LowerAbbr(i: nat)
    requires i < 12
    ensures Lower(ABBR[i]) == LOWER_ABBR[i]
  {
    var a := ABBR[i];
    assert |a| == 3;
    assert Lower(a) == [LowerChar(a[0]), LowerChar(a[1]), LowerChar(a[2])];
  }

  lemma DistinctAbbr(i: nat, j: nat)
    requires i < 12 && j < 12 && i != j
    ensures LOWER_ABBR[i] != LOWER_ABBR[j]
  {
  }
}

module DateOrder {
  import opened Dates

  predicate Sorted(ds: seq<Date>)
  {
    forall i, j :: 0 <= i < j < |ds| ==> NotAfter(ds[i], ds[j])
  }

  lemma NotAfterTotal(a: Date, b: Date)
    ensures NotAfter(a, b) || NotAfter(b, a)
  {
  }

  /** `x` placed before the first element later than it. */
  function Insert(x: Date, ds: seq<Date>): (r: seq<Date>)
    requires Sorted(ds)
    ensures Sorted(r)
    ensures multiset(r) == multiset(ds) + multiset{x}
  {
    if |ds| == 0 then [x]
    else if NotAfter(x, ds[0]) then
      assert forall j :: 0 < j < |ds| ==> NotAfter(ds[0], ds[j]);
      [x] + ds
    else
      var rest := Insert(x, ds[1..]);
      assert ds == [ds[0]] + ds[1..];
      assert forall k :: 0 <= k < |rest| ==> NotAfter(ds[0], rest[k]) by {
        forall k | 0 <= k < |rest| ensures NotAfter(ds[0], rest[k]) {
          assert rest[k] in multiset(rest);
          assert rest[k] == x || rest[k] in multiset(ds[1..]);
          if rest[k] != x {
            var j :| 0 <= j < |ds[1..]| && ds[1..][j] == rest[k];
            assert ds[j + 1] == rest[k];
          }
        }
      }
      [ds[0]] + rest
  }

  /** `sorted(dates)`: the same dates in chronological order. */
  function Sort(ds: seq<Date>): (r: seq<Date>)
    ensures Sorted(r)
    ensures multiset(r) == multiset(ds)
  {
    if |ds| == 0 then []
    else
      assert ds == [ds[0]] + ds[1..];
      Insert(ds[0], Sort(ds[1..]))
  }
}
