/** Finding all matches of a pattern in a text, and what that means for number literals. */
module Scanning {
  import opened Positions
  import opened Text
  import opened Numbers

  /** How many leading characters of a text a pattern takes; 0 when it does not match there. */
  type Pattern = string -> nat

  /** The matches in `s`, left to right, as start and end offsets counted from `off`. */
  function Spans(pattern: Pattern, s: string, off: nat): seq<(nat, nat)>
    decreases |s|
  {
    if s == "" then []
    else
      var n := pattern(s);
      if n == 0 || n > |s| then Spans(pattern, s[1..], off + 1) else [(off, off + n)] + Spans(pattern, s[n..], off + n)
  }

  /** The texts of the matches, as `findall` returns them. */
  function FindAll(pattern: Pattern, s: string): seq<string>
    decreases |s|
  {
    if s == "" then []
    else
      var n := pattern(s);
      if n == 0 || n > |s| then FindAll(pattern, s[1..]) else [s[..n]] + FindAll(pattern, s[n..])
  }

  /** `spans` is a scan of `s` from offset `from` for number literals: ordered, non-overlapping,
      every span the longest literal at its start, and no literal starting anywhere else. */
  ghost predicate IsScan(s: string, from: nat, spans: seq<(nat, nat)>)
    requires from <= |s|
    decreases |spans|
  {
    if spans == [] then forall i :: from <= i < |s| ==> LongestLiteral(s[i..], 0)
    else
      var (a, b) := spans[0];
      && from <= a < b <= |s|
      && (forall i :: from <= i < a ==> LongestLiteral(s[i..], 0))
      && LongestLiteral(s[a..], b - a)
      && IsScan(s, b, spans[1..])
  }

  /** The pattern takes the longest literal at every offset of the text. */
  ghost predicate TakesLongest(pattern: Pattern, s: string) {
    forall i :: 0 <= i <= |s| ==> LongestLiteral(s[i..], pattern(s[i..]))
  }

  lemma SkipOne(s: string, from: nat, spans: seq<(nat, nat)>)
    requires from < |s| && LongestLiteral(s[from..], 0) && IsScan(s, from + 1, spans)
    ensures IsScan(s, from, spans)
  {
  }

  lemma MatchFirst(s: string, from: nat, b: nat, rest: seq<(nat, nat)>)
    requires from < b <= |s| && LongestLiteral(s[from..], b - from) && IsScan(s, b, rest)
    ensures IsScan(s, from, [(from, b)] + rest)
  {
    var spans := [(from, b)] + rest;
    assert spans[0] == (from, b) && spans[1..] == rest;
  }

  lemma SpansSkip(pattern: Pattern, s: string, from: nat)
    requires from < |s| && pattern(s[from..]) == 0
    ensures Spans(pattern, s[from..], from) == Spans(pattern, s[from + 1..], from + 1)
  {
    assert s[from..][1..] == s[from + 1..];
  }

  lemma SpansMatch(pattern: Pattern, s: string, from: nat, n: nat)
    requires from < |s| && 0 < n == pattern(s[from..]) && from + n <= |s|
    ensures Spans(pattern, s[from..], from) == [(from, from + n)] + Spans(pattern, s[from + n..], from + n)
  {
    assert s[from..][n..] == s[from + n..];
  }

  lemma ScanAfterSkip(pattern: Pattern, s: string, from: nat)
    requires from < |s| && pattern(s[from..]) == 0 && LongestLiteral(s[from..], 0)
    requires IsScan(s, from + 1, Spans(pattern, s[from + 1..], from + 1))
    ensures IsScan(s, from, Spans(pattern, s[from..], from))
  {
    SpansSkip(pattern, s, from);
    SkipOne(s, from, Spans(pattern, s[from + 1..], from + 1));
  }

  lemma ScanAfterMatch(pattern: Pattern, s: string, from: nat, n: nat)
    requires from < |s| && 0 < n == pattern(s[from..]) && from + n <= |s| && LongestLiteral(s[from..], n)
    requires IsScan(s, from + n, Spans(pattern, s[from + n..], from + n))
    ensures IsScan(s, from, Spans(pattern, s[from..], from))
  {
    SpansMatch(pattern, s, from, n);
    MatchFirst(s, from, from + n, Spans(pattern, s[from + n..], from + n));
  }

  lemma ScanAtEnd(pattern: Pattern, s: string)
    ensures IsScan(s, |s|, Spans(pattern, s[|s|..], |s|))
  {
    assert s[|s|..] == "";
  }

  lemma TakesLongestAt(pattern: Pattern, s: string, from: nat)
    requires from <= |s| && TakesLongest(pattern, s)
    ensures LongestLiteral(s[from..], pattern(s[from..])) && pattern(s[from..]) <= |s| - from
  {
  }

  lemma {:induction false} SpansAreScan(pattern: Pattern, s: string, from: nat)
    requires from <= |s| && TakesLongest(pattern, s)
    ensures IsScan(s, from, Spans(pattern, s[from..], from))
    decreases |s| - from
  {
    if from == |s| {
      ScanAtEnd(pattern, s);
    } else {
      var n := pattern(s[from..]);
      TakesLongestAt(pattern, s, from);
      if n == 0 {
        SpansAreScan(pattern, s, from + 1);
        ScanAfterSkip(pattern, s, from);
      } else {
        SpansAreScan(pattern, s, from + n);
        ScanAfterMatch(pattern, s, from, n);
      }
    }
  }

  lemma SameHead(s: string, from: nat, x: seq<(nat, nat)>, y: seq<(nat, nat)>)
    requires from <= |s| && IsScan(s, from, x) && IsScan(s, from, y)
    ensures x == [] <==> y == []
    ensures x != [] ==> x[0] == y[0]
  {
  }

  /** There is only one scan, so the description above determines the result. */
  lemma {:induction false} ScanIsUnique(s: string, from: nat, x: seq<(nat, nat)>, y: seq<(nat, nat)>)
    requires from <= |s| && IsScan(s, from, x) && IsScan(s, from, y)
    ensures x == y
    decreases |x|
  {
    SameHead(s, from, x, y);
    if x != [] {
      ScanIsUnique(s, x[0].1, x[1..], y[1..]);
      assert x == [x[0]] + x[1..] && y == [y[0]] + y[1..];
    }
  }

  lemma NotHere(pattern: Pattern, s: string, off: nat)
    requires s != "" && (pattern(s) == 0 || pattern(s) > |s|)
    ensures FindAll(pattern, s) == FindAll(pattern, s[1..]) && Spans(pattern, s, off) == Spans(pattern, s[1..], off + 1)
  {
  }

  lemma FoundHere(pattern: Pattern, s: string, off: nat, n: nat)
    requires s != "" && 0 < n == pattern(s) <= |s|
    ensures FindAll(pattern, s) == [s[..n]] + FindAll(pattern, s[n..])
    ensures Spans(pattern, s, off) == [(off, off + n)] + Spans(pattern, s[n..], off + n)
  {
  }

  lemma {:induction false} SameCount(pattern: Pattern, s: string, off: nat)
    ensures |FindAll(pattern, s)| == |Spans(pattern, s, off)|
    decreases |s|
  {
    if s != "" {
      var n := pattern(s);
      if n == 0 || n > |s| {
        NotHere(pattern, s, off);
        SameCount(pattern, s[1..], off + 1);
      } else {
        FoundHere(pattern, s, off, n);
        SameCount(pattern, s[n..], off + n);
      }
    }
  }

  /** The `k`-th text found is that of the `k`-th span. */
  ghost predicate FoundAt(pattern: Pattern, s: string, off: nat, k: nat) {
    && k < |FindAll(pattern, s)| && k < |Spans(pattern, s, off)|
    && var (a, b) := Spans(pattern, s, off)[k];
       off <= a <= b <= off + |s| && FindAll(pattern, s)[k] == s[a - off..b - off]
  }

  lemma SliceOfSlice(s: string, n: nat, a: nat, b: nat)
    requires n <= |s| && a <= b <= |s| - n
    ensures s[n..][a..b] == s[n + a..n + b]
  {
  }

  lemma FoundAfterSkip(pattern: Pattern, s: string, off: nat, k: nat)
    requires s != "" && (pattern(s) == 0 || pattern(s) > |s|) && FoundAt(pattern, s[1..], off + 1, k)
    ensures FoundAt(pattern, s, off, k)
  {
    var (a, b) := Spans(pattern, s[1..], off + 1)[k];
    SliceOfSlice(s, 1, a - off - 1, b - off - 1);
  }

  lemma FoundFirst(pattern: Pattern, s: string, off: nat)
    requires s != "" && 0 < pattern(s) <= |s|
    ensures FoundAt(pattern, s, off, 0)
  {
  }

  lemma FoundAfterMatch(pattern: Pattern, s: string, off: nat, n: nat, k: nat)
    requires s != "" && 0 < n == pattern(s) <= |s| && FoundAt(pattern, s[n..], off + n, k)
    ensures FoundAt(pattern, s, off, k + 1)
  {
    var (a, b) := Spans(pattern, s[n..], off + n)[k];
    SliceOfSlice(s, n, a - off - n, b - off - n);
  }

  lemma {:induction false} FindAllAreSpans(pattern: Pattern, s: string, off: nat, k: nat)
    requires k < |FindAll(pattern, s)|
    ensures FoundAt(pattern, s, off, k)
    decreases |s|
  {
    var n := pattern(s);
    if n == 0 || n > |s| {
      FindAllAreSpans(pattern, s[1..], off + 1, k);
      FoundAfterSkip(pattern, s, off, k);
    } else if k == 0 {
      FoundFirst(pattern, s, off);
    } else {
      FindAllAreSpans(pattern, s[n..], off + n, k - 1);
      FoundAfterMatch(pattern, s, off, n, k - 1);
    }
  }

  /** Every text found is what the pattern takes somewhere. */
  lemma {:induction false} FoundIsTaken(pattern: Pattern, s: string, k: nat) returns (rest: string)
    requires k < |FindAll(pattern, s)|
    ensures 0 < pattern(rest) <= |rest| && FindAll(pattern, s)[k] == rest[..pattern(rest)]
    decreases |s|
  {
    var n := pattern(s);
    if n == 0 || n > |s| {
      rest := FoundIsTaken(pattern, s[1..], k);
    } else if k == 0 {
      rest := s;
    } else {
      rest := FoundIsTaken(pattern, s[n..], k - 1);
    }
  }

  lemma OneDigitIsLiteral(s: string)
    requires s != "" && IsDigit(s[0])
    ensures !LongestLiteral(s, 0)
  {
    var l := Literal("", s[..1], None);
    assert Proper(l) && Write(l) == s[..1];
    assert IsLiteral(s[..1]);
  }

  /** Every digit lies in one of the spans of a scan. */
  lemma {:induction false} EveryDigitCovered(s: string, from: nat, spans: seq<(nat, nat)>, i: nat)
    requires from <= i < |s| && IsScan(s, from, spans) && IsDigit(s[i])
    ensures exists k :: 0 <= k < |spans| && spans[k].0 <= i < spans[k].1
    decreases |spans|
  {
    OneDigitIsLiteral(s[i..]);
    assert spans != [] && spans[0].0 <= i;
    if i >= spans[0].1 {
      EveryDigitCovered(s, spans[0].1, spans[1..], i);
      var k :| 0 <= k < |spans[1..]| && spans[1..][k].0 <= i < spans[1..][k].1;
      assert spans[k + 1] == spans[1..][k];
    }
  }

  /** The coordinate pattern finds all number literals of a text: `findall` returns the texts of the
      one and only scan of it. */
  lemma ScanIsComplete(s: string)
    ensures IsScan(s, 0, Spans(MatchLength, s, 0)) && forall x :: IsScan(s, 0, x) ==> x == Spans(MatchLength, s, 0)
    ensures |FindAll(MatchLength, s)| == |Spans(MatchLength, s, 0)|
    ensures forall k :: 0 <= k < |FindAll(MatchLength, s)| ==> FoundAt(MatchLength, s, 0, k)
  {
    forall i | 0 <= i <= |s| ensures LongestLiteral(s[i..], MatchLength(s[i..])) {
      MatchIsLongest(s[i..]);
    }
    assert s[0..] == s;
    SpansAreScan(MatchLength, s, 0);
    forall x | IsScan(s, 0, x) ensures x == Spans(MatchLength, s, 0) {
      ScanIsUnique(s, 0, x, Spans(MatchLength, s, 0));
    }
    SameCount(MatchLength, s, 0);
    forall k | 0 <= k < |FindAll(MatchLength, s)| ensures FoundAt(MatchLength, s, 0, k) {
      FindAllAreSpans(MatchLength, s, 0, k);
    }
  }

  /** No digit of a text escapes the coordinate pattern. */
  lemma NoDigitEscapes(s: string, i: nat)
    requires i < |s| && IsDigit(s[i])
    ensures exists k :: 0 <= k < |Spans(MatchLength, s, 0)| && Spans(MatchLength, s, 0)[k].0 <= i < Spans(MatchLength, s, 0)[k].1
  {
    ScanIsComplete(s);
    EveryDigitCovered(s, 0, Spans(MatchLength, s, 0), i);
  }

  // Literals separated by other text.

  /** Text in which no literal can begin, continue or end. */
  predicate Plain(s: string) {
    forall i :: 0 <= i < |s| ==> !IsDigit(s[i]) && !IsSign(s[i]) && s[i] != '.'
  }

  /** Text that cannot continue a literal before it; beyond its first character anything goes. */
  predicate EndsNumber(s: string) {
    s == "" || Plain(s[..1])
  }

  lemma {:induction false} PlainIsSkipped(plain: string, rest: string)
    requires Plain(plain)
    ensures FindAll(MatchLength, plain + rest) == FindAll(MatchLength, rest)
  {
    if plain == "" {
      assert plain + rest == rest;
    } else {
      var s := plain + rest;
      assert s[0] == plain[0] && s[0..] == s;
      assert MatchLength(s) == 0;
      assert s[1..] == plain[1..] + rest;
      PlainIsSkipped(plain[1..], rest);
    }
  }

  /** A literal followed by other text, or by nothing, is found whole. */
  lemma LiteralIsFound(l: Literal, rest: string)
    requires Proper(l) && EndsNumber(rest)
    ensures FindAll(MatchLength, Write(l) + rest) == [Write(l)] + FindAll(MatchLength, rest)
  {
    var s := Write(l) + rest;
    var n := |Write(l)|;
    assert s[..n] == Write(l) && s[n..] == rest;
    WriteShape(l);
    MatchStopsAtPlain(l, rest);
  }

  lemma MatchStopsAtPlain(l: Literal, rest: string)
    requires Proper(l) && EndsNumber(rest)
    ensures MatchLength(Write(l) + rest) == |Write(l)|
  {
    var after := Tail(l.frac) + rest;
    assert rest != "" ==> rest[..1][0] == rest[0];
    assert Write(l) + rest == l.sign + l.whole + after;
    if l.frac.Some? {
      assert after[0] == '.' && after[1..] == l.frac.value + rest;
      DigitRunOf(l.frac.value, rest);
    } else {
      assert after == rest;
    }
    MatchOfParts(l.sign, l.whole, after);
  }

  lemma LiteralThenPlain(l: Literal, plain: string, rest: string)
    requires Proper(l) && Plain(plain) && plain != ""
    ensures FindAll(MatchLength, Write(l) + (plain + rest)) == [Write(l)] + FindAll(MatchLength, rest)
  {
    assert (plain + rest)[..1] == plain[..1];
    LiteralIsFound(l, plain + rest);
    PlainIsSkipped(plain, rest);
  }

  /** Three literals with other text before, between and after them. */
  function Packed(before: string, l0: Literal, s0: string, l1: Literal, s1: string, l2: Literal, after: string): string {
    before + (Write(l0) + (s0 + (Write(l1) + (s1 + (Write(l2) + after)))))
  }

  /** They are recovered exactly, followed by whatever the text after them holds. */
  lemma ThreeLiterals(before: string, l0: Literal, s0: string, l1: Literal, s1: string, l2: Literal, after: string)
    requires Proper(l0) && Proper(l1) && Proper(l2)
    requires Plain(before) && Plain(s0) && Plain(s1) && EndsNumber(after) && s0 != "" && s1 != ""
    ensures FindAll(MatchLength, Packed(before, l0, s0, l1, s1, l2, after))
            == [Write(l0), Write(l1), Write(l2)] + FindAll(MatchLength, after)
    ensures Plain(after) ==> FindAll(MatchLength, after) == []
  {
    var r2 := Write(l2) + after;
    var r1 := Write(l1) + (s1 + r2);
    var rest := FindAll(MatchLength, after);
    calc {
      FindAll(MatchLength, Packed(before, l0, s0, l1, s1, l2, after));
      { PlainIsSkipped(before, Write(l0) + (s0 + r1)); }
      FindAll(MatchLength, Write(l0) + (s0 + r1));
      { LiteralThenPlain(l0, s0, r1); }
      [Write(l0)] + FindAll(MatchLength, r1);
      { LiteralThenPlain(l1, s1, r2); }
      [Write(l0)] + ([Write(l1)] + FindAll(MatchLength, r2));
      { LiteralIsFound(l2, after); }
      [Write(l0)] + ([Write(l1)] + ([Write(l2)] + rest));
      [Write(l0), Write(l1), Write(l2)] + rest;
    }
    if Plain(after) {
      PlainIsSkipped(after, "");
      assert after + "" == after && FindAll(MatchLength, "") == [];
    }
  }

  lemma {:induction false} CharsOfCut(s: string, sep: char)
    requires sep in s
    ensures forall c :: c in s ==> c == sep || c in Cut(s, sep).0 || c in Cut(s, sep).1
  {
    if s[0] != sep {
      CharsOfCut(s[1..], sep);
      assert s == [s[0]] + s[1..];
    } else {
      assert s == [s[0]] + s[1..];
    }
  }

  /** A text that is read as a number is made of digits, points and signs. */
  lemma NumberChars(value: string, c: char)
    requires ParseFloat(value).Some? && c in Strip(value)
    ensures IsDigit(c) || IsSign(c) || c == '.'
  {
    var text := Strip(value);
    var body := Unsigned(text);
    if c !in body {
      assert text == [text[0]] + body;
    } else if '.' in body {
      CharsOfCut(body, '.');
      if c in Cut(body, '.').0 {
        var i :| 0 <= i < |Cut(body, '.').0| && Cut(body, '.').0[i] == c;
      } else if c in Cut(body, '.').1 {
        var i :| 0 <= i < |Cut(body, '.').1| && Cut(body, '.').1[i] == c;
      }
    } else {
      var i :| 0 <= i < |body| && body[i] == c;
    }
  }

  /** Packed numbers are not mistaken for one number. */
  lemma PackedIsNoNumber(before: string, l0: Literal, s0: string, l1: Literal, s1: string, l2: Literal, after: string)
    requires Plain(s0) && s0 != "" && Trimmed(Packed(before, l0, s0, l1, s1, l2, after))
    ensures ParseFloat(Packed(before, l0, s0, l1, s1, l2, after)).None?
  {
    var text := Packed(before, l0, s0, l1, s1, l2, after);
    StripKeepsTrimmed(text);
    assert text[|before| + |Write(l0)|] == s0[0];
    if ParseFloat(text).Some? {
      NumberChars(text, s0[0]);
    }
  }
}
