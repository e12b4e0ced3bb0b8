/** ASCII text: stripping white space, splitting at a separator and joining again. */
module Text {

  predicate IsSpace(c: char) {
    ('\t' <= c <= '\r') || ('\U{1C}' <= c <= ' ')
  }

  function StripLeft(s: string): string {
    if s != "" && IsSpace(s[0]) then StripLeft(s[1..]) else s
  }

  function StripRight(s: string): string {
    if s != "" && IsSpace(s[|s| - 1]) then StripRight(s[..|s| - 1]) else s
  }

  function Strip(s: string): string {
    StripRight(StripLeft(s))
  }

  predicate Trimmed(s: string) {
    s == "" || (!IsSpace(s[0]) && !IsSpace(s[|s| - 1]))
  }

  lemma StripKeepsTrimmed(s: string)
    requires Trimmed(s)
    ensures Strip(s) == s
  {
  }

  lemma {:induction false} StripLeftMeaning(s: string)
    ensures StripLeft(s) == "" || !IsSpace(StripLeft(s)[0])
    ensures forall c :: c in StripLeft(s) ==> c in s
  {
    if s != "" && IsSpace(s[0]) {
      StripLeftMeaning(s[1..]);
    }
  }

  lemma {:induction false} StripRightMeaning(s: string)
    ensures StripRight(s) == "" || (StripRight(s)[0] == s[0] && !IsSpace(StripRight(s)[|StripRight(s)| - 1]))
    ensures forall c :: c in StripRight(s) ==> c in s
  {
    if s != "" && IsSpace(s[|s| - 1]) {
      StripRightMeaning(s[..|s| - 1]);
    }
  }

  lemma StripTrims(s: string)
    ensures Trimmed(Strip(s)) && forall c :: c in Strip(s) ==> c in s
  {
    StripLeftMeaning(s);
    StripRightMeaning(StripLeft(s));
  }

  // What stripping means.

  /** The white space of ASCII, by the characters. */
  const BLANKS: set<char> := {'\t', '\n', '\U{0B}', '\U{0C}', '\r', '\U{1C}', '\U{1D}', '\U{1E}', '\U{1F}', ' '}

  predicate Blank(s: string) {
    forall i :: 0 <= i < |s| ==> s[i] in BLANKS
  }

  lemma SpaceIsBlank(c: char)
    ensures IsSpace(c) <==> c in BLANKS
  {
  }

  lemma {:induction false} StripLeftOfPadded(a: string, s: string)
    requires Blank(a)
    ensures StripLeft(a + s) == StripLeft(s)
  {
    if a == "" {
      assert a + s == s;
    } else {
      SpaceIsBlank(a[0]);
      assert (a + s)[1..] == a[1..] + s;
      StripLeftOfPadded(a[1..], s);
    }
  }

  lemma {:induction false} StripRightOfPadded(s: string, b: string)
    requires Blank(b)
    ensures StripRight(s + b) == StripRight(s)
  {
    if b == "" {
      assert s + b == s;
    } else {
      SpaceIsBlank(b[|b| - 1]);
      assert (s + b)[..|s + b| - 1] == s + b[..|b| - 1];
      StripRightOfPadded(s, b[..|b| - 1]);
    }
  }

  /** A text without white space at its ends. */
  predicate Tight(s: string) {
    s == "" || (s[0] !in BLANKS && s[|s| - 1] !in BLANKS)
  }

  /** Stripping removes exactly the white space around a text. */
  lemma StripOfPadded(a: string, s: string, b: string)
    requires Blank(a) && Blank(b) && Tight(s)
    ensures Strip(a + s + b) == s
  {
    assert a + s + b == a + (s + b);
    StripLeftOfPadded(a, s + b);
    if s == "" {
      assert s + b == b;
      StripLeftOfPadded(b, "");
      assert b + "" == b;
    } else {
      SpaceIsBlank(s[0]);
      SpaceIsBlank(s[|s| - 1]);
      StripRightOfPadded(s, b);
    }
  }

  lemma {:induction false} LeftPadding(s: string) returns (a: string)
    ensures Blank(a) && s == a + StripLeft(s) && (StripLeft(s) == "" || StripLeft(s)[0] !in BLANKS)
  {
    a := "";
    if s != "" && IsSpace(s[0]) {
      SpaceIsBlank(s[0]);
      var rest := LeftPadding(s[1..]);
      a := [s[0]] + rest;
    } else if s != "" {
      SpaceIsBlank(s[0]);
    }
  }

  lemma {:induction false} RightPadding(s: string) returns (b: string)
    ensures Blank(b) && s == StripRight(s) + b && (StripRight(s) == "" || StripRight(s)[|StripRight(s)| - 1] !in BLANKS)
  {
    b := "";
    if s != "" && IsSpace(s[|s| - 1]) {
      SpaceIsBlank(s[|s| - 1]);
      var rest := RightPadding(s[..|s| - 1]);
      b := rest + [s[|s| - 1]];
    } else if s != "" {
      SpaceIsBlank(s[|s| - 1]);
    }
  }

  /** Every text is its stripped text with white space around it. */
  lemma Padding(s: string) returns (a: string, b: string)
    ensures Blank(a) && Blank(b) && Tight(Strip(s)) && s == a + Strip(s) + b
  {
    a := LeftPadding(s);
    b := RightPadding(StripLeft(s));
    assert Strip(s) != "" ==> Strip(s)[0] == StripLeft(s)[0];
  }

  /** White space behind a text changes nothing in it. */
  lemma StripIgnoresMore(s: string, more: string)
    requires Blank(more)
    ensures Strip(s + more) == Strip(s)
  {
    var a, b := Padding(s);
    assert s + more == a + Strip(s) + (b + more);
    StripOfPadded(a, Strip(s), b + more);
  }

  function LowerChar(c: char): char {
    if 'A' <= c <= 'Z' then c - 'A' + 'a' else c
  }

  function Lower(s: string): string {
    seq(|s|, i requires 0 <= i < |s| => LowerChar(s[i]))
  }

  /** `s` spells `word`, which has no capitals, in any mixture of small and capital letters. */
  predicate Spells(s: string, word: string) {
    && |s| == |word|
    && forall i :: 0 <= i < |s| ==> s[i] == word[i] || ('A' <= s[i] <= 'Z' && s[i] as int + 32 == word[i] as int)
  }

  lemma LowerOfSpelling(s: string, word: string)
    requires Spells(s, word) && forall i :: 0 <= i < |word| ==> !('A' <= word[i] <= 'Z')
    ensures Lower(s) == word
  {
  }

  function Split(s: string, sep: char): (parts: seq<string>)
    ensures parts != []
  {
    if s == "" then [""]
    else
      var rest := Split(s[1..], sep);
      if s[0] == sep then [""] + rest else [[s[0]] + rest[0]] + rest[1..]
  }

  function Join(parts: seq<string>, sep: char): string
    requires parts != []
  {
    if |parts| == 1 then parts[0] else parts[0] + [sep] + Join(parts[1..], sep)
  }

  /** The text before and after the first separator. */
  function Cut(s: string, sep: char): (string, string)
    requires sep in s
  {
    if s[0] == sep then ("", s[1..]) else var (before, after) := Cut(s[1..], sep); ([s[0]] + before, after)
  }

  predicate Free(s: string, sep: char) {
    sep !in s
  }

  lemma {:induction false} SplitPart(part: string, sep: char)
    requires Free(part, sep)
    ensures Split(part, sep) == [part]
  {
    if part != "" {
      SplitPart(part[1..], sep);
      assert part == [part[0]] + part[1..];
    }
  }

  /** Text without separators behind a text belongs to its last part. */
  lemma {:induction false} SplitMore(s: string, sep: char, more: string)
    requires Free(more, sep)
    ensures var n := |Split(s, sep)| - 1; Split(s + more, sep) == Split(s, sep)[..n] + [Split(s, sep)[n] + more]
  {
    if s == "" {
      SplitPart(more, sep);
      assert s + more == more;
    } else {
      SplitMore(s[1..], sep, more);
      assert (s + more)[1..] == s[1..] + more;
      SplitFront(s, sep);
      SplitFront(s + more, sep);
      FrontThenMore(Split(s[1..], sep), s[0], sep, more);
    }
  }

  /** Adding to the first part and adding to the last part commute. */
  lemma FrontThenMore(rest: seq<string>, c: char, sep: char, more: string)
    requires rest != []
    ensures var n := |rest| - 1;
            var longer := rest[..n] + [rest[n] + more];
            && [""] + longer == ([""] + rest)[..n + 1] + [rest[n] + more]
            && var front := [[c] + rest[0]] + rest[1..];
               [[c] + longer[0]] + longer[1..] == front[..n] + [front[n] + more]
  {
    if |rest| == 1 {
      assert [c] + (rest[0] + more) == [c] + rest[0] + more;
    }
  }

  lemma SplitFront(s: string, sep: char)
    requires s != ""
    ensures var rest := Split(s[1..], sep);
            Split(s, sep) == if s[0] == sep then [""] + rest else [[s[0]] + rest[0]] + rest[1..]
  {
  }

  lemma {:induction false} SplitFirst(part: string, sep: char, rest: string)
    requires Free(part, sep)
    ensures Split(part + [sep] + rest, sep) == [part] + Split(rest, sep)
  {
    if part == "" {
      assert (part + [sep] + rest)[1..] == rest;
    } else {
      SplitFirst(part[1..], sep, rest);
      assert (part + [sep] + rest)[1..] == part[1..] + [sep] + rest;
      assert part == [part[0]] + part[1..];
    }
  }

  /** Splitting undoes joining: no field, not even an empty one, moves another field. */
  lemma {:induction false} SplitOfJoin(parts: seq<string>, sep: char)
    requires parts != [] && forall i :: 0 <= i < |parts| ==> Free(parts[i], sep)
    ensures Split(Join(parts, sep), sep) == parts
  {
    if |parts| == 1 {
      SplitPart(parts[0], sep);
    } else {
      SplitOfJoin(parts[1..], sep);
      SplitFirst(parts[0], sep, Join(parts[1..], sep));
      assert parts == [parts[0]] + parts[1..];
    }
  }

  /** Joining undoes splitting, and the parts are free of the separator. */
  lemma {:induction false} JoinOfSplit(s: string, sep: char)
    ensures Join(Split(s, sep), sep) == s
    ensures forall i :: 0 <= i < |Split(s, sep)| ==> Free(Split(s, sep)[i], sep)
  {
    if s != "" {
      JoinOfSplit(s[1..], sep);
      var rest := Split(s[1..], sep);
      if s[0] == sep {
        assert ([""] + rest)[1..] == rest;
      } else {
        assert ([[s[0]] + rest[0]] + rest[1..])[1..] == rest[1..];
      }
      assert s == [s[0]] + s[1..];
    }
  }

  lemma {:induction false} CutAfter(head: string, sep: char, rest: string)
    requires Free(head, sep)
    ensures sep in head + [sep] + rest
    ensures Cut(head + [sep] + rest, sep) == (head, rest)
  {
    var s := head + [sep] + rest;
    assert s[|head|] == sep;
    if head == "" {
      assert s[1..] == rest;
    } else {
      CutAfter(head[1..], sep, rest);
      assert s[1..] == head[1..] + [sep] + rest;
      assert head == [head[0]] + head[1..];
    }
  }

  lemma {:induction false} JoinEnds(parts: seq<string>, sep: char)
    requires |parts| >= 2 && !IsSpace(sep) && Trimmed(parts[|parts| - 1])
    ensures Join(parts, sep) != "" && !IsSpace(Join(parts, sep)[|Join(parts, sep)| - 1])
  {
    if |parts| > 2 {
      JoinEnds(parts[1..], sep);
    }
  }
}
