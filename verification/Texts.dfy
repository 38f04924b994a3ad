/** Strings: occurrence, case mapping, words, and joining, for any character table that keeps Unicode's laws. */
module Texts {
  /** What Python's string methods and regular expressions know about characters. */
  datatype CharTable = CharTable(
    upper: char -> string, fold: char -> string,
    space: char -> bool, digit: char -> bool, word: char -> bool)

  /** The characters the numbers in a reply are made of. */
  predicate Numeric(u: CharTable, c: char) {
    u.digit(c) || c == '.' || c == ','
  }

  predicate Punctuation(c: char) {
    c in ".,;:!?)"
  }

  /** Characters whose upper case the fixed texts rely on. */
  predicate Plain(c: char) {
    ' ' <= c <= '~' || c == '\n' || c == 'í' || c == 'ó'
  }

  function Up(c: char): char {
    if 'a' <= c <= 'z' then ((c as int) - 32) as char
    else if c == 'í' then 'Í'
    else if c == 'ó' then 'Ó'
    else c
  }

  ghost predicate Lawful(u: CharTable) {
    && u.space(' ') && u.space('\n')
    && (forall c :: u.digit(c) ==> u.word(c) && !u.space(c))
    && (forall c :: Punctuation(c) ==> !u.word(c) && !u.space(c) && !u.digit(c))
    && u.fold('\n') == "\n"
    && (forall c :: |u.fold(c)| >= 1)
    && (forall c :: Numeric(u, c) ==> u.fold(c) == [c])
    && (forall c, x :: x in u.fold(c) && Numeric(u, x) ==> x == c)
    && (forall c :: Plain(c) ==> u.upper(c) == [Up(c)])
    && (forall c :: Plain(c) && u.digit(c) ==> '0' <= c <= '9')
    && (forall c :: Plain(c) && u.space(c) ==> c == ' ' || c == '\n')
  }

  function Down(c: char): char {
    if 'A' <= c <= 'Z' then ((c as int) + 32) as char else c
  }

  /** The laws restricted to ASCII, with the two accented letters of the fixed texts. */
  const ASCII := CharTable(
    c => [Up(c)], c => [Down(c)],
    c => c == ' ' || '\t' <= c <= '\r', c => '0' <= c <= '9',
    c => '0' <= c <= '9' || 'A' <= c <= 'Z' || 'a' <= c <= 'z' || c == '_')

  lemma AsciiClasses(c: char)
    ensures ASCII.digit(c) ==> ASCII.word(c) && !ASCII.space(c)
    ensures Punctuation(c) ==> !ASCII.word(c) && !ASCII.space(c) && !ASCII.digit(c)
    ensures Plain(c) && ASCII.space(c) ==> c == ' ' || c == '\n'
  {
  }

  lemma AsciiFolds(c: char, x: char)
    ensures |ASCII.fold(c)| == 1 && (Numeric(ASCII, c) ==> ASCII.fold(c) == [c])
    ensures x in ASCII.fold(c) && Numeric(ASCII, x) ==> x == c
  {
  }

  /** The laws can be met. */
  lemma AsciiIsLawful()
    ensures Lawful(ASCII)
  {
    forall c, x {
      AsciiFolds(c, x);
    }
    forall c {
      AsciiClasses(c);
    }
    AsciiFolds('\n', '\n');
  }

  // ---------- Occurrence ----------

  predicate OccursAt(s: string, p: string, i: int) {
    0 <= i <= |s| - |p| && s[i..i + |p|] == p
  }

  ghost predicate Contains(s: string, p: string) {
    exists i :: OccursAt(s, p, i)
  }

  lemma ContainsTransitive(s: string, t: string, p: string)
    requires Contains(s, t) && Contains(t, p)
    ensures Contains(s, p)
  {
    var i :| OccursAt(s, t, i);
    var j :| OccursAt(t, p, j);
    assert s[i + j..i + j + |p|] == p by {
      forall k | 0 <= k < |p| ensures s[i + j..i + j + |p|][k] == p[k] {
        assert s[i + j..i + j + |p|][k] == s[i..i + |t|][j + k] == t[j..j + |p|][k];
      }
    }
    assert OccursAt(s, p, i + j);
  }

  lemma ContainsLeft(a: string, b: string, p: string)
    requires Contains(a, p)
    ensures Contains(a + b, p)
  {
    var i :| OccursAt(a, p, i);
    assert (a + b)[i..i + |p|] == a[i..i + |p|];
    assert OccursAt(a + b, p, i);
  }

  lemma ContainsRight(a: string, b: string, p: string)
    requires Contains(b, p)
    ensures Contains(a + b, p)
  {
    var i :| OccursAt(b, p, i);
    assert (a + b)[|a| + i..|a| + i + |p|] == b[i..i + |p|];
    assert OccursAt(a + b, p, |a| + i);
  }

  lemma StraddleHasSeparator(a: string, sep: char, b: string, p: string, i: nat)
    requires OccursAt(a + [sep] + b, p, i) && i <= |a| < i + |p|
    ensures sep in p
  {
    assert p[|a| - i] == (a + [sep] + b)[|a|] == sep;
  }

  /** A pattern without the separator occurs on one side of it. */
  lemma NoStraddle(a: string, sep: char, b: string, p: string)
    requires Contains(a + [sep] + b, p) && sep !in p
    ensures Contains(a, p) || Contains(b, p)
  {
    var s := a + [sep] + b;
    var i :| OccursAt(s, p, i);
    if i + |p| <= |a| {
      assert a[i..i + |p|] == s[i..i + |p|];
      assert OccursAt(a, p, i);
    } else if i > |a| {
      var j := i - |a| - 1;
      assert b[j..j + |p|] == s[i..i + |p|];
      assert OccursAt(b, p, j);
    } else {
      StraddleHasSeparator(a, sep, b, p, i);
    }
  }

  // ---------- Case mapping ----------

  function Map(f: char -> string, s: string): string {
    if s == "" then "" else f(s[0]) + Map(f, s[1..])
  }

  lemma {:induction false} MapConcat(f: char -> string, a: string, b: string)
    ensures Map(f, a + b) == Map(f, a) + Map(f, b)
  {
    if a == "" {
      assert a + b == b;
    } else {
      assert (a + b)[1..] == a[1..] + b;
      MapConcat(f, a[1..], b);
    }
  }

  lemma {:induction false} MapJoint(f: char -> string, a: string, sep: char, b: string)
    ensures Map(f, a + [sep] + b) == Map(f, a) + f(sep) + Map(f, b)
  {
    MapConcat(f, a + [sep], b);
    MapConcat(f, a, [sep]);
    assert Map(f, [sep]) == f(sep) + Map(f, [sep][1..]);
  }

  // ---------- Trimming ----------

  function StripLeft(u: CharTable, s: string): string {
    if s != "" && u.space(s[0]) then StripLeft(u, s[1..]) else s
  }

  function StripRight(drop: char -> bool, s: string): string {
    if s != "" && drop(s[|s| - 1]) then StripRight(drop, s[..|s| - 1]) else s
  }

  function Strip(u: CharTable, s: string): string {
    StripRight(u.space, StripLeft(u, s))
  }

  /** Just the dropped characters at the end are cut. */
  lemma {:induction false} StripRightCuts(drop: char -> bool, s: string)
    ensures var r := StripRight(drop, s);
            && r <= s && (forall i :: |r| <= i < |s| ==> drop(s[i]))
            && (r != "" ==> !drop(r[|r| - 1]))
  {
    if s != "" && drop(s[|s| - 1]) {
      StripRightCuts(drop, s[..|s| - 1]);
    }
  }

  /** What is cut off a match is its trailing punctuation, of seven kinds. */
  lemma {:induction false} TrailingPunctuation(s: string)
    ensures var r := StripRight(Punctuation, s);
            && r <= s && (forall i :: |r| <= i < |s| ==> s[i] in {'.', ',', ';', ':', '!', '?', ')'})
            && (r != "" ==> r[|r| - 1] !in {'.', ',', ';', ':', '!', '?', ')'})
  {
    StripRightCuts(Punctuation, s);
  }

  lemma {:induction false} StripLeftCuts(u: CharTable, s: string) returns (n: nat)
    ensures n <= |s| && StripLeft(u, s) == s[n..] && (forall i :: 0 <= i < n ==> u.space(s[i]))
    ensures n < |s| ==> !u.space(s[n])
  {
    if s != "" && u.space(s[0]) {
      var k := StripLeftCuts(u, s[1..]);
      n := k + 1;
      assert forall i :: 0 < i < n ==> s[i] == s[1..][i - 1];
    } else {
      n := 0;
    }
  }

  /** Trimming cuts the white space around the text and nothing else. */
  lemma StripTrims(u: CharTable, s: string) returns (n: nat)
    ensures var r := Strip(u, s);
            && n + |r| <= |s| && s[n..n + |r|] == r
            && (forall i :: 0 <= i < n || n + |r| <= i < |s| ==> u.space(s[i]))
            && (r != "" ==> !u.space(r[0]) && !u.space(r[|r| - 1]))
  {
    n := StripLeftCuts(u, s);
    var t, r := s[n..], Strip(u, s);
    StripRightCuts(u.space, t);
    forall i | n + |r| <= i < |s| ensures u.space(s[i]) {
      assert t[i - n] == s[i];
    }
  }

  /** What is blank trims to nothing, and nothing else does. */
  lemma OnlyBlanksVanish(u: CharTable, s: string)
    ensures Strip(u, s) == "" <==> forall c :: c in s ==> u.space(c)
  {
    var n := StripTrims(u, s);
    var r := Strip(u, s);
    if r != "" {
      assert s[n] == r[0] && s[n] in s;
    }
  }

  // ---------- Words ----------

  /** The end of the run of elements of one kind that starts at i. */
  function RunEnd<T>(kind: T -> bool, s: seq<T>, i: nat): (e: nat)
    requires i <= |s|
    ensures i <= e <= |s| && (forall k :: i <= k < e ==> kind(s[k])) && (e < |s| ==> !kind(s[e]))
    decreases |s| - i
  {
    if i < |s| && kind(s[i]) then RunEnd(kind, s, i + 1) else i
  }

  /** `split()`: the maximal pieces without white space. */
  function Words(u: CharTable, s: string): seq<string>
    decreases |s|
  {
    if s == "" then []
    else if u.space(s[0]) then Words(u, s[1..])
    else
      var e := RunEnd(c => !u.space(c), s, 0);
      [s[..e]] + Words(u, s[e..])
  }

  function Join(sep: string, parts: seq<string>): string {
    if parts == [] then ""
    else if |parts| == 1 then parts[0]
    else parts[0] + sep + Join(sep, parts[1..])
  }

  /** White space collapsed to single blanks, none at the ends. */
  function Compact(u: CharTable, s: string): string {
    Join(" ", Words(u, s))
  }

  /** `_normalized`. */
  function Normalized(u: CharTable, s: string): string {
    Compact(u, Map(u.fold, s))
  }

  lemma {:induction false} RunEndIs<T>(kind: T -> bool, s: seq<T>, i: nat, e: nat)
    requires i <= e <= |s| && (forall k :: i <= k < e ==> kind(s[k])) && (e < |s| ==> !kind(s[e]))
    ensures RunEnd(kind, s, i) == e
    decreases e - i
  {
    if i < e {
      RunEndIs(kind, s, i + 1, e);
    }
  }

  /** What follows after white space does not change the first word. */
  lemma {:induction false} FirstWordStays(u: CharTable, a: string, c: char, b: string) returns (e: nat)
    requires u.space(c) && a != "" && !u.space(a[0])
    ensures 0 < e <= |a| && Words(u, a) == [a[..e]] + Words(u, a[e..])
    ensures Words(u, a + [c] + b) == [a[..e]] + Words(u, a[e..] + [c] + b)
  {
    var s := a + [c] + b;
    var kind := (x: char) => !u.space(x);
    e := RunEnd(kind, a, 0);
    RunEndIs(kind, s, 0, e);
    assert s[..e] == a[..e] && s[e..] == a[e..] + [c] + b;
    FirstWord(u, a, e);
    FirstWord(u, s, e);
  }

  lemma {:induction false} FirstWord(u: CharTable, s: string, e: nat)
    requires 0 < e <= |s| && (forall k :: 0 <= k < e ==> !u.space(s[k])) && (e < |s| ==> u.space(s[e]))
    ensures Words(u, s) == [s[..e]] + Words(u, s[e..])
  {
    RunEndIs(c => !u.space(c), s, 0, e);
  }

  /** White space separates words: what is around it is split on its own. */
  lemma {:induction false} WordsSplit(u: CharTable, a: string, c: char, b: string)
    requires u.space(c)
    ensures Words(u, a + [c] + b) == Words(u, a) + Words(u, b)
    decreases |a|
  {
    var s := a + [c] + b;
    if a == "" {
      assert s[1..] == b;
    } else if u.space(a[0]) {
      assert s[1..] == a[1..] + [c] + b;
      WordsSplit(u, a[1..], c, b);
    } else {
      var e := FirstWordStays(u, a, c, b);
      WordsSplit(u, a[e..], c, b);
    }
  }

  /** A text without white space is one word. */
  lemma {:induction false} OneWord(u: CharTable, s: string)
    requires s != "" && forall c :: c in s ==> !u.space(c)
    ensures Words(u, s) == [s] && Compact(u, s) == s
  {
    assert s[0] in s;
    var e := RunEnd(c => !u.space(c), s, 0);
    assert s[..e] == s && s[e..] == "";
  }

  lemma {:induction false} JoinConcat(sep: string, a: seq<string>, b: seq<string>)
    requires a != [] && b != []
    ensures Join(sep, a + b) == Join(sep, a) + sep + Join(sep, b)
  {
    assert (a + b)[1..] == a[1..] + b;
    if |a| > 1 {
      JoinConcat(sep, a[1..], b);
    }
  }

  /**
   Collapsing: white space between two texts becomes one blank, or nothing if one of them is blank. With `OneWord` this
   settles what every text is collapsed to.
   */
  lemma {:induction false} CompactJoins(u: CharTable, a: string, c: char, b: string)
    requires u.space(c)
    ensures Compact(u, a + [c] + b) ==
              if Words(u, a) == [] then Compact(u, b)
              else if Words(u, b) == [] then Compact(u, a)
              else Compact(u, a) + " " + Compact(u, b)
  {
    WordsSplit(u, a, c, b);
    if Words(u, a) == [] {
      assert [] + Words(u, b) == Words(u, b);
    } else if Words(u, b) == [] {
      assert Words(u, a) + [] == Words(u, a);
    } else {
      JoinConcat(" ", Words(u, a), Words(u, b));
    }
  }

  lemma {:induction false} BlankHasNoWords(u: CharTable, s: string)
    ensures Words(u, s) == [] <==> forall c :: c in s ==> u.space(c)
    decreases |s|
  {
    if s != "" && u.space(s[0]) {
      BlankHasNoWords(u, s[1..]);
      assert s == [s[0]] + s[1..];
    } else if s != "" {
      assert s[0] in s;
    }
  }

  /** Normalizing folds the case, and then collapses: a word is only folded, and white space joins what is normal. */
  lemma {:induction false} NormalizedParts(u: CharTable, a: string, c: char, b: string)
    requires u.space(c) && u.fold(c) == [c]
    ensures Map(u.fold, a) != "" && (forall x :: x in Map(u.fold, a) ==> !u.space(x)) ==>
              Normalized(u, a) == Map(u.fold, a)
    ensures Normalized(u, a + [c] + b) ==
              if forall x :: x in Map(u.fold, a) ==> u.space(x) then Normalized(u, b)
              else if forall x :: x in Map(u.fold, b) ==> u.space(x) then Normalized(u, a)
              else Normalized(u, a) + " " + Normalized(u, b)
  {
    if Map(u.fold, a) != "" && (forall x :: x in Map(u.fold, a) ==> !u.space(x)) {
      OneWord(u, Map(u.fold, a));
    }
    MapJoint(u.fold, a, c, b);
    CompactJoins(u, Map(u.fold, a), c, Map(u.fold, b));
    BlankHasNoWords(u, Map(u.fold, a));
    BlankHasNoWords(u, Map(u.fold, b));
  }

  lemma {:induction false} WordsOccur(u: CharTable, s: string, w: string)
    requires w in Words(u, s)
    ensures Contains(s, w)
    decreases |s|
  {
    if u.space(s[0]) {
      WordsOccur(u, s[1..], w);
      assert s == s[..1] + s[1..];
      ContainsRight(s[..1], s[1..], w);
    } else {
      var e := RunEnd(c => !u.space(c), s, 0);
      if w == s[..e] {
        assert OccursAt(s, w, 0);
      } else {
        WordsOccur(u, s[e..], w);
        assert s == s[..e] + s[e..];
        ContainsRight(s[..e], s[e..], w);
      }
    }
  }

  /** A non-empty pattern without the separator occurs inside one of the joined parts. */
  lemma {:induction false} OccursInOnePart(sep: char, parts: seq<string>, p: string)
    requires p != "" && sep !in p && Contains(Join([sep], parts), p)
    ensures exists w :: w in parts && Contains(w, p)
  {
    if parts == [] {
      assert false;
    } else if |parts| == 1 {
      assert parts[0] in parts;
    } else {
      NoStraddle(parts[0], sep, Join([sep], parts[1..]), p);
      if Contains(parts[0], p) {
        assert parts[0] in parts;
      } else {
        OccursInOnePart(sep, parts[1..], p);
        var w :| w in parts[1..] && Contains(w, p);
        assert w in parts;
      }
    }
  }

  /** White-space-free text found in the collapsed form was in the original. */
  lemma CompactAddsNothing(u: CharTable, s: string, p: string)
    requires Lawful(u) && p != "" && (forall c :: c in p ==> !u.space(c)) && Contains(Compact(u, s), p)
    ensures Contains(s, p)
  {
    OccursInOnePart(' ', Words(u, s), p);
    var w :| w in Words(u, s) && Contains(w, p);
    WordsOccur(u, s, w);
    ContainsTransitive(s, w, p);
  }

  // ---------- Numbers survive case folding ----------

  ghost predicate AllNumeric(u: CharTable, p: string) {
    forall c :: c in p ==> Numeric(u, c)
  }

  lemma {:induction false} FoldedPrefix(u: CharTable, s: string, p: string)
    requires Lawful(u) && AllNumeric(u, p) && p <= Map(u.fold, s)
    ensures p <= s
  {
    if p != "" {
      var head := u.fold(s[0]);
      assert Map(u.fold, s)[0] == head[0] == p[0];
      assert p[0] in head && Numeric(u, p[0]);
      assert head == [s[0]];
      assert forall c :: c in p[1..] ==> c in p;
      assert p[1..] <= Map(u.fold, s[1..]) by {
        assert Map(u.fold, s)[1..] == Map(u.fold, s[1..]);
        assert p[1..] == Map(u.fold, s)[1..][..|p| - 1];
      }
      FoldedPrefix(u, s[1..], p[1..]);
      assert p == [p[0]] + p[1..] && s == [s[0]] + s[1..];
    }
  }

  /** A numeric character in a folded character is that character, alone. */
  lemma FoldedNumberAlone(u: CharTable, c: char, k: nat)
    requires Lawful(u) && k < |u.fold(c)| && Numeric(u, u.fold(c)[k])
    ensures u.fold(c) == [c]
  {
    assert u.fold(c)[k] in u.fold(c);
  }

  lemma {:induction false} FoldedOccurrence(u: CharTable, s: string, p: string)
    requires Lawful(u) && p != "" && AllNumeric(u, p) && Contains(Map(u.fold, s), p)
    ensures Contains(s, p)
  {
    var m := Map(u.fold, s);
    var i :| OccursAt(m, p, i);
    if s == "" {
      assert false;
    }
    var head, rest := u.fold(s[0]), Map(u.fold, s[1..]);
    if i < |head| {
      assert head[i] == m[i] == m[i..i + |p|][0] == p[0];
      assert p[0] in p;
      FoldedNumberAlone(u, s[0], i);
      assert p <= m;
      FoldedPrefix(u, s, p);
      assert OccursAt(s, p, 0);
    } else {
      var j := i - |head|;
      assert rest[j..j + |p|] == m[i..i + |p|];
      assert OccursAt(rest, p, j);
      FoldedOccurrence(u, s[1..], p);
      assert s == s[..1] + s[1..];
      ContainsRight(s[..1], s[1..], p);
    }
  }

  lemma {:induction false} MapOfJoined(f: char -> string, sep: char, parts: seq<string>)
    requires f(sep) == [sep]
    ensures Map(f, Join([sep], parts)) == Join([sep], MapEach(f, parts))
  {
    if |parts| > 1 {
      MapJoint(f, parts[0], sep, Join([sep], parts[1..]));
      MapOfJoined(f, sep, parts[1..]);
      assert MapEach(f, parts)[1..] == MapEach(f, parts[1..]);
    } else if |parts| == 1 {
      assert MapEach(f, parts) == [Map(f, parts[0])];
    }
  }

  function MapEach(f: char -> string, parts: seq<string>): (r: seq<string>)
    ensures |r| == |parts| && forall i :: 0 <= i < |r| ==> r[i] == Map(f, parts[i])
  {
    seq(|parts|, i requires 0 <= i < |parts| => Map(f, parts[i]))
  }

  lemma NumbersHaveNoSpace(u: CharTable, p: string)
    requires Lawful(u) && AllNumeric(u, p)
    ensures forall c :: c in p ==> !u.space(c)
    ensures ' ' !in p && '\n' !in p
  {
  }

  /** White-space-free text found in the normalised lines is in one of the lines, up to case. */
  lemma WordComesFromOneLine(u: CharTable, lines: seq<string>, p: string) returns (i: nat)
    requires Lawful(u) && p != "" && (forall c :: c in p ==> !u.space(c))
    requires Contains(Normalized(u, Join("\n", lines)), p)
    ensures i < |lines| && Contains(Map(u.fold, lines[i]), p)
  {
    CompactAddsNothing(u, Map(u.fold, Join("\n", lines)), p);
    MapOfJoined(u.fold, '\n', lines);
    OccursInOnePart('\n', MapEach(u.fold, lines), p);
    var w :| w in MapEach(u.fold, lines) && Contains(w, p);
    i :| 0 <= i < |lines| && w == MapEach(u.fold, lines)[i];
  }

  lemma NumberInFoldedLines(u: CharTable, lines: seq<string>, p: string) returns (i: nat)
    requires Lawful(u) && p != "" && AllNumeric(u, p)
    requires Contains(Join("\n", MapEach(u.fold, lines)), p)
    ensures i < |lines| && Contains(lines[i], p)
  {
    NumbersHaveNoSpace(u, p);
    OccursInOnePart('\n', MapEach(u.fold, lines), p);
    var w :| w in MapEach(u.fold, lines) && Contains(w, p);
    i :| 0 <= i < |lines| && w == MapEach(u.fold, lines)[i];
    FoldedOccurrence(u, lines[i], p);
  }

  /** A number found in the normalised lines is in one of the lines as it stands. */
  lemma NumberComesFromOneLine(u: CharTable, lines: seq<string>, p: string) returns (i: nat)
    requires Lawful(u) && p != "" && AllNumeric(u, p)
    requires Contains(Normalized(u, Join("\n", lines)), p)
    ensures i < |lines| && Contains(lines[i], p)
  {
    NumbersHaveNoSpace(u, p);
    CompactAddsNothing(u, Map(u.fold, Join("\n", lines)), p);
    MapOfJoined(u.fold, '\n', lines);
    i := NumberInFoldedLines(u, lines, p);
  }
}
