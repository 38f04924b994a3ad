/** The number pattern of the grounding validator, `\b\d+(?:[.,]\d+)*\b`, found greedily from left to right. */
module Numbers {
  import opened Options
  import opened Texts

  predicate WordAt(u: CharTable, s: string, i: int) {
    0 <= i < |s| && u.word(s[i])
  }

  /** `\b`. */
  predicate Boundary(u: CharTable, s: string, i: int) {
    WordAt(u, s, i - 1) != WordAt(u, s, i)
  }

  predicate Mark(c: char) {
    c == '.' || c == ','
  }

  /** s[i..j] is digits, then groups of a mark and digits. */
  predicate Shape(u: CharTable, s: string, i: nat, j: nat)
    decreases |s| - i
  {
    && i < j <= |s| && u.digit(s[i])
    && (i + 1 == j || Shape(u, s, i + 1, j) || (i + 1 < j && Mark(s[i + 1]) && Shape(u, s, i + 2, j)))
  }

  /** What the whole pattern matches. */
  predicate IsNumber(u: CharTable, s: string, i: nat, j: nat) {
    Shape(u, s, i, j) && Boundary(u, s, i) && Boundary(u, s, j)
  }

  // ---------- The matcher ----------

  /** The next group after a run of digits that ends at e. */
  predicate GroupFollows(u: CharTable, s: string, e: nat) {
    e + 1 < |s| && Mark(s[e]) && u.digit(s[e + 1])
  }

  /** The matcher after a run of digits up to e: take more groups if that leads to a match, else stop here. */
  function LastEnd(u: CharTable, s: string, e: nat): (r: Option<nat>)
    requires e <= |s|
    decreases |s| - e
  {
    var further := if GroupFollows(u, s, e) then LastEnd(u, s, RunEnd(u.digit, s, e + 1)) else None;
    if further.Some? then further
    else if Boundary(u, s, e) then Some(e)
    else None
  }

  /** The end of the match that starts at i, if one does. */
  function MatchAt(u: CharTable, s: string, i: nat): (r: Option<nat>)
    requires i <= |s|
  {
    if i < |s| && u.digit(s[i]) && Boundary(u, s, i) then LastEnd(u, s, RunEnd(u.digit, s, i)) else None
  }

  // ---------- The matcher finds the longest match ----------

  /** A shape ends inside the first run of digits, or goes on with a group. */
  lemma {:induction false} ShapeSplits(u: CharTable, s: string, i: nat, j: nat)
    requires Shape(u, s, i, j)
    ensures var e := RunEnd(u.digit, s, i);
            i < e && (j <= e || (GroupFollows(u, s, e) && Shape(u, s, e + 1, j)))
    decreases |s| - i
  {
    if i + 1 != j && Shape(u, s, i + 1, j) {
      ShapeSplits(u, s, i + 1, j);
    }
  }

  lemma {:induction false} DigitsAreShape(u: CharTable, s: string, i: nat, e: nat)
    requires i < e <= |s| && forall k :: i <= k < e ==> u.digit(s[k])
    ensures Shape(u, s, i, e)
    decreases e - i
  {
    if i + 1 < e {
      DigitsAreShape(u, s, i + 1, e);
    }
  }

  lemma {:induction false} GroupExtendsShape(u: CharTable, s: string, i: nat, e: nat, j: nat)
    requires i < e < |s| && (forall k :: i <= k < e ==> u.digit(s[k])) && Mark(s[e]) && Shape(u, s, e + 1, j)
    ensures Shape(u, s, i, j)
    decreases e - i
  {
    if i + 1 < e {
      GroupExtendsShape(u, s, i + 1, e, j);
    }
  }

  /** Where a match can end once a run of digits has ended at e. */
  predicate EndsAfter(u: CharTable, s: string, e: nat, j: nat) {
    Boundary(u, s, j) && (j == e || (GroupFollows(u, s, e) && Shape(u, s, e + 1, j)))
  }

  lemma {:induction false} LastEndIsLongest(u: CharTable, s: string, e: nat)
    requires Lawful(u) && e <= |s|
    ensures match LastEnd(u, s, e)
            case Some(j) => EndsAfter(u, s, e, j) && forall k: nat :: EndsAfter(u, s, e, k) ==> k <= j
            case None => forall k: nat :: !EndsAfter(u, s, e, k)
    decreases |s| - e
  {
    if GroupFollows(u, s, e) {
      var f := RunEnd(u.digit, s, e + 1);
      LastEndIsLongest(u, s, f);
      forall k | EndsAfter(u, s, e, k) && k != e ensures EndsAfter(u, s, f, k) {
        ShapeSplits(u, s, e + 1, k);
      }
      DigitsAreShape(u, s, e + 1, f);
      match LastEnd(u, s, f)
      case Some(j) =>
        if j != f {
          GroupExtendsShape(u, s, e + 1, f, j);
        }
      case None =>
    }
  }

  /** The matcher is the pattern: the longest match that starts at i, or none if there is none. */
  lemma MatchIsLongest(u: CharTable, s: string, i: nat)
    requires Lawful(u) && i <= |s|
    ensures match MatchAt(u, s, i)
            case Some(j) => IsNumber(u, s, i, j) && forall k: nat :: IsNumber(u, s, i, k) ==> k <= j
            case None => forall k: nat :: !IsNumber(u, s, i, k)
  {
    if i < |s| && u.digit(s[i]) && Boundary(u, s, i) {
      var e := RunEnd(u.digit, s, i);
      LastEndIsLongest(u, s, e);
      forall k | IsNumber(u, s, i, k) ensures EndsAfter(u, s, e, k) {
        ShapeSplits(u, s, i, k);
      }
      DigitsAreShape(u, s, i, e);
      match LastEnd(u, s, e)
      case Some(j) =>
        if j != e {
          GroupExtendsShape(u, s, i, e, j);
        }
      case None =>
    }
  }

  // ---------- All matches ----------

  /** `finditer` from position `from` on: matches do not overlap. */
  function FindAll(u: CharTable, s: string, from: nat): (r: seq<(nat, nat)>)
    requires Lawful(u) && from <= |s|
    ensures forall m :: m in r ==> m.0 < m.1 <= |s| && IsNumber(u, s, m.0, m.1)
    decreases |s| - from
  {
    if from == |s| then []
    else
      MatchIsLongest(u, s, from);
      match MatchAt(u, s, from)
      case Some(j) => [(from, j)] + FindAll(u, s, j)
      case None => FindAll(u, s, from + 1)
  }

  /** Each ends before the next begins. */
  ghost predicate Apart(r: seq<(nat, nat)>, from: nat) {
    && (forall i :: 0 <= i < |r| ==> from <= r[i].0 < r[i].1)
    && (forall i, j :: 0 <= i < j < |r| ==> r[i].1 <= r[j].0)
  }

  lemma ApartCons(from: nat, e: nat, rest: seq<(nat, nat)>)
    requires from < e && Apart(rest, e)
    ensures Apart([(from, e)] + rest, from)
  {
    var r := [(from, e)] + rest;
    forall i, j | 0 <= i < j < |r| ensures r[i].1 <= r[j].0 {
      assert r[j] == rest[j - 1];
    }
  }

  /** The matches are in order and do not overlap. */
  lemma {:induction false} MatchesAreApart(u: CharTable, s: string, from: nat)
    requires Lawful(u) && from <= |s|
    ensures Apart(FindAll(u, s, from), from)
    decreases |s| - from
  {
    if from < |s| {
      MatchIsLongest(u, s, from);
      match MatchAt(u, s, from)
      case Some(e) =>
        MatchesAreApart(u, s, e);
        ApartCons(from, e, FindAll(u, s, e));
      case None =>
        MatchesAreApart(u, s, from + 1);
    }
  }

  /** Each match is the longest number that starts there. */
  lemma {:induction false} MatchesAreLongest(u: CharTable, s: string, from: nat, m: (nat, nat), k: nat)
    requires Lawful(u) && from <= |s| && m in FindAll(u, s, from) && IsNumber(u, s, m.0, k)
    ensures k <= m.1
    decreases |s| - from
  {
    MatchIsLongest(u, s, from);
    match MatchAt(u, s, from)
    case Some(e) =>
      if m != (from, e) {
        MatchesAreLongest(u, s, e, m, k);
      }
    case None =>
      MatchesAreLongest(u, s, from + 1, m, k);
  }

  /** No number is missed: wherever one starts, a match has begun there or covers it. */
  lemma {:induction false} EveryNumberIsCovered(u: CharTable, s: string, from: nat, i: nat, j: nat)
    requires Lawful(u) && from <= i && IsNumber(u, s, i, j)
    ensures exists m :: m in FindAll(u, s, from) && m.0 <= i < m.1
    decreases |s| - from
  {
    MatchIsLongest(u, s, from);
    match MatchAt(u, s, from)
    case Some(e) =>
      assert FindAll(u, s, from) == [(from, e)] + FindAll(u, s, e);
      if e <= i {
        EveryNumberIsCovered(u, s, e, i, j);
        var m :| m in FindAll(u, s, e) && m.0 <= i < m.1;
        assert m in FindAll(u, s, from);
      } else {
        assert (from, e) in FindAll(u, s, from);
      }
    case None =>
      EveryNumberIsCovered(u, s, from + 1, i, j);
  }

  /** A run of digits with non-word characters, or the text's ends, on both sides. */
  ghost predicate Standalone(u: CharTable, s: string, i: nat, j: nat) {
    && i < j <= |s| && (forall k :: i <= k < j ==> u.digit(s[k]))
    && !WordAt(u, s, i - 1) && !WordAt(u, s, j)
  }

  /** The scanner misses no standalone run of digits: each lies inside one match. */
  lemma {:induction false} EveryRunIsFound(u: CharTable, s: string, from: nat, i: nat, j: nat)
    requires Lawful(u) && Standalone(u, s, i, j) && from <= i
    ensures exists m :: m in FindAll(u, s, from) && m.0 <= i && j <= m.1
    decreases |s| - from
  {
    MatchIsLongest(u, s, from);
    match MatchAt(u, s, from)
    case Some(e) =>
      assert FindAll(u, s, from) == [(from, e)] + FindAll(u, s, e);
      if e <= i {
        EveryRunIsFound(u, s, e, i, j);
        var m :| m in FindAll(u, s, e) && m.0 <= i && j <= m.1;
        assert m in FindAll(u, s, from);
      } else {
        ShapeEndsInDigit(u, s, from, e);
        assert (from, e) in FindAll(u, s, from);
      }
    case None =>
      if from == i {
        DigitsAreShape(u, s, i, j);
        assert IsNumber(u, s, i, j);
      } else {
        EveryRunIsFound(u, s, from + 1, i, j);
      }
  }

  lemma {:induction false} ShapeEndsInDigit(u: CharTable, s: string, i: nat, j: nat)
    requires Shape(u, s, i, j)
    ensures u.digit(s[j - 1])
    decreases |s| - i
  {
    if i + 1 != j {
      if Shape(u, s, i + 1, j) {
        ShapeEndsInDigit(u, s, i + 1, j);
      } else {
        ShapeEndsInDigit(u, s, i + 2, j);
      }
    }
  }

  /** A number is made of digits and marks. */
  lemma {:induction false} ShapeIsNumeric(u: CharTable, s: string, i: nat, j: nat)
    requires Shape(u, s, i, j)
    ensures AllNumeric(u, s[i..j])
    decreases |s| - i
  {
    if i + 1 == j {
      assert s[i..j] == [s[i]];
    } else if Shape(u, s, i + 1, j) {
      ShapeIsNumeric(u, s, i + 1, j);
      assert s[i..j] == [s[i]] + s[i + 1..j];
    } else {
      ShapeIsNumeric(u, s, i + 2, j);
      assert s[i..j] == [s[i], s[i + 1]] + s[i + 2..j];
    }
  }

  /**
   What a shape is: digits and marks, a digit at both ends, and no two marks in a row. With word boundaries at both
   ends this is what the pattern matches.
   */
  lemma {:induction false} ShapeMeans(u: CharTable, s: string, i: nat, j: nat)
    requires Lawful(u)
    ensures Shape(u, s, i, j) <==>
              && i < j <= |s| && u.digit(s[i]) && u.digit(s[j - 1])
              && (forall k :: i <= k < j ==> u.digit(s[k]) || s[k] == '.' || s[k] == ',')
              && (forall k :: i < k < j ==> u.digit(s[k - 1]) || u.digit(s[k]))
    decreases |s| - i
  {
    assert Punctuation('.') && Punctuation(',');
    if i + 1 < j <= |s| && u.digit(s[i]) {
      ShapeMeans(u, s, i + 1, j);
      if i + 2 < j {
        ShapeMeans(u, s, i + 2, j);
      }
    }
  }
}
