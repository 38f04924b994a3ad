/** The fixed texts of the fallback, word by word: none of them can hold an internal marker or a digit. */
module FixedTexts {
  import opened Texts

  const INTRODUCTION := Join(" ", INTRODUCTION_WORDS)
  const APOLOGY := Join(" ", APOLOGY_WORDS)
  const HEADING := Join(" ", HEADING_WORDS)
  const PENDING := Join(" ", PENDING_WORDS)
  const OMITTED := Join(" ", OMITTED_WORDS)

  const INTRODUCTION_WORDS: seq<string> := GREETING + HELP + (OFFER + ORIGIN)
  const GREETING: seq<string> := ["Soy", "Piki,", "el"] + ["asistente", "de", "BuenPick."]
  const HELP: seq<string> := ["Te", "ayudo", "a"] + ["descubrir", "alimentos"]
  const OFFER: seq<string> := ["para", "rescatar"] + ["y", "a", "consultar"]
  const ORIGIN: seq<string> := ["información", "confirmada"] + ["por", "BuenPick."]

  const APOLOGY_WORDS: seq<string> := REGRET + MOMENT + PROMISE
  const REGRET: seq<string> := ["No", "pude", "confirmar"] + ["la", "información"]
  const MOMENT: seq<string> := ["necesaria", "en"] + ["este", "momento."]
  const PROMISE: seq<string> := ["Probemos", "de", "nuevo"] + ["en", "un", "rato."]

  const HEADING_WORDS: seq<string> := ["Esto", "es", "lo"] + ["que", "pude", "confirmar:"]
  const PENDING_WORDS: seq<string> := ["Hay", "datos", "que", "todavía"] + ["no", "pude", "confirmar."]
  const OMITTED_WORDS: seq<string> := ["[dato", "omitido"] + ["por", "seguridad]"]

  // ---------- What a word must not be ----------

  /** Letters and the punctuation of the texts: no blank, no digit, and nothing that the markers of one word need. */
  predicate WordCharacter(c: char) {
    || 'a' <= c <= 'z' || 'A' <= c <= 'Z' || c == 'í' || c == 'ó'
    || c == ',' || c == '.' || c == ':' || c == '[' || c == ']'
  }

  /**
   The word cannot begin with one of n letters with this first and this fourth letter: it is too short, or differs in
   one.
   */
  predicate CannotBegin(w: string, n: nat, first: char, lowerFirst: char, fourth: char, lowerFourth: char)
    requires n > 3
  {
    |w| < n || (w[0] != first && w[0] != lowerFirst) || (w[3] != fourth && w[3] != lowerFourth)
  }

  /** The word neither holds a marker of one word nor begins with the last word of a longer one. */
  predicate Harmless(w: string) {
    && (forall i :: 0 <= i < |w| ==> WordCharacter(w[i]))
    && CannotBegin(w, 11, 'C', 'c', 'F', 'f')  // CONFIRMADOS
    && CannotBegin(w, 11, 'D', 'd', 'P', 'p')  // DISPONIBLES
    && CannotBegin(w, 10, 'R', 'r', 'L', 'l')  // REALIZADAS
    && CannotBegin(w, 9, 'R', 'r', 'A', 'a')   // REDACCIÓN
    && CannotBegin(w, 6, 'P', 'p', 'M', 'm')   // PROMPT
  }

  ghost predicate AllHarmless(ws: seq<string>) {
    forall i :: 0 <= i < |ws| ==> Harmless(ws[i])
  }

  lemma GreetingIsHarmless()
    ensures AllHarmless(GREETING)
  {
  }

  lemma HelpIsHarmless()
    ensures AllHarmless(HELP)
  {
  }

  lemma OfferIsHarmless()
    ensures AllHarmless(OFFER)
  {
  }

  lemma OriginIsHarmless()
    ensures AllHarmless(ORIGIN)
  {
  }

  lemma RegretIsHarmless()
    ensures AllHarmless(REGRET)
  {
  }

  lemma MomentIsHarmless()
    ensures AllHarmless(MOMENT)
  {
  }

  lemma PromiseIsHarmless()
    ensures AllHarmless(PROMISE)
  {
  }

  lemma HarmlessTogether(a: seq<string>, b: seq<string>)
    requires AllHarmless(a) && AllHarmless(b)
    ensures AllHarmless(a + b)
  {
  }

  lemma IntroductionIsHarmless()
    ensures AllHarmless(INTRODUCTION_WORDS)
  {
    GreetingIsHarmless();
    HelpIsHarmless();
    OfferIsHarmless();
    OriginIsHarmless();
    HarmlessTogether(GREETING, HELP);
    HarmlessTogether(OFFER, ORIGIN);
    HarmlessTogether(GREETING + HELP, OFFER + ORIGIN);
  }

  lemma ApologyIsHarmless()
    ensures AllHarmless(APOLOGY_WORDS)
  {
    RegretIsHarmless();
    MomentIsHarmless();
    PromiseIsHarmless();
    HarmlessTogether(REGRET, MOMENT);
    HarmlessTogether(REGRET + MOMENT, PROMISE);
  }

  lemma HeadingIsHarmless()
    ensures AllHarmless(HEADING_WORDS)
  {
  }

  lemma PendingIsHarmless()
    ensures AllHarmless(PENDING_WORDS)
  {
  }

  lemma OmittedIsHarmless()
    ensures AllHarmless(OMITTED_WORDS)
  {
  }

  // ---------- Joined words ----------

  /** The text's upper case lacks the marker. */
  ghost predicate FreeOf(u: CharTable, s: string, m: string) {
    !Contains(Map(u.upper, s), m)
  }

  lemma {:induction false} PlainUpper(u: CharTable, s: string)
    requires Lawful(u) && forall i :: 0 <= i < |s| ==> Plain(s[i])
    ensures |Map(u.upper, s)| == |s| && forall i :: 0 <= i < |s| ==> Map(u.upper, s)[i] == Up(s[i])
  {
    if s != "" {
      PlainUpper(u, s[1..]);
    }
  }

  /** Where " b" can stand in a word, a blank, and a rest: at the blank, or in the rest. */
  lemma BlankThenText(w: string, rest: string, b: string)
    requires b != "" && ' ' !in w && Contains(w + (" " + rest), " " + b)
    ensures b <= rest || Contains(rest, " " + b)
  {
    var s := w + (" " + rest);
    var i :| OccursAt(s, " " + b, i);
    assert s[i] == (" " + b)[0] == ' ';
    var j := i - |w| - 1;
    if j == -1 {
      assert rest[..|b|] == s[i..i + 1 + |b|][1..] == b;
    } else if j >= 0 {
      assert rest[j..j + 1 + |b|] == s[i..i + 1 + |b|];
      assert OccursAt(rest, " " + b, j);
    }
  }

  lemma NoBlankInside(w: string, b: string)
    requires ' ' !in w
    ensures !Contains(w, " " + b)
  {
    if Contains(w, " " + b) {
      HoldsLetter(w, " " + b, 0);
    }
  }

  /** A text that follows a blank in joined words begins one of them, unless it has blanks itself. */
  lemma {:induction false} FollowsBlank(ws: seq<string>, b: string)
    requires b != "" && ' ' !in b && (forall i :: 0 <= i < |ws| ==> ' ' !in ws[i])
    requires Contains(Join(" ", ws), " " + b)
    ensures exists i :: 0 <= i < |ws| && b <= ws[i]
    decreases |ws|
  {
    if |ws| > 1 {
      var rest := Join(" ", ws[1..]);
      assert Join(" ", ws) == ws[0] + (" " + rest);
      BlankThenText(ws[0], rest, b);
      if b <= rest {
        BeginsFirst(ws[1..], b);
        assert b <= ws[1];
      } else {
        FollowsBlank(ws[1..], b);
        var k :| 0 <= k < |ws[1..]| && b <= ws[1..][k];
        assert b <= ws[k + 1];
      }
    } else if |ws| == 1 {
      NoBlankInside(ws[0], b);
    } else {
      NoBlankInside("", b);
    }
  }

  lemma {:induction false} LongerHasBlank(ws: seq<string>, b: string)
    requires ws != [] && b <= Join(" ", ws) && |b| > |ws[0]|
    ensures ' ' in b
  {
    assert b[|ws[0]|] == Join(" ", ws)[|ws[0]|];
  }

  lemma {:induction false} BeginsFirst(ws: seq<string>, b: string)
    requires ws != [] && ' ' !in b && b <= Join(" ", ws)
    ensures b <= ws[0]
  {
    if |b| > |ws[0]| {
      LongerHasBlank(ws, b);
    }
  }

  /** The upper case of joined words is their upper cases, joined. */
  lemma {:induction false} UpperWords(u: CharTable, ws: seq<string>)
    requires Lawful(u)
    ensures Map(u.upper, Join(" ", ws)) == Join(" ", MapEach(u.upper, ws))
  {
    assert Plain(' ');
    MapOfJoined(u.upper, ' ', ws);
  }

  lemma {:induction false} HarmlessUpper(u: CharTable, w: string)
    requires Lawful(u) && Harmless(w)
    ensures var v := Map(u.upper, w); ' ' !in v && '_' !in v && '<' !in v
  {
    PlainUpper(u, w);
  }

  /** Upper case decides what a word begins with. */
  lemma {:induction false} UpperCannotBegin(u: CharTable, w: string, b: string, lowerFirst: char, lowerFourth: char)
    requires Lawful(u) && Harmless(w) && |b| > 3 && CannotBegin(w, |b|, b[0], lowerFirst, b[3], lowerFourth)
    requires IsLower(b[0], lowerFirst) && IsLower(b[3], lowerFourth)
    ensures !(b <= Map(u.upper, w))
  {
    PlainUpper(u, w);
  }

  predicate IsLower(x: char, lower: char) {
    'A' <= x <= 'Z' && lower as int == x as int + 32
  }

  /** A marker with a letter that no word has. */
  lemma {:induction false} NoWordHolds(u: CharTable, ws: seq<string>, m: string, k: nat)
    requires Lawful(u) && AllHarmless(ws) && ' ' !in m && k < |m| && (m[k] == '_' || m[k] == '<')
    ensures FreeOf(u, Join(" ", ws), m)
  {
    UpperWords(u, ws);
    if Contains(Join(" ", MapEach(u.upper, ws)), m) {
      OccursInOnePart(' ', MapEach(u.upper, ws), m);
      var v :| v in MapEach(u.upper, ws) && Contains(v, m);
      var i :| 0 <= i < |ws| && MapEach(u.upper, ws)[i] == v;
      HarmlessUpper(u, ws[i]);
      HoldsLetter(v, m, k);
    }
  }

  lemma HoldsLetter(v: string, m: string, k: nat)
    requires Contains(v, m) && k < |m|
    ensures m[k] in v
  {
    var i :| OccursAt(v, m, i);
    assert m[k] == v[i..i + |m|][k] == v[i + k];
  }

  lemma LastWordOccurs(t: string, m: string, b: string)
    requires |m| > |b| && m[|m| - |b| - 1] == ' ' && m[|m| - |b|..] == b && Contains(t, m)
    ensures Contains(t, " " + b)
  {
    assert m[|m| - |b| - 1..] == " " + b;
    assert OccursAt(m, " " + b, |m| - |b| - 1);
    ContainsTransitive(t, m, " " + b);
  }

  /** A marker whose last word no word begins with. */
  lemma {:induction false} NoWordBegins(u: CharTable, ws: seq<string>, m: string, b: string, lowerFirst: char,
                                        lowerFourth: char)
    requires Lawful(u) && AllHarmless(ws) && |b| > 3 && ' ' !in b
    requires IsLower(b[0], lowerFirst) && IsLower(b[3], lowerFourth)
    requires |m| > |b| && m[|m| - |b| - 1] == ' ' && m[|m| - |b|..] == b
    requires forall i :: 0 <= i < |ws| ==> CannotBegin(ws[i], |b|, b[0], lowerFirst, b[3], lowerFourth)
    ensures FreeOf(u, Join(" ", ws), m)
  {
    var vs := MapEach(u.upper, ws);
    UpperWords(u, ws);
    forall i | 0 <= i < |ws| ensures ' ' !in vs[i] && !(b <= vs[i]) {
      HarmlessUpper(u, ws[i]);
      UpperCannotBegin(u, ws[i], b, lowerFirst, lowerFourth);
    }
    if Contains(Join(" ", vs), m) {
      LastWordOccurs(Join(" ", vs), m, b);
      FollowsBlank(vs, b);
    }
  }

  /** No text of digits occurs in joined harmless words. */
  lemma {:induction false} NoDigitsInside(u: CharTable, ws: seq<string>, t: string)
    requires Lawful(u) && AllHarmless(ws) && t != "" && forall c :: c in t ==> u.digit(c)
    ensures !Contains(Join(" ", ws), t)
  {
    assert Plain(' ') && t[0] in t;
    if Contains(Join(" ", ws), t) {
      OccursInOnePart(' ', ws, t);
      var w :| w in ws && Contains(w, t);
      HoldsLetter(w, t, 0);
      NoDigitIn(u, w, t[0]);
    }
  }

  lemma NoDigitIn(u: CharTable, w: string, c: char)
    requires Lawful(u) && Harmless(w) && c in w
    ensures !u.digit(c)
  {
    var i :| 0 <= i < |w| && w[i] == c;
    assert WordCharacter(w[i]);
  }

  lemma {:induction false} JoinLength(ws: seq<string>, longest: nat)
    requires ws != [] && forall i :: 0 <= i < |ws| ==> 0 < |ws[i]| <= longest
    ensures 0 < |Join(" ", ws)| <= |ws| * (longest + 1)
  {
    if |ws| > 1 {
      JoinLength(ws[1..], longest);
    }
  }

  lemma FixedTextLengths()
    ensures 0 < |INTRODUCTION| <= 300 && 0 < |APOLOGY| <= 300 && 0 < |HEADING|
  {
    JoinLength(INTRODUCTION_WORDS, 11);
    JoinLength(APOLOGY_WORDS, 11);
    JoinLength(HEADING_WORDS, 11);
  }
}
