/** The factual fallback: the reply when nothing composed can be trusted. */
module Fallback {
  import opened Contracts
  import opened Texts
  import opened FixedTexts
  import opened Grounding

  const MAX_FACTS := 8
  const MAX_LENGTH := 4096

  // ---------- The fallback ----------

  function ApiEvidence(items: seq<EvidenceItem>): (r: seq<EvidenceItem>)
    ensures forall item :: item in r <==> item in items && item.source == BuenPickInternalApi
  {
    if items == [] then []
    else if items[0].source == BuenPickInternalApi then [items[0]] + ApiEvidence(items[1..])
    else ApiEvidence(items[1..])
  }

  /** `_safe_fallback_value`. */
  ghost function SafeValue(u: CharTable, value: string): (r: string) {
    if Leaks(u, Compact(u, value)) then OMITTED else Compact(u, value)
  }

  ghost function Fact(u: CharTable, item: EvidenceItem): string {
    "- " + SafeValue(u, item.caption) + ": " + SafeValue(u, item.value)
  }

  ghost function Facts(u: CharTable, items: seq<EvidenceItem>): (r: seq<string>)
    ensures |r| == |items| && forall i :: 0 <= i < |r| ==> r[i] == Fact(u, items[i])
  {
    seq(|items|, i requires 0 <= i < |items| => Fact(u, items[i]))
  }

  function First<T>(n: nat, s: seq<T>): (r: seq<T>)
    ensures r <= s && |r| <= n
  {
    if |s| <= n then s else s[..n]
  }

  ghost function FactLines(u: CharTable, p: ContextPacket): seq<string> {
    [HEADING] + Facts(u, First(MAX_FACTS, ApiEvidence(p.confirmed))) + (if p.unavailable != [] then [PENDING] else [])
  }

  /** `factual_fallback`. */
  ghost function FallbackText(u: CharTable, p: ContextPacket): string {
    if ApiEvidence(p.confirmed) == [] then
      if p.mode == NonCommercialLlm then INTRODUCTION else APOLOGY
    else First(MAX_LENGTH, Join("\n", FactLines(u, p)))
  }

  method CleanValue(u: CharTable, value: string) returns (r: string)
    ensures r == SafeValue(u, value)
  {
    var compact := Compact(u, value);
    var leak := FindMarker(u, compact);
    r := if leak then OMITTED else compact;
  }

  /** The lines of the facts, one item at a time. */
  method AddFacts(u: CharTable, facts: seq<EvidenceItem>) returns (lines: seq<string>)
    ensures lines == [HEADING] + Facts(u, facts)
  {
    lines := [HEADING];
    for i := 0 to |facts|
      invariant lines == [HEADING] + Facts(u, facts[..i])
    {
      var caption := CleanValue(u, facts[i].caption);
      var value := CleanValue(u, facts[i].value);
      lines := lines + ["- " + caption + ": " + value];
      assert Facts(u, facts[..i + 1]) == Facts(u, facts[..i]) + [Fact(u, facts[i])];
    }
    assert facts[..|facts|] == facts;
  }

  method FactualFallback(u: CharTable, p: ContextPacket) returns (r: string)
    ensures r == FallbackText(u, p)
  {
    var api := ApiEvidence(p.confirmed);
    if api == [] {
      return if p.mode == NonCommercialLlm then INTRODUCTION else APOLOGY;
    }
    var lines := AddFacts(u, First(MAX_FACTS, api));
    if p.unavailable != [] {
      lines := lines + [PENDING];
    }
    assert lines == FactLines(u, p);
    r := First(MAX_LENGTH, Join("\n", lines));
  }

  lemma AssembledAt<T>(head: T, middle: seq<T>, tail: seq<T>, i: nat)
    requires i < |[head] + middle + tail|
    ensures ([head] + middle + tail)[i]
         == if i == 0 then head else if i <= |middle| then middle[i - 1] else tail[i - 1 - |middle|]
  {
  }

  /** The lines, one by one. */
  lemma LineIs(u: CharTable, p: ContextPacket, i: nat)
    requires i < |FactLines(u, p)|
    ensures var facts := First(MAX_FACTS, ApiEvidence(p.confirmed));
            FactLines(u, p)[i] == if i == 0 then HEADING else if i <= |facts| then Fact(u, facts[i - 1]) else PENDING
  {
    var facts := Facts(u, First(MAX_FACTS, ApiEvidence(p.confirmed)));
    AssembledAt(HEADING, facts, if p.unavailable != [] then [PENDING] else [], i);
  }

  // ---------- Cleaning is piecewise ----------

  /** What lets a marker be kept out of a text piece by piece. */
  predicate MarkerShaped(m: string) {
    m != "" && m[0] != ' ' && '\n' !in m && '-' !in m && ':' !in m
  }

  lemma MarkersAreShaped(i: nat)
    requires i < |MARKERS|
    ensures MarkerShaped(MARKERS[i])
  {
  }

  lemma CleanPrefix(u: CharTable, s: string, n: nat)
    requires !Leaks(u, s)
    ensures !Leaks(u, First(n, s))
  {
    var r := First(n, s);
    assert s == r + s[|r|..];
    MapConcat(u.upper, r, s[|r|..]);
    forall i | 0 <= i < |MARKERS| ensures !Contains(Map(u.upper, r), MARKERS[i]) {
      if Contains(Map(u.upper, r), MARKERS[i]) {
        ContainsLeft(Map(u.upper, r), Map(u.upper, s[|r|..]), MARKERS[i]);
      }
    }
  }

  /** A marker cannot straddle a newline, a dash or a colon. */
  lemma CleanJoint(u: CharTable, a: string, sep: char, b: string)
    requires Lawful(u) && sep in "\n-:" && !Leaks(u, a) && !Leaks(u, b)
    ensures !Leaks(u, a + [sep] + b)
  {
    MapJoint(u.upper, a, sep, b);
    assert Plain(sep) && u.upper(sep) == [sep];
    forall i | 0 <= i < |MARKERS| ensures !Contains(Map(u.upper, a + [sep] + b), MARKERS[i]) {
      MarkersAreShaped(i);
      if Contains(Map(u.upper, a + [sep] + b), MARKERS[i]) {
        NoStraddle(Map(u.upper, a), sep, Map(u.upper, b), MARKERS[i]);
      }
    }
  }

  lemma CleanIndent(u: CharTable, a: string)
    requires Lawful(u) && !Leaks(u, a)
    ensures !Leaks(u, " " + a)
  {
    MapConcat(u.upper, " ", a);
    assert Plain(' ') && Map(u.upper, " ") == u.upper(' ') + Map(u.upper, "");
    var s, t := Map(u.upper, " " + a), Map(u.upper, a);
    assert s == [' '] + t;
    forall i | 0 <= i < |MARKERS| ensures !Contains(s, MARKERS[i]) {
      MarkersAreShaped(i);
      if Contains(s, MARKERS[i]) {
        NotAtBlank(t, MARKERS[i]);
      }
    }
  }

  lemma NotAtBlank(t: string, m: string)
    requires MarkerShaped(m) && Contains([' '] + t, m)
    ensures Contains(t, m)
  {
    var i :| OccursAt([' '] + t, m, i);
    assert m[0] == ([' '] + t)[i];
    assert t[i - 1..i - 1 + |m|] == ([' '] + t)[i..i + |m|];
    assert OccursAt(t, m, i - 1);
  }

  lemma {:induction false} CleanLines(u: CharTable, lines: seq<string>)
    requires Lawful(u) && forall i :: 0 <= i < |lines| ==> !Leaks(u, lines[i])
    ensures !Leaks(u, Join("\n", lines))
  {
    if lines == [] {
      EmptyIsClean(u);
    } else if |lines| > 1 {
      CleanLines(u, lines[1..]);
      CleanJoint(u, lines[0], '\n', Join("\n", lines[1..]));
    }
  }

  lemma EmptyIsClean(u: CharTable)
    ensures !Leaks(u, "")
  {
    forall i | 0 <= i < |MARKERS| ensures !Contains(Map(u.upper, ""), MARKERS[i]) {
      MarkersAreShaped(i);
    }
  }

  lemma SafeValueIsClean(u: CharTable, value: string)
    requires Lawful(u)
    ensures !Leaks(u, SafeValue(u, value))
  {
    OmittedIsClean(u);
  }

  lemma CleanFactOf(u: CharTable, caption: string, value: string)
    requires Lawful(u) && !Leaks(u, caption) && !Leaks(u, value)
    ensures !Leaks(u, "- " + caption + ": " + value)
  {
    EmptyIsClean(u);
    CleanIndent(u, caption);
    CleanJoint(u, "", '-', " " + caption);
    assert "" + ['-'] + (" " + caption) == "- " + caption;
    CleanIndent(u, value);
    CleanJoint(u, "- " + caption, ':', " " + value);
    assert "- " + caption + [':'] + (" " + value) == "- " + caption + ": " + value;
  }

  lemma CleanFact(u: CharTable, item: EvidenceItem)
    requires Lawful(u)
    ensures !Leaks(u, Fact(u, item))
  {
    SafeValueIsClean(u, item.caption);
    SafeValueIsClean(u, item.value);
    CleanFactOf(u, SafeValue(u, item.caption), SafeValue(u, item.value));
  }

  // ---------- The fixed texts are clean ----------

  lemma NoneOfTheMarkers(u: CharTable, s: string)
    requires FreeOf(u, s, "DATOS CONFIRMADOS") && FreeOf(u, s, "DATOS NO DISPONIBLES") &&
             FreeOf(u, s, "ACCIONES REALIZADAS")
    requires FreeOf(u, s, "REGLAS DE REDACCIÓN") && FreeOf(u, s, "SYSTEM PROMPT") && FreeOf(u, s, "TRACE_ID")
    requires FreeOf(u, s, "BUENPICK_INTERNAL_API") && FreeOf(u, s, "<TOOLS>") && FreeOf(u, s, "TOOL_RESULT")
    ensures !Leaks(u, s)
  {
  }

  lemma {:induction false} NoData(u: CharTable, ws: seq<string>)
    requires Lawful(u) && AllHarmless(ws)
    ensures FreeOf(u, Join(" ", ws), "DATOS CONFIRMADOS") && FreeOf(u, Join(" ", ws), "DATOS NO DISPONIBLES")
  {
    NoWordBegins(u, ws, "DATOS CONFIRMADOS", "CONFIRMADOS", 'c', 'f');
    NoWordBegins(u, ws, "DATOS NO DISPONIBLES", "DISPONIBLES", 'd', 'p');
  }

  lemma {:induction false} NoRuleOrAction(u: CharTable, ws: seq<string>)
    requires Lawful(u) && AllHarmless(ws)
    ensures FreeOf(u, Join(" ", ws), "ACCIONES REALIZADAS") && FreeOf(u, Join(" ", ws), "REGLAS DE REDACCIÓN")
    ensures FreeOf(u, Join(" ", ws), "SYSTEM PROMPT")
  {
    NoWordBegins(u, ws, "ACCIONES REALIZADAS", "REALIZADAS", 'r', 'l');
    NoWordBegins(u, ws, "REGLAS DE REDACCIÓN", "REDACCIÓN", 'r', 'a');
    NoWordBegins(u, ws, "SYSTEM PROMPT", "PROMPT", 'p', 'm');
  }

  lemma {:induction false} NoSingleWord(u: CharTable, ws: seq<string>)
    requires Lawful(u) && AllHarmless(ws)
    ensures FreeOf(u, Join(" ", ws), "TRACE_ID") && FreeOf(u, Join(" ", ws), "BUENPICK_INTERNAL_API")
    ensures FreeOf(u, Join(" ", ws), "<TOOLS>") && FreeOf(u, Join(" ", ws), "TOOL_RESULT")
  {
    NoWordHolds(u, ws, "TRACE_ID", 5);
    NoWordHolds(u, ws, "BUENPICK_INTERNAL_API", 8);
    NoWordHolds(u, ws, "<TOOLS>", 0);
    NoWordHolds(u, ws, "TOOL_RESULT", 4);
  }

  /** Harmless words make no marker, however they are joined by blanks. */
  lemma {:induction false} HarmlessIsClean(u: CharTable, ws: seq<string>)
    requires Lawful(u) && AllHarmless(ws)
    ensures !Leaks(u, Join(" ", ws))
  {
    NoData(u, ws);
    NoRuleOrAction(u, ws);
    NoSingleWord(u, ws);
    NoneOfTheMarkers(u, Join(" ", ws));
  }

  lemma IntroductionIsClean(u: CharTable)
    requires Lawful(u)
    ensures !Leaks(u, INTRODUCTION)
  {
    IntroductionIsHarmless();
    HarmlessIsClean(u, INTRODUCTION_WORDS);
  }

  lemma ApologyIsClean(u: CharTable)
    requires Lawful(u)
    ensures !Leaks(u, APOLOGY)
  {
    ApologyIsHarmless();
    HarmlessIsClean(u, APOLOGY_WORDS);
  }

  lemma HeadingIsClean(u: CharTable)
    requires Lawful(u)
    ensures !Leaks(u, HEADING)
  {
    HeadingIsHarmless();
    HarmlessIsClean(u, HEADING_WORDS);
  }

  lemma PendingIsClean(u: CharTable)
    requires Lawful(u)
    ensures !Leaks(u, PENDING)
  {
    PendingIsHarmless();
    HarmlessIsClean(u, PENDING_WORDS);
  }

  lemma OmittedIsClean(u: CharTable)
    requires Lawful(u)
    ensures !Leaks(u, OMITTED)
  {
    OmittedIsHarmless();
    HarmlessIsClean(u, OMITTED_WORDS);
  }

  // ---------- The fallback is clean ----------

  lemma LineIsClean(u: CharTable, p: ContextPacket, i: nat)
    requires Lawful(u) && i < |FactLines(u, p)|
    ensures !Leaks(u, FactLines(u, p)[i])
  {
    var facts := First(MAX_FACTS, ApiEvidence(p.confirmed));
    LineIs(u, p, i);
    if i == 0 {
      HeadingIsClean(u);
    } else if i <= |facts| {
      CleanFact(u, facts[i - 1]);
    } else {
      PendingIsClean(u);
    }
  }

  lemma CutLinesAreClean(u: CharTable, p: ContextPacket)
    requires Lawful(u)
    ensures !Leaks(u, First(MAX_LENGTH, Join("\n", FactLines(u, p))))
  {
    var lines := FactLines(u, p);
    forall i | 0 <= i < |lines| ensures !Leaks(u, lines[i]) {
      LineIsClean(u, p, i);
    }
    CleanLines(u, lines);
    CleanPrefix(u, Join("\n", lines), MAX_LENGTH);
  }

  /** Whatever the evidence holds, the fallback shows no internal marker. */
  lemma FallbackNeverLeaks(u: CharTable, p: ContextPacket)
    requires Lawful(u)
    ensures !Leaks(u, FallbackText(u, p))
  {
    IntroductionIsClean(u);
    ApologyIsClean(u);
    CutLinesAreClean(u, p);
  }

  // ---------- The numbers of the fallback ----------

  ghost predicate Digits(u: CharTable, t: string) {
    t != "" && forall c :: c in t ==> u.digit(c)
  }

  /** The item's caption or value shows t as it stands. */
  ghost predicate Shows(item: EvidenceItem, t: string) {
    Contains(item.caption, t) || Contains(item.value, t)
  }

  lemma SafeDigits(u: CharTable, value: string, t: string)
    requires Lawful(u) && Digits(u, t) && Contains(SafeValue(u, value), t)
    ensures Contains(value, t)
  {
    OmittedIsHarmless();
    NoDigitsInside(u, OMITTED_WORDS, t);
    CompactAddsNothing(u, value, t);
  }

  lemma DigitsAvoid(u: CharTable, t: string)
    requires Lawful(u) && Digits(u, t)
    ensures '\n' !in t && '-' !in t && ':' !in t && ' ' !in t
  {
    assert Plain('-') && Plain(':') && Plain(' ') && Plain('\n');
  }

  lemma DashHasNoDigits(u: CharTable, t: string)
    requires Lawful(u) && Digits(u, t)
    ensures !Contains("-", t)
  {
    DigitsAvoid(u, t);
    assert t[0] in t;
    forall i ensures !OccursAt("-", t, i) {
      assert 0 <= i <= 1 - |t| ==> "-"[i..i + |t|][0] == '-' != t[0];
    }
  }

  /** What occurs behind a lead and a blank, and has none itself, occurs in one of the two. */
  lemma IndentedDigits(lead: string, text: string, t: string)
    requires ' ' !in t && Contains(lead + (" " + text), t)
    ensures Contains(lead, t) || Contains(text, t)
  {
    assert lead + (" " + text) == lead + [' '] + text;
    NoStraddle(lead, ' ', text, t);
  }

  lemma BlankFirst(text: string)
    ensures " " + text == "" + [' '] + text
  {
  }

  /** What occurs behind a blank, and has none itself, occurs in the text or is empty. */
  lemma BehindBlank(text: string, t: string)
    requires ' ' !in t && Contains(" " + text, t)
    ensures Contains("", t) || Contains(text, t)
  {
    BlankFirst(text);
    NoStraddle("", ' ', text, t);
  }

  lemma FactLayout(caption: string, value: string)
    ensures "- " + caption + ": " + value == ("- " + caption) + [':'] + (" " + value)
    ensures "- " + caption == "-" + (" " + caption)
  {
    assert ": " + value == [':'] + (" " + value);
  }

  lemma FactParts(caption: string, value: string, t: string)
    requires ' ' !in t && ':' !in t && Contains("- " + caption + ": " + value, t)
    ensures Contains("-", t) || Contains(caption, t) || Contains("", t) || Contains(value, t)
  {
    FactLayout(caption, value);
    NoStraddle("- " + caption, ':', " " + value, t);
    if Contains(" " + value, t) {
      BehindBlank(value, t);
    } else {
      IndentedDigits("-", caption, t);
    }
  }

  lemma FactDigits(u: CharTable, item: EvidenceItem, t: string)
    requires Lawful(u) && Digits(u, t) && Contains(Fact(u, item), t)
    ensures Shows(item, t)
  {
    var caption, value := SafeValue(u, item.caption), SafeValue(u, item.value);
    DigitsAvoid(u, t);
    DashHasNoDigits(u, t);
    FactParts(caption, value, t);
    if Contains(value, t) {
      SafeDigits(u, item.value, t);
    } else {
      SafeDigits(u, item.caption, t);
    }
  }

  lemma ScaffoldHasNoDigits(u: CharTable, line: string, t: string)
    requires Lawful(u) && Digits(u, t) && (line == HEADING || line == PENDING)
    ensures !Contains(line, t)
  {
    if line == HEADING {
      HeadingIsHarmless();
      NoDigitsInside(u, HEADING_WORDS, t);
    } else {
      PendingIsHarmless();
      NoDigitsInside(u, PENDING_WORDS, t);
    }
  }

  lemma FactsDigits(u: CharTable, p: ContextPacket, items: seq<EvidenceItem>, k: nat, t: string)
    requires Lawful(u) && Digits(u, t) && k < |items| && Contains(Fact(u, items[k]), t)
    requires forall item :: item in items ==> item in p.confirmed && item.source == BuenPickInternalApi
    ensures exists item :: item in p.confirmed && item.source == BuenPickInternalApi && Shows(item, t)
  {
    FactDigits(u, items[k], t);
    assert items[k] in items;
  }

  lemma LineDigits(u: CharTable, p: ContextPacket, items: seq<EvidenceItem>, i: nat, line: string, t: string)
    requires Lawful(u) && Digits(u, t) && Contains(line, t)
    requires line == if i == 0 then HEADING else if i <= |items| then Fact(u, items[i - 1]) else PENDING
    requires forall item :: item in items ==> item in p.confirmed && item.source == BuenPickInternalApi
    ensures exists item :: item in p.confirmed && item.source == BuenPickInternalApi && Shows(item, t)
  {
    if 1 <= i <= |items| {
      FactsDigits(u, p, items, i - 1, t);
    } else {
      ScaffoldHasNoDigits(u, line, t);
    }
  }

  lemma FixedTextsHaveNoDigits(u: CharTable, text: string, t: string)
    requires Lawful(u) && Digits(u, t) && (text == INTRODUCTION || text == APOLOGY)
    ensures !Contains(text, t)
  {
    if text == INTRODUCTION {
      IntroductionIsHarmless();
      NoDigitsInside(u, INTRODUCTION_WORDS, t);
    } else {
      ApologyIsHarmless();
      NoDigitsInside(u, APOLOGY_WORDS, t);
    }
  }

  lemma SomeLineHas(lines: seq<string>, t: string) returns (i: nat)
    requires t != "" && '\n' !in t && Contains(Join("\n", lines), t)
    ensures i < |lines| && Contains(lines[i], t)
  {
    OccursInOnePart('\n', lines, t);
    var line :| line in lines && Contains(line, t);
    i :| 0 <= i < |lines| && lines[i] == line;
  }

  lemma LinesDigits(u: CharTable, p: ContextPacket, t: string)
    requires Lawful(u) && Digits(u, t) && Contains(Join("\n", FactLines(u, p)), t)
    ensures exists item :: item in p.confirmed && item.source == BuenPickInternalApi && Shows(item, t)
  {
    DigitsAvoid(u, t);
    var i := SomeLineHas(FactLines(u, p), t);
    LineIs(u, p, i);
    LineDigits(u, p, First(MAX_FACTS, ApiEvidence(p.confirmed)), i, FactLines(u, p)[i], t);
  }

  /** The digits of a fallback are digits of one confirmed item of the internal API: the fallback makes no number up. */
  lemma FallbackDigitsAreEvidence(u: CharTable, p: ContextPacket, t: string)
    requires Lawful(u) && Digits(u, t) && Contains(FallbackText(u, p), t)
    ensures exists item :: item in p.confirmed && item.source == BuenPickInternalApi && Shows(item, t)
  {
    var shown := FallbackText(u, p);
    if ApiEvidence(p.confirmed) == [] {
      FixedTextsHaveNoDigits(u, shown, t);
    } else {
      var all := Join("\n", FactLines(u, p));
      assert all == shown + all[|shown|..];
      ContainsLeft(shown, all[|shown|..], t);
      LinesDigits(u, p, t);
    }
  }

  /** The fallback is always a sendable text. */
  lemma FallbackLength(u: CharTable, p: ContextPacket)
    ensures 1 <= |FallbackText(u, p)| <= MAX_LENGTH
  {
    FixedTextLengths();
    if ApiEvidence(p.confirmed) != [] {
      assert HEADING <= Join("\n", FactLines(u, p));
    }
  }

  // ---------- What the fallback shows ----------

  lemma {:induction false} JoinHolds(lines: seq<string>, i: nat)
    requires i < |lines|
    ensures Contains(Join("\n", lines), lines[i])
  {
    if |lines| == 1 {
      assert OccursAt(lines[0], lines[0], 0);
    } else {
      var rest := Join("\n", lines[1..]);
      if i == 0 {
        assert OccursAt(lines[0] + ("\n" + rest), lines[0], 0);
        assert lines[0] + ("\n" + rest) == Join("\n", lines);
      } else {
        JoinHolds(lines[1..], i - 1);
        ContainsRight(lines[0] + "\n", rest, lines[i]);
      }
    }
  }

  lemma UncutShowsLine(u: CharTable, p: ContextPacket, i: nat, line: string)
    requires ApiEvidence(p.confirmed) != [] && i < |FactLines(u, p)| && |FallbackText(u, p)| < MAX_LENGTH
    requires line == FactLines(u, p)[i]
    ensures Contains(FallbackText(u, p), line)
  {
    JoinHolds(FactLines(u, p), i);
  }

  lemma FactLineAt(u: CharTable, p: ContextPacket, i: nat)
    requires i < |ApiEvidence(p.confirmed)| && i < MAX_FACTS
    ensures i + 1 < |FactLines(u, p)| && FactLines(u, p)[i + 1] == Fact(u, ApiEvidence(p.confirmed)[i])
  {
    LineIs(u, p, i + 1);
  }

  /** The line of an item: both parts collapsed, and just the parts that hold a marker replaced. */
  lemma FactShows(u: CharTable, item: EvidenceItem)
    ensures var caption, value := Compact(u, item.caption), Compact(u, item.value);
            && (!Leaks(u, caption) && !Leaks(u, value) ==> Fact(u, item) == "- " + caption + ": " + value)
            && (Leaks(u, caption) && !Leaks(u, value) ==> Fact(u, item) == "- " + OMITTED + ": " + value)
            && (!Leaks(u, caption) && Leaks(u, value) ==> Fact(u, item) == "- " + caption + ": " + OMITTED)
            && (Leaks(u, caption) && Leaks(u, value) ==> Fact(u, item) == "- " + OMITTED + ": " + OMITTED)
  {
  }

  /**
   Unless it is cut, the fallback shows each of the first eight items of the internal API with its caption and its
   value, white space collapsed; a part that holds an internal marker is replaced, and no other.
   */
  lemma FallbackShowsEvidence(u: CharTable, p: ContextPacket, i: nat)
    requires i < |ApiEvidence(p.confirmed)| && i < 8 && |FallbackText(u, p)| < 4096
    ensures var item := ApiEvidence(p.confirmed)[i];
            var caption := if Leaks(u, Compact(u, item.caption)) then OMITTED else Compact(u, item.caption);
            var value := if Leaks(u, Compact(u, item.value)) then OMITTED else Compact(u, item.value);
            Contains(FallbackText(u, p), "- " + caption + ": " + value)
  {
    FactShows(u, ApiEvidence(p.confirmed)[i]);
    FactLineAt(u, p, i);
    UncutShowsLine(u, p, i + 1, Fact(u, ApiEvidence(p.confirmed)[i]));
  }

  /**
   With evidence of the internal API, the fallback is the heading, one line for each of the first eight items, and the
   line for missing data if there is some, cut at 4096 characters.
   */
  lemma FallbackIsItsLines(u: CharTable, p: ContextPacket) returns (lines: seq<string>)
    requires ApiEvidence(p.confirmed) != []
    ensures var n := if |ApiEvidence(p.confirmed)| < 8 then |ApiEvidence(p.confirmed)| else 8;
            && |lines| == 1 + n + (if p.unavailable == [] then 0 else 1) && lines[0] == HEADING
            && (p.unavailable != [] ==> lines[n + 1] == PENDING)
            && forall i :: 0 <= i < n ==> lines[i + 1] == Fact(u, ApiEvidence(p.confirmed)[i])
    ensures FallbackText(u, p) == (if |Join("\n", lines)| <= 4096 then Join("\n", lines) else Join("\n", lines)[..4096])
  {
    lines := FactLines(u, p);
    var n := |First(MAX_FACTS, ApiEvidence(p.confirmed))|;
    LineIs(u, p, 0);
    if p.unavailable != [] {
      LineIs(u, p, n + 1);
    }
    forall i | 0 <= i < n ensures lines[i + 1] == Fact(u, ApiEvidence(p.confirmed)[i]) {
      FactLineAt(u, p, i);
    }
  }

  /** Without evidence of the internal API, the fallback introduces Piki in small talk, and apologizes otherwise. */
  lemma FallbackWithoutEvidence(u: CharTable, p: ContextPacket)
    requires forall item :: item in p.confirmed ==> item.source != BuenPickInternalApi
    ensures FallbackText(u, p) == INTRODUCTION <==> p.mode == NonCommercialLlm
    ensures FallbackText(u, p) == APOLOGY <==> p.mode != NonCommercialLlm
  {
    if ApiEvidence(p.confirmed) != [] {
      assert ApiEvidence(p.confirmed)[0] in ApiEvidence(p.confirmed);
    }
    assert INTRODUCTION[0] == 'S' && APOLOGY[0] == 'N';
  }

  /** The evidence of the internal API keeps its order, and none of it is lost or repeated. */
  lemma {:induction false} ApiEvidenceInOrder(a: seq<EvidenceItem>, item: EvidenceItem, b: seq<EvidenceItem>)
    ensures ApiEvidence(a + [item] + b)
         == ApiEvidence(a) + (if item.source == BuenPickInternalApi then [item] else []) + ApiEvidence(b)
  {
    if a == [] {
      assert (a + [item] + b)[1..] == b;
    } else {
      assert (a + [item] + b)[1..] == a[1..] + [item] + b;
      ApiEvidenceInOrder(a[1..], item, b);
    }
  }

  /** Unless it is cut, the fallback says when data is missing. */
  lemma FallbackSaysPending(u: CharTable, p: ContextPacket)
    requires ApiEvidence(p.confirmed) != [] && p.unavailable != [] && |FallbackText(u, p)| < 4096
    ensures Contains(FallbackText(u, p), PENDING)
  {
    LineIs(u, p, |FactLines(u, p)| - 1);
    UncutShowsLine(u, p, |FactLines(u, p)| - 1, PENDING);
  }

  lemma {:induction false} ApiEvidenceIsStable(items: seq<EvidenceItem>)
    ensures ApiEvidence(ApiEvidence(items)) == ApiEvidence(items)
  {
    if items != [] {
      ApiEvidenceIsStable(items[1..]);
      assert items[0].source == BuenPickInternalApi ==> ApiEvidence(items)[1..] == ApiEvidence(items[1..]);
    }
  }

  /** Evidence from anywhere but the internal API makes no difference to the fallback. */
  lemma OtherEvidenceDoesNotShow(u: CharTable, p: ContextPacket)
    ensures FallbackText(u, p.(confirmed := ApiEvidence(p.confirmed))) == FallbackText(u, p)
  {
    ApiEvidenceIsStable(p.confirmed);
  }
}
