/** The grounding validator: what a reply must not contain, checked against the confirmed evidence. */
module Grounding {
  import opened Options
  import opened Contracts
  import opened Texts
  import opened Numbers

  datatype GroundingFailure =
    | Empty | InternalLeak | UnsupportedHighRiskFact
    | UnavailableContentClaim | InternalReference | EvidenceFreeCommercialClaim

  /** A safe reply, or the reasons it is blocked. */
  datatype GroundingResult = Safe(text: string) | Blocked(failures: set<GroundingFailure>)

  const MARKERS: seq<string> := [
    "DATOS CONFIRMADOS", "DATOS NO DISPONIBLES", "ACCIONES REALIZADAS", "REGLAS DE REDACCIÓN", "SYSTEM PROMPT",
    "TRACE_ID", "BUENPICK_INTERNAL_API", "<TOOLS>", "TOOL_RESULT"]

  /** What the other expressions find in a reply: matches per high-risk pattern, and the two kinds of claims. */
  datatype Patterns = Patterns(highRisk: string -> seq<seq<string>>, availability: string -> bool,
      content: string -> bool)

  /** The text's upper case contains an internal marker. */
  ghost predicate Leaks(u: CharTable, s: string) {
    exists i :: 0 <= i < |MARKERS| && Contains(Map(u.upper, s), MARKERS[i])
  }

  // ---------- The checks ----------

  /** What is looked up in the evidence for a match. */
  function Token(u: CharTable, found: string): string {
    Normalized(u, StripRight(Punctuation, found))
  }

  function Values(items: seq<EvidenceItem>): (r: seq<string>)
    ensures |r| == |items| && forall i :: 0 <= i < |r| ==> r[i] == items[i].value
  {
    seq(|items|, i requires 0 <= i < |items| => items[i].value)
  }

  function Corpus(u: CharTable, p: ContextPacket): string {
    Normalized(u, Join("\n", Values(p.confirmed)))
  }

  ghost predicate Unsupported(u: CharTable, p: ContextPacket, found: string) {
    Token(u, found) != "" && !Contains(Corpus(u, p), Token(u, found))
  }

  /** The matches of every high-risk pattern; the numbers come last. */
  function Matches(u: CharTable, candidate: string, patterns: Patterns): seq<seq<string>>
    requires Lawful(u)
  {
    patterns.highRisk(candidate) + [NumberTexts(u, candidate)]
  }

  function NumberTexts(u: CharTable, s: string): (r: seq<string>)
    requires Lawful(u)
    ensures |r| == |FindAll(u, s, 0)|
    ensures forall i :: 0 <= i < |r| ==> r[i] == s[FindAll(u, s, 0)[i].0..FindAll(u, s, 0)[i].1]
  {
    var ms := FindAll(u, s, 0);
    assert forall i :: 0 <= i < |ms| ==> ms[i] in ms;
    seq(|ms|, i requires 0 <= i < |ms| => s[ms[i].0..ms[i].1])
  }

  ghost predicate AnyUnsupported(u: CharTable, p: ContextPacket, found: seq<string>) {
    exists i :: 0 <= i < |found| && Unsupported(u, p, found[i])
  }

  ghost predicate AnyPatternUnsupported(u: CharTable, p: ContextPacket, found: seq<seq<string>>) {
    exists i :: 0 <= i < |found| && AnyUnsupported(u, p, found[i])
  }

  ghost predicate RevealsReference(u: CharTable, candidate: string, p: ContextPacket, item: EvidenceItem) {
    && item.reference.Some? && item.reference.value != ""
    && Contains(Normalized(u, candidate), Normalized(u, item.reference.value))
    && !Contains(Corpus(u, p), Normalized(u, item.reference.value))
  }

  ghost predicate RevealsAnyReference(u: CharTable, candidate: string, p: ContextPacket) {
    exists i :: 0 <= i < |p.confirmed| && RevealsReference(u, candidate, p, p.confirmed[i])
  }

  predicate HasApiEvidence(p: ContextPacket) {
    exists item :: item in p.confirmed && item.source == BuenPickInternalApi
  }

  ghost predicate ContentUnavailable(u: CharTable, p: ContextPacket) {
    Contains(Normalized(u, Join("\n", p.unavailable)), "contenido")
  }

  /** When each check fails. */
  ghost predicate Fails(u: CharTable, candidate: string, p: ContextPacket, patterns: Patterns, f: GroundingFailure)
    requires Lawful(u)
  {
    match f
    case Empty => candidate == ""
    case InternalLeak => Leaks(u, candidate)
    case EvidenceFreeCommercialClaim => !HasApiEvidence(p) && patterns.availability(candidate)
    case UnsupportedHighRiskFact => AnyPatternUnsupported(u, p, Matches(u, candidate, patterns))
    case UnavailableContentClaim => ContentUnavailable(u, p) && patterns.content(candidate)
    case InternalReference => RevealsAnyReference(u, candidate, p)
  }

  /** The result for a trimmed reply and the checks that failed on it. */
  ghost predicate Judges(u: CharTable, candidate: string, p: ContextPacket, patterns: Patterns, r: GroundingResult)
    requires Lawful(u)
  {
    match r
    case Safe(text) => text == candidate && forall f :: !Fails(u, candidate, p, patterns, f)
    case Blocked(failures) => failures != {} && forall f :: f in failures <==> Fails(u, candidate, p, patterns, f)
  }

  /** `validate`: safe exactly when no check fails, and blocked with all that do. */
  ghost function Verdict(u: CharTable, text: string, p: ContextPacket, patterns: Patterns): (r: GroundingResult)
    requires Lawful(u)
    ensures Judges(u, Strip(u, text), p, patterns, r)
  {
    var failures := set f: GroundingFailure | Fails(u, Strip(u, text), p, patterns, f);
    if failures == {} then
      assert forall f :: Fails(u, Strip(u, text), p, patterns, f) ==> f in failures;
      Safe(Strip(u, text))
    else Blocked(failures)
  }

  /** The checks leave only one result. */
  lemma VerdictIsUnique(u: CharTable, text: string, p: ContextPacket, patterns: Patterns, r: GroundingResult)
    requires Lawful(u) && Judges(u, Strip(u, text), p, patterns, r)
    ensures r == Verdict(u, text, p, patterns)
  {
    var failures := set f: GroundingFailure | Fails(u, Strip(u, text), p, patterns, f);
    match r {
      case Safe(_) => assert failures == {};
      case Blocked(found) => assert found == failures;
    }
  }

  /** The failures for the outcomes of the six checks. */
  function Collected(blank: bool, leak: bool, claim: bool, fact: bool, content: bool, reference: bool)
    : (r: set<GroundingFailure>)
    ensures Empty in r <==> blank
    ensures InternalLeak in r <==> leak
    ensures EvidenceFreeCommercialClaim in r <==> claim
    ensures UnsupportedHighRiskFact in r <==> fact
    ensures UnavailableContentClaim in r <==> content
    ensures InternalReference in r <==> reference
  {
    Noted(Noted(Noted(Noted(Noted(Noted({}, blank, Empty), leak, InternalLeak), claim, EvidenceFreeCommercialClaim),
      fact, UnsupportedHighRiskFact), content, UnavailableContentClaim), reference, InternalReference)
  }

  /** `failures.add`, when the check failed. */
  function Noted(failures: set<GroundingFailure>, failed: bool, f: GroundingFailure): (r: set<GroundingFailure>)
    ensures forall g :: g in r <==> g in failures || (failed && g == f)
  {
    if failed then failures + {f} else failures
  }

  /** The collected failures settle the result. */
  lemma FailuresDecide(u: CharTable, candidate: string, p: ContextPacket, patterns: Patterns,
                       blank: bool, leak: bool, claim: bool, fact: bool, content: bool, reference: bool)
    requires Lawful(u)
    requires blank <==> candidate == ""
    requires leak <==> Leaks(u, candidate)
    requires claim <==> !HasApiEvidence(p) && patterns.availability(candidate)
    requires fact <==> AnyPatternUnsupported(u, p, Matches(u, candidate, patterns))
    requires content <==> ContentUnavailable(u, p) && patterns.content(candidate)
    requires reference <==> RevealsAnyReference(u, candidate, p)
    ensures var failures := Collected(blank, leak, claim, fact, content, reference);
            Judges(u, candidate, p, patterns, if failures != {} then Blocked(failures) else Safe(candidate))
  {
    var failures := Collected(blank, leak, claim, fact, content, reference);
    forall f ensures f in failures <==> Fails(u, candidate, p, patterns, f) {
      match f {
        case Empty =>
        case InternalLeak =>
        case EvidenceFreeCommercialClaim =>
        case UnsupportedHighRiskFact =>
        case UnavailableContentClaim =>
        case InternalReference =>
      }
    }
  }

  // ---------- What a result means ----------

  ghost predicate Reports(r: GroundingResult, f: GroundingFailure) {
    r.Blocked? && f in r.failures
  }

  /**
   What was found, cut at its trailing punctuation, is in the confirmed values, up to case and white space; or nothing
   is left of it.
   */
  ghost predicate Grounded(u: CharTable, p: ContextPacket, found: string) {
    var cut := Normalized(u, StripRight(Punctuation, found));
    cut == "" || Contains(Normalized(u, Join("\n", Values(p.confirmed))), cut)
  }

  /** No high-risk match of the text, and no number in it, is without evidence. */
  ghost predicate AllGrounded(u: CharTable, p: ContextPacket, patterns: Patterns, s: string)
    requires Lawful(u)
  {
    && (forall i, j :: 0 <= i < |patterns.highRisk(s)| && 0 <= j < |patterns.highRisk(s)[i]| ==>
          Grounded(u, p, patterns.highRisk(s)[i][j]))
    && (forall m :: m in FindAll(u, s, 0) ==> Grounded(u, p, s[m.0..m.1]))
  }

  lemma UnsupportedIsNotGrounded(u: CharTable, p: ContextPacket, found: string)
    ensures Unsupported(u, p, found) <==> !Grounded(u, p, found)
  {
  }

  lemma {:induction false} NumbersGrounded(u: CharTable, p: ContextPacket, s: string)
    requires Lawful(u)
    ensures AnyUnsupported(u, p, NumberTexts(u, s)) <==>
              exists m :: m in FindAll(u, s, 0) && !Grounded(u, p, s[m.0..m.1])
  {
    var ms, texts := FindAll(u, s, 0), NumberTexts(u, s);
    if i :| 0 <= i < |texts| && Unsupported(u, p, texts[i]) {
      UnsupportedIsNotGrounded(u, p, texts[i]);
      assert ms[i] in ms;
    }
    if m :| m in ms && !Grounded(u, p, s[m.0..m.1]) {
      var i :| 0 <= i < |ms| && ms[i] == m;
      UnsupportedIsNotGrounded(u, p, texts[i]);
    }
  }

  lemma PatternsGrounded(u: CharTable, p: ContextPacket, found: seq<seq<string>>)
    ensures AnyPatternUnsupported(u, p, found) <==>
              exists i, j :: 0 <= i < |found| && 0 <= j < |found[i]| && !Grounded(u, p, found[i][j])
  {
    if i :| 0 <= i < |found| && AnyUnsupported(u, p, found[i]) {
      var j :| 0 <= j < |found[i]| && Unsupported(u, p, found[i][j]);
      UnsupportedIsNotGrounded(u, p, found[i][j]);
    }
    if i, j :| 0 <= i < |found| && 0 <= j < |found[i]| && !Grounded(u, p, found[i][j]) {
      UnsupportedIsNotGrounded(u, p, found[i][j]);
      assert AnyUnsupported(u, p, found[i]);
    }
  }

  lemma LastPattern(u: CharTable, p: ContextPacket, found: seq<seq<string>>, last: seq<string>)
    ensures AnyPatternUnsupported(u, p, found + [last]) <==>
              AnyPatternUnsupported(u, p, found) || AnyUnsupported(u, p, last)
  {
    var all := found + [last];
    assert all[|found|] == last;
    if i :| 0 <= i < |found| && AnyUnsupported(u, p, found[i]) {
      assert all[i] == found[i];
    }
  }

  /** What is reported is what fails. */
  lemma ReportsFailures(u: CharTable, text: string, p: ContextPacket, patterns: Patterns, f: GroundingFailure)
    requires Lawful(u)
    ensures Reports(Verdict(u, text, p, patterns), f) <==> Fails(u, Strip(u, text), p, patterns, f)
  {
    assert Judges(u, Strip(u, text), p, patterns, Verdict(u, text, p, patterns));
  }

  lemma AnyUngrounded(u: CharTable, p: ContextPacket, patterns: Patterns, s: string)
    requires Lawful(u)
    ensures AnyPatternUnsupported(u, p, Matches(u, s, patterns)) <==> !AllGrounded(u, p, patterns, s)
  {
    LastPattern(u, p, patterns.highRisk(s), NumberTexts(u, s));
    PatternsGrounded(u, p, patterns.highRisk(s));
    NumbersGrounded(u, p, s);
  }

  /** A high-risk fact is reported exactly if some high-risk match, or some number, of the text is without evidence. */
  lemma UnsupportedExactly(u: CharTable, text: string, p: ContextPacket, patterns: Patterns)
    requires Lawful(u)
    ensures Reports(Verdict(u, text, p, patterns), UnsupportedHighRiskFact) <==>
            !AllGrounded(u, p, patterns, Strip(u, text))
  {
    ReportsFailures(u, text, p, patterns, UnsupportedHighRiskFact);
    AnyUngrounded(u, p, patterns, Strip(u, text));
  }

  /** Exactly a blank text is reported as empty, and exactly one with an internal marker as a leak. */
  lemma BlockedExactly(u: CharTable, text: string, p: ContextPacket, patterns: Patterns)
    requires Lawful(u)
    ensures var s, r := Strip(u, text), Verdict(u, text, p, patterns);
            && (Reports(r, Empty) <==> forall c :: c in text ==> u.space(c))
            && (Reports(r, InternalLeak) <==>
                  exists i :: 0 <= i < |MARKERS| && Contains(Map(u.upper, s), MARKERS[i]))
  {
    OnlyBlanksVanish(u, text);
    ReportsFailures(u, text, p, patterns, Empty);
    ReportsFailures(u, text, p, patterns, InternalLeak);
  }

  /** Exactly a text that shows a reference which is in no confirmed value is reported as revealing one. */
  lemma ReferencesExactly(u: CharTable, text: string, p: ContextPacket, patterns: Patterns)
    requires Lawful(u)
    ensures Reports(Verdict(u, text, p, patterns), InternalReference) <==>
              exists i :: 0 <= i < |p.confirmed| && Shown(u, p, Strip(u, text), p.confirmed[i].reference)
  {
    ReportsFailures(u, text, p, patterns, InternalReference);
    ReferencesShown(u, Strip(u, text), p);
  }

  /** When claims are reported: of availability without API evidence, of content that is listed as unavailable. */
  lemma ClaimsExactly(u: CharTable, text: string, p: ContextPacket, patterns: Patterns)
    requires Lawful(u)
    ensures var s, r := Strip(u, text), Verdict(u, text, p, patterns);
            && (Reports(r, EvidenceFreeCommercialClaim) <==>
                  patterns.availability(s) && forall x :: x in p.confirmed ==> x.source != BuenPickInternalApi)
            && (Reports(r, UnavailableContentClaim) <==>
                  patterns.content(s) && Contains(Normalized(u, Join("\n", p.unavailable)), "contenido"))
  {
    ReportsFailures(u, text, p, patterns, EvidenceFreeCommercialClaim);
    ReportsFailures(u, text, p, patterns, UnavailableContentClaim);
  }

  /** The reference is in the text and in no confirmed value, up to case and white space. */
  ghost predicate Shown(u: CharTable, p: ContextPacket, s: string, reference: Option<string>) {
    && reference.Some? && reference.value != "" && Contains(Normalized(u, s), Normalized(u, reference.value))
    && !Contains(Normalized(u, Join("\n", Values(p.confirmed))), Normalized(u, reference.value))
  }

  lemma ReferencesShown(u: CharTable, s: string, p: ContextPacket)
    ensures RevealsAnyReference(u, s, p) <==>
              exists i :: 0 <= i < |p.confirmed| && Shown(u, p, s, p.confirmed[i].reference)
  {
    assert forall i :: 0 <= i < |p.confirmed| ==>
        (RevealsReference(u, s, p, p.confirmed[i]) <==> Shown(u, p, s, p.confirmed[i].reference));
  }

  // ---------- The validator itself ----------

  /** Substring test. */
  method Find(s: string, p: string) returns (found: bool)
    ensures found <==> Contains(s, p)
  {
    found := false;
    for i := 0 to |s| + 1
      invariant !found && forall j :: OccursAt(s, p, j) ==> i <= j
    {
      if OccursAt(s, p, i) {
        return true;
      }
    }
  }

  /** The internal markers are looked for in the upper-cased text. */
  method FindMarker(u: CharTable, candidate: string) returns (found: bool)
    ensures found <==> Leaks(u, candidate)
  {
    var upper := Map(u.upper, candidate);
    found := false;
    for i := 0 to |MARKERS|
      invariant !found && forall j :: 0 <= j < i ==> !Contains(upper, MARKERS[j])
    {
      found := Find(upper, MARKERS[i]);
      if found {
        return;
      }
    }
  }

  class GroundingValidator {
    const u: CharTable
    const patterns: Patterns

    constructor (u: CharTable, patterns: Patterns)
      ensures this.u == u && this.patterns == patterns
    {
      this.u, this.patterns := u, patterns;
    }

    /** Collects every failed check of the trimmed reply. */
    method Validate(text: string, p: ContextPacket) returns (r: GroundingResult)
      requires Lawful(u)
      ensures Judges(u, Strip(u, text), p, patterns, r) && r == Verdict(u, text, p, patterns)
      ensures Reports(r, UnsupportedHighRiskFact) <==> !AllGrounded(u, p, patterns, Strip(u, text))
      ensures r.Safe? ==> r.text == Strip(u, text) && AllGrounded(u, p, patterns, r.text)
    {
      var candidate := Strip(u, text);
      var leak := FindMarker(u, candidate);
      var fact := FindUnsupported(candidate, p);
      var content := FindUnavailableContent(p);
      var reference := FindReference(candidate, p);
      var claim := !HasApiEvidence(p) && patterns.availability(candidate);
      var failures := Collected(candidate == "", leak, claim, fact, content && patterns.content(candidate), reference);
      r := if failures != {} then Blocked(failures) else Safe(candidate);
      FailuresDecide(u, candidate, p, patterns, candidate == "", leak, claim, fact,
                     content && patterns.content(candidate), reference);
      VerdictIsUnique(u, text, p, patterns, r);
      UnsupportedExactly(u, text, p, patterns);
    }

    method FindUnavailableContent(p: ContextPacket) returns (found: bool)
      ensures found <==> ContentUnavailable(u, p)
    {
      found := Find(Normalized(u, Join("\n", p.unavailable)), "contenido");
    }

    /** Looks every match of every high-risk pattern up in the evidence. */
    method FindUnsupported(candidate: string, p: ContextPacket) returns (found: bool)
      requires Lawful(u)
      ensures found <==> AnyPatternUnsupported(u, p, Matches(u, candidate, patterns))
    {
      var matches := Matches(u, candidate, patterns);
      found := false;
      for i := 0 to |matches|
        invariant found <==> exists j :: 0 <= j < i && AnyUnsupported(u, p, matches[j])
      {
        var here := FindUnsupportedIn(matches[i], p);
        found := found || here;
      }
    }

    method FindUnsupportedIn(matches: seq<string>, p: ContextPacket) returns (found: bool)
      ensures found <==> AnyUnsupported(u, p, matches)
    {
      var corpus := Corpus(u, p);
      found := false;
      for i := 0 to |matches|
        invariant found <==> exists j :: 0 <= j < i && Unsupported(u, p, matches[j])
      {
        var token := Token(u, matches[i]);
        var known := Find(corpus, token);
        found := found || (token != "" && !known);
      }
    }

    method FindReference(candidate: string, p: ContextPacket) returns (found: bool)
      ensures found <==> RevealsAnyReference(u, candidate, p)
    {
      var corpus := Corpus(u, p);
      found := false;
      for i := 0 to |p.confirmed|
        invariant found <==> exists j :: 0 <= j < i && RevealsReference(u, candidate, p, p.confirmed[j])
      {
        var here := Reveals(candidate, p, p.confirmed[i], corpus);
        found := found || here;
      }
    }

    method Reveals(candidate: string, p: ContextPacket, item: EvidenceItem, corpus: string) returns (found: bool)
      requires corpus == Corpus(u, p)
      ensures found <==> RevealsReference(u, candidate, p, item)
    {
      if item.reference.None? || item.reference.value == "" {
        return false;
      }
      var reference := Normalized(u, item.reference.value);
      var shown := Find(Normalized(u, candidate), reference);
      var known := Find(corpus, reference);
      found := shown && !known;
    }
  }

  // ---------- What an accepted reply says ----------

  /** Every high-risk match of an accepted reply is grounded, and so is every number. */
  lemma AcceptedIsGrounded(u: CharTable, text: string, p: ContextPacket, patterns: Patterns)
    requires Lawful(u) && Verdict(u, text, p, patterns).Safe?
    ensures AllGrounded(u, p, patterns, Strip(u, text))
  {
    UnsupportedExactly(u, text, p, patterns);
  }

  /** A match of an accepted reply that is one word stands in a single confirmed value, up to case. */
  lemma AcceptedMatchIsEvidence(u: CharTable, text: string, p: ContextPacket, patterns: Patterns, i: nat, j: nat)
    returns (k: nat)
    requires Lawful(u) && Verdict(u, text, p, patterns).Safe?
    requires i < |patterns.highRisk(Strip(u, text))| && j < |patterns.highRisk(Strip(u, text))[i]|
    requires var cut := Normalized(u, StripRight(Punctuation, patterns.highRisk(Strip(u, text))[i][j]));
             cut != "" && forall c :: c in cut ==> !u.space(c)
    ensures k < |p.confirmed|
    ensures var cut := Normalized(u, StripRight(Punctuation, patterns.highRisk(Strip(u, text))[i][j]));
            Contains(Map(u.fold, p.confirmed[k].value), cut)
  {
    AcceptedIsGrounded(u, text, p, patterns);
    assert Grounded(u, p, patterns.highRisk(Strip(u, text))[i][j]);
    k := WordComesFromOneLine(u, Values(p.confirmed),
        Normalized(u, StripRight(Punctuation, patterns.highRisk(Strip(u, text))[i][j])));
  }

  lemma {:induction false} NumericFoldsToItself(u: CharTable, s: string)
    requires Lawful(u) && AllNumeric(u, s)
    ensures Map(u.fold, s) == s
  {
    if s != "" {
      assert s[0] in s && forall c :: c in s[1..] ==> c in s;
      NumericFoldsToItself(u, s[1..]);
      assert Numeric(u, s[0]) && u.fold(s[0]) == [s[0]];
      assert s == [s[0]] + s[1..];
    }
  }

  /** Numbers are looked up as they stand: trimming, folding and splitting leave them alone. */
  lemma NumberTokenIsItself(u: CharTable, s: string, i: nat, j: nat)
    requires Lawful(u) && IsNumber(u, s, i, j)
    ensures Token(u, s[i..j]) == s[i..j]
  {
    var t := s[i..j];
    ShapeEndsInDigit(u, s, i, j);
    ShapeIsNumeric(u, s, i, j);
    assert t[|t| - 1] == s[j - 1];
    assert StripRight(Punctuation, t) == t;
    NumericFoldsToItself(u, t);
    NumbersHaveNoSpace(u, t);
    OneWord(u, t);
  }

  lemma {:induction false} SafeNumbersAreSupported(u: CharTable, s: string, p: ContextPacket, patterns: Patterns,
                                                   m: (nat, nat))
    requires Lawful(u) && m in FindAll(u, s, 0)
    requires !Fails(u, s, p, patterns, UnsupportedHighRiskFact)
    ensures !Unsupported(u, p, s[m.0..m.1])
  {
    var all := Matches(u, s, patterns);
    var n := |all| - 1;
    assert all[n] == NumberTexts(u, s) && !AnyUnsupported(u, p, all[n]);
    var i :| 0 <= i < |FindAll(u, s, 0)| && FindAll(u, s, 0)[i] == m;
    assert NumberTexts(u, s)[i] == s[m.0..m.1];
  }

  /** A number of an accepted reply is in one confirmed value as it stands. */
  lemma AcceptedNumberIsEvidence(u: CharTable, text: string, p: ContextPacket, patterns: Patterns, m: (nat, nat))
    returns (k: nat)
    requires Lawful(u) && Verdict(u, text, p, patterns).Safe?
    requires m in FindAll(u, Strip(u, text), 0)
    ensures k < |p.confirmed| && Contains(p.confirmed[k].value, Strip(u, text)[m.0..m.1])
  {
    var s := Strip(u, text);
    NumberTokenIsItself(u, s, m.0, m.1);
    ShapeIsNumeric(u, s, m.0, m.1);
    SafeNumbersAreSupported(u, s, p, patterns, m);
    k := NumberComesFromOneLine(u, Values(p.confirmed), s[m.0..m.1]);
  }

  lemma SliceWithin(v: string, s: string, from: nat, to: nat, i: nat, j: nat)
    requires from <= i <= j <= to <= |s| && Contains(v, s[from..to])
    ensures Contains(v, s[i..j])
  {
    forall k | 0 <= k < j - i ensures s[from..to][i - from..j - from][k] == s[i..j][k] {
    }
    assert OccursAt(s[from..to], s[i..j], i - from);
    ContainsTransitive(v, s[from..to], s[i..j]);
  }

  /**
   Every standalone run of digits in an accepted reply occurs inside a single confirmed value: no number is
   put together from two of them.
   */
  lemma AcceptedDigitsAreEvidence(u: CharTable, text: string, p: ContextPacket, patterns: Patterns, i: nat, j: nat)
    requires Lawful(u) && Verdict(u, text, p, patterns).Safe?
    requires Standalone(u, Strip(u, text), i, j)
    ensures exists k :: 0 <= k < |p.confirmed| && Contains(p.confirmed[k].value, Strip(u, text)[i..j])
  {
    var s := Strip(u, text);
    EveryRunIsFound(u, s, 0, i, j);
    var m :| m in FindAll(u, s, 0) && m.0 <= i && j <= m.1;
    var k := AcceptedNumberIsEvidence(u, text, p, patterns, m);
    SliceWithin(p.confirmed[k].value, s, m.0, m.1, i, j);
  }
}
