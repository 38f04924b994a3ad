/** The response engine: every reply is a validated text or the factual fallback. */
module Engine {
  import opened Options
  import opened Contracts
  import opened Texts
  import opened Numbers
  import opened Grounding
  import opened Fallback

  /** What asking the composer comes to: a text, an adapter error, or any other exception. */
  datatype Composition = Composed(text: string) | AdapterFailed | Raised

  datatype ResponseOutcome =
    | Outcome(text: string, usedFallback: bool, failures: set<GroundingFailure>)
    | MissingText
    | InvalidOutcome
    | Propagated

  /** The length rule of the outcome. */
  function Valid(text: string, usedFallback: bool, failures: set<GroundingFailure>): (r: ResponseOutcome)
    ensures r.Outcome? ==> 1 <= |r.text| <= MAX_LENGTH
  {
    if 1 <= |text| <= MAX_LENGTH then Outcome(text, usedFallback, failures) else InvalidOutcome
  }

  /** A candidate text is used if it passes validation. */
  ghost function Judged(u: CharTable, patterns: Patterns, p: ContextPacket, text: string): (r: ResponseOutcome)
    requires Lawful(u)
    ensures r.Outcome? ==> 1 <= |r.text| <= MAX_LENGTH
  {
    match Verdict(u, text, p, patterns)
    case Safe(safe) => Valid(safe, false, {})
    case Blocked(failures) => Valid(FallbackText(u, p), true, failures)
  }

  /** `respond`. */
  ghost function Respond(u: CharTable, patterns: Patterns, p: ContextPacket,
                         composition: Composition, deterministic: Option<string>): (r: ResponseOutcome)
    requires Lawful(u)
    ensures r.Outcome? ==> 1 <= |r.text| <= MAX_LENGTH
  {
    match p.mode
    case Jinja => Valid(FallbackText(u, p), true, {})
    case Deterministic => if deterministic.None? then MissingText else Judged(u, patterns, p, deterministic.value)
    case _ =>
      match composition
      case Composed(text) => Judged(u, patterns, p, text)
      case AdapterFailed => Valid(FallbackText(u, p), true, {})
      case Raised => Propagated
  }

  /** An outcome is a text the validator accepted, or the fallback of its packet. */
  lemma OutcomeIsSafeOrFallback(u: CharTable, patterns: Patterns, p: ContextPacket, composition: Composition,
                                deterministic: Option<string>)
    returns (candidate: string)
    requires Lawful(u) && Respond(u, patterns, p, composition, deterministic).Outcome?
    ensures var r := Respond(u, patterns, p, composition, deterministic);
            if r.usedFallback then r.text == FallbackText(u, p)
            else Verdict(u, candidate, p, patterns) == Safe(r.text) && r.text == Strip(u, candidate)
  {
    candidate := if p.mode == Deterministic && deterministic.Some? then deterministic.value
                 else if composition.Composed? then composition.text else "";
  }

  /** The outcome for an offered text: the text if it passes validation, else the fallback with the failed checks. */
  ghost predicate Settles(u: CharTable, patterns: Patterns, p: ContextPacket, text: string, r: ResponseOutcome)
    requires Lawful(u) && r.Outcome?
  {
    match Verdict(u, text, p, patterns)
    case Safe(safe) => r == Outcome(safe, false, {})
    case Blocked(failures) => r == Outcome(FallbackText(u, p), true, failures)
  }

  /**
   The outcome, mode by mode: the template answers with the fallback; the deterministic text, or the composed one, is
   used if it passes validation, and else the fallback with just the failed checks; so is the fallback, with none, when
   the adapter failed.
   */
  lemma WhenFallback(u: CharTable, patterns: Patterns, p: ContextPacket, composition: Composition,
                     deterministic: Option<string>)
    requires Lawful(u) && Respond(u, patterns, p, composition, deterministic).Outcome?
    ensures var r, fallback := Respond(u, patterns, p, composition, deterministic), FallbackText(u, p);
            && (p.mode == Jinja ==> r == Outcome(fallback, true, {}))
            && (p.mode == Deterministic ==> deterministic.Some? && Settles(u, patterns, p, deterministic.value, r))
            && (p.mode == JinjaLlm || p.mode == NonCommercialLlm ==>
                  if composition.Composed? then Settles(u, patterns, p, composition.text, r)
                  else r == Outcome(fallback, true, {}))
  {
  }

  /** An accepted text that cannot be sent. */
  ghost predicate TooLong(u: CharTable, patterns: Patterns, p: ContextPacket, text: string)
    requires Lawful(u)
  {
    Verdict(u, text, p, patterns).Safe? && |Strip(u, text)| > 4096
  }

  lemma JudgedUnlessTooLong(u: CharTable, patterns: Patterns, p: ContextPacket, text: string)
    requires Lawful(u)
    ensures Judged(u, patterns, p, text) == InvalidOutcome <==> TooLong(u, patterns, p, text)
    ensures Judged(u, patterns, p, text).Outcome? || Judged(u, patterns, p, text).InvalidOutcome?
  {
    FallbackLength(u, p);
    if Verdict(u, text, p, patterns).Safe? {
      SafeIsClean(u, patterns, p, text);
    }
  }

  /** When the engine raises: no deterministic text, an accepted text that is too long, or a composer that raised. */
  lemma OutcomeUnless(u: CharTable, patterns: Patterns, p: ContextPacket, composition: Composition,
                      deterministic: Option<string>)
    requires Lawful(u)
    ensures var r := Respond(u, patterns, p, composition, deterministic);
            && (r == MissingText <==> p.mode == Deterministic && deterministic.None?)
            && (r == Propagated <==> (p.mode == JinjaLlm || p.mode == NonCommercialLlm) && composition.Raised?)
            && (r == InvalidOutcome <==>
                  || (p.mode == Deterministic && deterministic.Some? &&
                      TooLong(u, patterns, p, deterministic.value))
                  || ((p.mode == JinjaLlm || p.mode == NonCommercialLlm) && composition.Composed? &&
                      TooLong(u, patterns, p, composition.text)))
  {
    FallbackLength(u, p);
    if p.mode == Deterministic && deterministic.Some? {
      JudgedUnlessTooLong(u, patterns, p, deterministic.value);
    } else if p.mode != Jinja && composition.Composed? {
      JudgedUnlessTooLong(u, patterns, p, composition.text);
    }
  }

  lemma SafeIsClean(u: CharTable, patterns: Patterns, p: ContextPacket, text: string)
    requires Lawful(u) && Verdict(u, text, p, patterns).Safe?
    ensures Strip(u, text) != "" && !Leaks(u, Strip(u, text))
  {
    assert !Fails(u, Strip(u, text), p, patterns, Empty);
    assert !Fails(u, Strip(u, text), p, patterns, InternalLeak);
  }

  /** A text that was accepted, or is the fallback, shows no marker. */
  lemma SafeOrFallbackIsClean(u: CharTable, patterns: Patterns, p: ContextPacket, candidate: string, text: string)
    requires Lawful(u) && (text == FallbackText(u, p) || Verdict(u, candidate, p, patterns) == Safe(text))
    ensures !Leaks(u, text)
  {
    if text == FallbackText(u, p) {
      FallbackNeverLeaks(u, p);
    } else {
      SafeIsClean(u, patterns, p, candidate);
    }
  }

  /** The nine markers, one by one. */
  lemma {:induction false} CleanOfEach(u: CharTable, s: string)
    requires !Leaks(u, s)
    ensures var upper := Map(u.upper, s);
            && !Contains(upper, "DATOS CONFIRMADOS") && !Contains(upper, "DATOS NO DISPONIBLES")
            && !Contains(upper, "ACCIONES REALIZADAS") && !Contains(upper, "REGLAS DE REDACCIÓN")
            && !Contains(upper, "SYSTEM PROMPT") && !Contains(upper, "TRACE_ID")
            && !Contains(upper, "BUENPICK_INTERNAL_API") && !Contains(upper, "<TOOLS>")
            && !Contains(upper, "TOOL_RESULT")
  {
    forall i | 0 <= i < |MARKERS| ensures !Contains(Map(u.upper, s), MARKERS[i]) {
    }
    assert MARKERS[0] == "DATOS CONFIRMADOS" && MARKERS[1] == "DATOS NO DISPONIBLES";
    assert MARKERS[2] == "ACCIONES REALIZADAS" && MARKERS[3] == "REGLAS DE REDACCIÓN";
    assert MARKERS[4] == "SYSTEM PROMPT" && MARKERS[5] == "TRACE_ID" && MARKERS[6] == "BUENPICK_INTERNAL_API";
    assert MARKERS[7] == "<TOOLS>" && MARKERS[8] == "TOOL_RESULT";
  }

  /** Whatever the packet holds and the model writes, no reply shows an internal marker, and every reply can be sent. */
  lemma RepliesNeverLeak(u: CharTable, patterns: Patterns, p: ContextPacket, composition: Composition,
                         deterministic: Option<string>)
    requires Lawful(u) && Respond(u, patterns, p, composition, deterministic).Outcome?
    ensures var upper := Map(u.upper, Respond(u, patterns, p, composition, deterministic).text);
            && !Contains(upper, "DATOS CONFIRMADOS") && !Contains(upper, "DATOS NO DISPONIBLES")
            && !Contains(upper, "ACCIONES REALIZADAS") && !Contains(upper, "REGLAS DE REDACCIÓN")
            && !Contains(upper, "SYSTEM PROMPT") && !Contains(upper, "TRACE_ID")
            && !Contains(upper, "BUENPICK_INTERNAL_API") && !Contains(upper, "<TOOLS>")
            && !Contains(upper, "TOOL_RESULT")
    ensures 1 <= |Respond(u, patterns, p, composition, deterministic).text| <= 4096
  {
    var candidate := OutcomeIsSafeOrFallback(u, patterns, p, composition, deterministic);
    SafeOrFallbackIsClean(u, patterns, p, candidate, Respond(u, patterns, p, composition, deterministic).text);
    CleanOfEach(u, Respond(u, patterns, p, composition, deterministic).text);
  }

  /**
   Every standalone run of digits of a reply stands in one confirmed item: in its value when the reply was accepted,
   in its value or caption when the reply is the fallback.
   */
  lemma ReplyDigitsAreEvidence(u: CharTable, patterns: Patterns, p: ContextPacket, composition: Composition,
                               deterministic: Option<string>, i: nat, j: nat)
    requires Lawful(u) && Respond(u, patterns, p, composition, deterministic).Outcome?
    requires Standalone(u, Respond(u, patterns, p, composition, deterministic).text, i, j)
    ensures var t := Respond(u, patterns, p, composition, deterministic).text[i..j];
            exists item :: item in p.confirmed && Shows(item, t)
  {
    var r := Respond(u, patterns, p, composition, deterministic);
    var candidate := OutcomeIsSafeOrFallback(u, patterns, p, composition, deterministic);
    if r.usedFallback {
      assert OccursAt(r.text, r.text[i..j], i);
      assert Digits(u, r.text[i..j]);
      FallbackDigitsAreEvidence(u, p, r.text[i..j]);
    } else {
      AcceptedDigitsAreEvidence(u, candidate, p, patterns, i, j);
      var k :| 0 <= k < |p.confirmed| && Contains(p.confirmed[k].value, r.text[i..j]);
      assert p.confirmed[k] in p.confirmed && Shows(p.confirmed[k], r.text[i..j]);
    }
  }
}
