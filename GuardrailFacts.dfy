/**
 * What the guardrail verdict promises: when `passed` holds, which checks
 * have scores, in what order violations appear, the message, and the
 * decision rule of each detector.
 */
module GuardrailFacts {
  import opened Wrappers
  import opened Text
  import opened Guardrails

  /** The checks appear in strictly increasing rank. */
  predicate RankSorted(cs: seq<Check>)
  {
    forall i, j | 0 <= i < j < |cs| :: Rank(cs[i]) < Rank(cs[j])
  }

  lemma CheckOrderSorted()
    ensures RankSorted(CheckOrder)
    ensures forall c: Check :: c in CheckOrder
  {
    assert forall i | 0 <= i < |CheckOrder| :: Rank(CheckOrder[i]) == i;
    forall c: Check ensures c in CheckOrder {
      assert CheckOrder[Rank(c)] == c;
    }
  }

  // ---------------------------------------------------------------------------
  // The aggregator over any ordered list of checks
  // ---------------------------------------------------------------------------

  /**
   * `sc` holds one entry for each enabled check among `cs` and no other
   * entries, in the order of `cs`; each entry is its detector's score.
   */
  ghost predicate ScoresFor(sc: seq<(Check, Milli)>, cs: seq<Check>, g: GuardrailConfig, ds: Detections)
  {
    && (forall i | 0 <= i < |sc| :: sc[i].0 in cs && Enabled(g, sc[i].0) && sc[i].1 == ds.Of(sc[i].0).score)
    && (forall c | c in cs && Enabled(g, c) :: (c, ds.Of(c).score) in sc)
    && (forall i, j | 0 <= i < j < |sc| :: Rank(sc[i].0) < Rank(sc[j].0))
  }

  /**
   * `vs` holds the violation of each enabled check among `cs` whose detector
   * reports one and nothing else, once each, in the order of `cs`.
   */
  ghost predicate ViolationsFor(vs: seq<Violation>, cs: seq<Check>, g: GuardrailConfig, ds: Detections)
  {
    && (forall i | 0 <= i < |vs| ::
          ViolationCheck(vs[i]) in cs && Violates(ViolationCheck(vs[i]), g, ds)
          && ds.Of(ViolationCheck(vs[i])).violation == Some(vs[i]))
    && (forall c | c in cs && Violates(c, g, ds) :: ds.Of(c).violation.value in vs)
    && (forall i, j | 0 <= i < j < |vs| :: Rank(ViolationCheck(vs[i])) < Rank(ViolationCheck(vs[j])))
  }

  /** Every entry of the scores is an enabled check among `cs`, with its detector's score. */
  lemma {:induction false} ScoresOfSound(cs: seq<Check>, g: GuardrailConfig, ds: Detections)
    ensures forall i | 0 <= i < |ScoresOf(cs, g, ds)| ::
      var e := ScoresOf(cs, g, ds)[i]; e.0 in cs && Enabled(g, e.0) && e.1 == ds.Of(e.0).score
  {
    if cs != [] {
      var init := cs[..|cs| - 1];
      ScoresOfSound(init, g, ds);
      assert forall c | c in init :: c in cs;
    }
  }

  /** Every enabled check among `cs` has an entry in the scores. */
  lemma {:induction false} ScoresOfComplete(cs: seq<Check>, g: GuardrailConfig, ds: Detections)
    ensures forall c | c in cs && Enabled(g, c) :: (c, ds.Of(c).score) in ScoresOf(cs, g, ds)
  {
    if cs != [] {
      var init, last := cs[..|cs| - 1], cs[|cs| - 1];
      ScoresOfComplete(init, g, ds);
      assert cs == init + [last];
    }
  }

  /** The entries of the scores follow the order of `cs`. */
  lemma {:induction false} ScoresOfOrdered(cs: seq<Check>, g: GuardrailConfig, ds: Detections)
    requires RankSorted(cs)
    ensures forall i, j | 0 <= i < j < |ScoresOf(cs, g, ds)| ::
      Rank(ScoresOf(cs, g, ds)[i].0) < Rank(ScoresOf(cs, g, ds)[j].0)
  {
    if cs != [] {
      var init, last := cs[..|cs| - 1], cs[|cs| - 1];
      assert RankSorted(init);
      ScoresOfOrdered(init, g, ds);
      ScoresOfSound(init, g, ds);
      var before := ScoresOf(init, g, ds);
      forall i | 0 <= i < |before| ensures Rank(before[i].0) < Rank(last) {
        var k :| 0 <= k < |init| && init[k] == before[i].0;
        assert cs[k] == init[k];
      }
    }
  }

  lemma ScoresOfShape(cs: seq<Check>, g: GuardrailConfig, ds: Detections)
    requires RankSorted(cs)
    ensures ScoresFor(ScoresOf(cs, g, ds), cs, g, ds)
  {
    ScoresOfSound(cs, g, ds);
    ScoresOfComplete(cs, g, ds);
    ScoresOfOrdered(cs, g, ds);
  }

  /** Every violation is that of a violated enabled check among `cs`. */
  lemma {:induction false} ViolationsOfSound(cs: seq<Check>, g: GuardrailConfig, ds: Detections)
    requires ds.WellTagged()
    ensures forall i | 0 <= i < |ViolationsOf(cs, g, ds)| ::
      var v := ViolationsOf(cs, g, ds)[i];
      ViolationCheck(v) in cs && Violates(ViolationCheck(v), g, ds) && ds.Of(ViolationCheck(v)).violation == Some(v)
  {
    if cs != [] {
      var init, last := cs[..|cs| - 1], cs[|cs| - 1];
      ViolationsOfSound(init, g, ds);
      assert forall c | c in init :: c in cs;
      if Violates(last, g, ds) {
        assert ViolationCheck(ds.Of(last).violation.value) == last;
      }
    }
  }

  /** Every violated enabled check among `cs` contributes its violation. */
  lemma {:induction false} ViolationsOfComplete(cs: seq<Check>, g: GuardrailConfig, ds: Detections)
    ensures forall c | c in cs && Violates(c, g, ds) :: ds.Of(c).violation.value in ViolationsOf(cs, g, ds)
  {
    if cs != [] {
      var init, last := cs[..|cs| - 1], cs[|cs| - 1];
      ViolationsOfComplete(init, g, ds);
      assert cs == init + [last];
    }
  }

  /** The violations follow the order of `cs`. */
  lemma {:induction false} ViolationsOfOrdered(cs: seq<Check>, g: GuardrailConfig, ds: Detections)
    requires RankSorted(cs) && ds.WellTagged()
    ensures forall i, j | 0 <= i < j < |ViolationsOf(cs, g, ds)| ::
      Rank(ViolationCheck(ViolationsOf(cs, g, ds)[i])) < Rank(ViolationCheck(ViolationsOf(cs, g, ds)[j]))
  {
    if cs != [] {
      var init, last := cs[..|cs| - 1], cs[|cs| - 1];
      assert RankSorted(init);
      ViolationsOfOrdered(init, g, ds);
      ViolationsOfSound(init, g, ds);
      var before := ViolationsOf(init, g, ds);
      forall i | 0 <= i < |before| ensures Rank(ViolationCheck(before[i])) < Rank(last) {
        var k :| 0 <= k < |init| && init[k] == ViolationCheck(before[i]);
        assert cs[k] == init[k];
      }
      if Violates(last, g, ds) {
        assert ViolationCheck(ds.Of(last).violation.value) == last;
      }
    }
  }

  lemma ViolationsOfShape(cs: seq<Check>, g: GuardrailConfig, ds: Detections)
    requires RankSorted(cs) && ds.WellTagged()
    ensures ViolationsFor(ViolationsOf(cs, g, ds), cs, g, ds)
  {
    ViolationsOfSound(cs, g, ds);
    ViolationsOfComplete(cs, g, ds);
    ViolationsOfOrdered(cs, g, ds);
  }

  // ---------------------------------------------------------------------------
  // The verdict
  // ---------------------------------------------------------------------------

  /** With guardrails off the text passes, with the message "Guardrails disabled", whatever it says. */
  lemma DisabledPassesAnything(text: string, text': string, config: AppConfig,
                               draws: Draws, draws': Draws, scan: Scanner, scan': Scanner)
    requires !config.enableGuardrails
    ensures Verdict(text, config, draws, scan) == Verdict(text', config, draws', scan') == Disabled
    ensures Verdict(text, config, draws, scan).Passed()
    ensures Verdict(text, config, draws, scan).Message() == "Guardrails disabled"
  {
  }

  /**
   * With guardrails on, the text passes exactly when there are no violations,
   * and the message is "All guardrails passed" or lists the violations' labels
   * joined with "; ".
   */
  lemma PassedIffNoViolations(text: string, config: AppConfig, draws: Draws, scan: Scanner)
    requires config.enableGuardrails
    ensures var r := Verdict(text, config, draws, scan);
      && r.Checked?
      && (r.passed <==> r.violations == [])
      && r.Passed() == r.passed
      && r.message == (if r.violations == [] then "All guardrails passed"
                       else "Guardrails violations: " + Join(Labels(r.violations), "; "))
  {
    CombineByViolations(config.guardrails, RunDetectors(text, config.guardrails, draws, scan));
  }

  /**
   * With guardrails on, the text fails exactly when some enabled check's
   * detector reports a violation.
   */
  lemma FailsIffSomeEnabledCheckFires(text: string, config: AppConfig, draws: Draws, scan: Scanner)
    requires config.enableGuardrails
    ensures !Verdict(text, config, draws, scan).Passed()
        <==> exists c :: Violates(c, config.guardrails, RunDetectors(text, config.guardrails, draws, scan))
  {
    CheckOrderSorted();
    var ds := RunDetectors(text, config.guardrails, draws, scan);
    CombineByViolations(config.guardrails, ds);
    NoViolationsIffAllPass(CheckOrder, config.guardrails, ds);
  }

  /**
   * The scores hold exactly the enabled checks, once each with its detector's
   * score, in the order toxicity, hate speech, profanity, pii, prompt injection.
   */
  lemma ScoresExactlyEnabled(text: string, config: AppConfig, draws: Draws, scan: Scanner)
    requires config.enableGuardrails
    ensures Verdict(text, config, draws, scan).Checked?
    ensures ScoresFor(Verdict(text, config, draws, scan).scores, CheckOrder, config.guardrails,
                      RunDetectors(text, config.guardrails, draws, scan))
  {
    CheckOrderSorted();
    ScoresOfShape(CheckOrder, config.guardrails, RunDetectors(text, config.guardrails, draws, scan));
  }

  /**
   * The violations are those of the enabled checks whose detector fires, once
   * each, in the fixed order of the checks.
   */
  lemma ViolationsInCheckOrder(text: string, config: AppConfig, draws: Draws, scan: Scanner)
    requires config.enableGuardrails
    ensures Verdict(text, config, draws, scan).Checked?
    ensures ViolationsFor(Verdict(text, config, draws, scan).violations, CheckOrder, config.guardrails,
                          RunDetectors(text, config.guardrails, draws, scan))
  {
    CheckOrderSorted();
    ViolationsOfShape(CheckOrder, config.guardrails, RunDetectors(text, config.guardrails, draws, scan));
  }

  /** When none of `cs` is enabled, they contribute neither scores nor violations. */
  lemma {:induction false} NothingEnabled(cs: seq<Check>, g: GuardrailConfig, ds: Detections)
    requires forall c | c in cs :: !Enabled(g, c)
    ensures ScoresOf(cs, g, ds) == [] && ViolationsOf(cs, g, ds) == []
  {
    if cs != [] {
      NothingEnabled(cs[..|cs| - 1], g, ds);
      assert cs[|cs| - 1] in cs;
    }
  }

  /** With every check switched off, any text passes and nothing is scored. */
  lemma AllChecksOffPasses(text: string, config: AppConfig, draws: Draws, scan: Scanner)
    requires config.enableGuardrails
    requires forall c :: !Enabled(config.guardrails, c)
    ensures Verdict(text, config, draws, scan)
         == Checked(true, [], [], "All guardrails passed")
  {
    var ds := RunDetectors(text, config.guardrails, draws, scan);
    NothingEnabled(CheckOrder, config.guardrails, ds);
    CombineByViolations(config.guardrails, ds);
  }

  // ---------------------------------------------------------------------------
  // The detectors
  // ---------------------------------------------------------------------------

  /** The keyword tests, and so the toxicity, hate-speech and profanity scores, ignore letter case. */
  lemma KeywordChecksIgnoreCase(text: string, draws: Draws)
    ensures ToxicityScore(Lower(text), draws) == ToxicityScore(text, draws)
    ensures HateScore(Lower(text), draws) == HateScore(text, draws)
    ensures ProfanityScore(Lower(text)) == ProfanityScore(text)
  {
    LowerIdempotent(text);
    assert OccursIn(Lower(text)) == OccursIn(text);
  }

  /**
   * Toxicity is flagged exactly when its score exceeds the threshold (0.7 by
   * default); with draws in their ranges a text without a listed keyword never
   * reaches 0.3, and a text with one always reaches 0.6.
   */
  lemma ToxicityRule(text: string, g: GuardrailConfig, draws: Draws)
    requires draws.InRange()
    ensures var d := ToxicityDetection(text, g, draws);
      && (d.violation.Some? <==> d.score > ToxicityThreshold(g))
      && (d.violation.Some? ==> d.violation.value == HighToxicity(d.score))
      && (g.toxicityThreshold.None? ==> ToxicityThreshold(g) == 700)
      && (!AnyKeyword(ToxicKeywords, Lower(text)) ==> d.score <= 300)
      && (AnyKeyword(ToxicKeywords, Lower(text)) ==> 600 <= d.score <= 900)
  {
  }

  /** A text without a toxic keyword passes the toxicity check under any threshold of at least 0.3. */
  lemma NoToxicKeywordPasses(text: string, g: GuardrailConfig, draws: Draws)
    requires draws.InRange() && ToxicityThreshold(g) >= 300
    requires forall w | w in ToxicKeywords :: !Contains(Lower(text), w)
    ensures ToxicityDetection(text, g, draws).violation.None?
  {
  }

  /**
   * Hate speech is flagged exactly when its score exceeds 0.5; with draws in
   * their ranges that is exactly when a listed keyword occurs.
   */
  lemma HateSpeechRule(text: string, draws: Draws)
    requires draws.InRange()
    ensures var d := HateSpeechDetection(text, draws);
      && (d.violation.Some? <==> d.score > 500)
      && (d.violation.Some? <==> exists w | w in HateKeywords :: Contains(Lower(text), w))
  {
  }

  /**
   * The profanity score is 0.3 for each distinct listed word that occurs,
   * capped at 1.0, and the check is flagged exactly when two or more occur.
   */
  lemma ProfanityRule(text: string)
    ensures ProfanityCount(text) == |set w | w in ProfanityWords && Contains(Lower(text), w)|
    ensures ProfanityDetection(text).score == Cap(300 * ProfanityCount(text))
    ensures ProfanityDetection(text).violation.Some? <==> ProfanityCount(text) >= 2
  {
    assert Distinct(ProfanityWords);
    CountWhereDistinct(ProfanityWords, OccursIn(text));
    assert SetWhere(ProfanityWords, OccursIn(text)) == (set w | w in ProfanityWords && Contains(Lower(text), w));
  }

  /** The position of a category in the order the PII patterns are tried. */
  function CategoryRank(c: PiiCategory): nat
  {
    match c
    case Email => 0
    case Phone => 1
    case Ssn => 2
  }

  /**
   * The PII categories found are those whose pattern matches, each once, in the
   * order email, phone, ssn; the score is 0.5 per category capped at 1.0, and
   * the check is flagged, with those categories, exactly when one matched.
   */
  lemma PiiRule(text: string, scan: Scanner)
    ensures forall c :: c in PiiFound(text, scan) <==> scan.pii(c, text)
    ensures forall i, j | 0 <= i < j < |PiiFound(text, scan)| ::
      CategoryRank(PiiFound(text, scan)[i]) < CategoryRank(PiiFound(text, scan)[j])
    ensures PiiDetection(text, scan).score == Cap(500 * |PiiFound(text, scan)|)
    ensures PiiDetection(text, scan).violation.Some? <==> exists c :: scan.pii(c, text)
    ensures PiiDetection(text, scan).violation.Some? ==>
      PiiDetection(text, scan).violation.value == PiiDetected(PiiFound(text, scan))
  {
    var found := PiiFound(text, scan);
    forall c ensures c in found <==> scan.pii(c, text) {
      match c
      case Email =>
      case Phone =>
      case Ssn =>
    }
  }

  /** The pattern count is the number of distinct library patterns that occur. */
  lemma PatternHitsDistinct(text: string, scan: Scanner)
    ensures PatternHits(text, scan) == |set p | p in InjectionPatterns && scan.injection(p, text)|
    ensures PatternHits(text, scan) == 0 <==> forall p | p in InjectionPatterns :: !scan.injection(p, text)
  {
    assert Distinct(InjectionPatterns);
    CountWhereDistinct(InjectionPatterns, Hits(text, scan));
    assert SetWhere(InjectionPatterns, Hits(text, scan)) == (set p | p in InjectionPatterns && scan.injection(p, text));
    CountWhereZero(InjectionPatterns, Hits(text, scan));
  }

  /**
   * Prompt injection is flagged exactly when two patterns occur, or one
   * pattern together with both heuristics; with no signal at all the score is 0.
   */
  lemma InjectionRule(text: string, scan: Scanner)
    ensures var hits := PatternHits(text, scan);
      var d := InjectionDetection(text, scan);
      && (d.violation.Some? <==> d.score > 500)
      && (d.violation.Some? <==>
            hits >= 2 || (hits == 1 && SpecialRunHeuristic(text, scan) && NewlineHeuristic(text)))
      && (hits == 0 && !SpecialRunHeuristic(text, scan) && !NewlineHeuristic(text) ==> d.score == 0)
  {
  }
}
