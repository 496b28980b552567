/**
 * The real-time guardrail pipeline: five content checks run in a fixed order,
 * merged into one verdict that gates model evaluation.
 *
 * Scores are integer thousandths (`Milli`): 700 stands for 0.7. Every policy
 * constant of the checks is a multiple of 0.1 and is exact in this unit.
 */
module Guardrails {
  import opened Wrappers
  import opened Text

  type Milli = nat

  const ScoreCap: Milli := 1000
  const DefaultToxicityThreshold: Milli := 700
  const HateSpeechThreshold: Milli := 500
  const ProfanityWeight: Milli := 300
  const ProfanityThreshold: Milli := 300
  const PiiWeight: Milli := 500
  const InjectionPatternWeight: Milli := 300
  const SpecialRunBonus: Milli := 200
  const NewlineBonus: Milli := 100
  const InjectionThreshold: Milli := 500

  const ToxicKeywords: seq<string> := ["hate", "kill", "violent", "attack", "destroy"]
  const HateKeywords: seq<string> := ["discrimination", "prejudice", "supremacy"]
  const ProfanityWords: seq<string> := ["damn", "hell", "shit", "fuck", "bitch"]

  /** `min(x, 1.0)`. */
  function Cap(x: nat): (r: Milli)
    ensures r <= ScoreCap
    ensures r == x || (r == ScoreCap && x > ScoreCap)
  {
    if x < ScoreCap then x else ScoreCap
  }

  // ---------------------------------------------------------------------------
  // Configuration
  // ---------------------------------------------------------------------------

  datatype Check = Toxicity | HateSpeech | Profanity | Pii | PromptInjection

  /** The order in which the checks run, and so the order of the violations. */
  const CheckOrder: seq<Check> := [Toxicity, HateSpeech, Profanity, Pii, PromptInjection]

  function Rank(c: Check): nat
  {
    match c
    case Toxicity => 0
    case HateSpeech => 1
    case Profanity => 2
    case Pii => 3
    case PromptInjection => 4
  }

  /** The key under which a check's score is recorded. */
  function Key(c: Check): string
  {
    match c
    case Toxicity => "toxicity"
    case HateSpeech => "hate_speech"
    case Profanity => "profanity"
    case Pii => "pii"
    case PromptInjection => "prompt_injection"
  }

  /**
   * The `guardrails_config` dictionary: one flag per check (a missing flag is
   * false) and the toxicity threshold, which defaults to 0.7 when missing.
   */
  datatype GuardrailConfig = GuardrailConfig(
    toxicity: bool,
    hateSpeech: bool,
    profanity: bool,
    pii: bool,
    promptInjection: bool,
    toxicityThreshold: Option<Milli>)

  /** The part of the application configuration the checks read. */
  datatype AppConfig = AppConfig(enableGuardrails: bool, guardrails: GuardrailConfig)

  function Enabled(g: GuardrailConfig, c: Check): bool
  {
    match c
    case Toxicity => g.toxicity
    case HateSpeech => g.hateSpeech
    case Profanity => g.profanity
    case Pii => g.pii
    case PromptInjection => g.promptInjection
  }

  function ToxicityThreshold(g: GuardrailConfig): Milli
  {
    g.toxicityThreshold.GetOr(DefaultToxicityThreshold)
  }

  // ---------------------------------------------------------------------------
  // What the checks take from outside: pattern matching and random draws
  // ---------------------------------------------------------------------------

  datatype PiiCategory = Email | Phone | Ssn

  function CategoryName(c: PiiCategory): string
  {
    match c
    case Email => "email"
    case Phone => "phone"
    case Ssn => "ssn"
  }

  /** The instruction-override phrasings, one per regular expression of the library. */
  datatype InjectionPattern =
    | IgnoreInstructions   // ignore (previous|above|all) (instructions|prompts)
    | ForgetEverything     // forget (everything|all|previous)
    | ActAs                // act as [if you are] <word>
    | PretendToBe          // pretend (to be|you are)
    | SystemPrefix         // system:
    | AdminPrefix          // admin:
    | RootPrefix           // root:
    | BracketedSystem      // [system]
    | AngledSystem         // <system>
    | JailbreakWord        // jailbreak
    | OverrideSafety       // override (safety|security)
    | DisableFilter        // disable (filter|safety|guardrail)
    | JailbreakPersona     // DAN, DevMode, Developer Mode as whole words

  /** The pattern library, in the order it is searched. */
  const InjectionPatterns: seq<InjectionPattern> := [
    IgnoreInstructions, ForgetEverything, ActAs, PretendToBe, SystemPrefix, AdminPrefix,
    RootPrefix, BracketedSystem, AngledSystem, JailbreakWord, OverrideSafety, DisableFilter,
    JailbreakPersona]

  /**
   * The regular-expression searches, left uninterpreted: `pii(c, text)` says
   * whether the pattern for category `c` occurs in the text, `injection(p, text)`
   * whether the case-insensitive pattern `p` occurs, and `specialRuns(text)` is
   * the number of runs of at least three of the characters `!@#$%^&*()`.
   */
  datatype Scanner = Scanner(
    pii: (PiiCategory, string) -> bool,
    injection: (InjectionPattern, string) -> bool,
    specialRuns: string -> nat)

  /**
   * The random base scores: the low draw is always taken, and replaced by the
   * high draw when a keyword occurs.
   */
  datatype Draws = Draws(toxicityLow: Milli, toxicityHigh: Milli, hateLow: Milli, hateHigh: Milli)
  {
    /** The draws lie in the ranges the uniform samplers are given. */
    predicate InRange()
    {
      toxicityLow <= 300 && 600 <= toxicityHigh <= 900 && hateLow <= 200 && 700 <= hateHigh <= 950
    }
  }

  // ---------------------------------------------------------------------------
  // The five detectors
  // ---------------------------------------------------------------------------

  /** `any(keyword in text for keyword in words)`. */
  predicate AnyKeyword(words: seq<string>, text: string)
  {
    exists w | w in words :: Contains(text, w)
  }

  function ToxicityScore(text: string, draws: Draws): Milli
  {
    if AnyKeyword(ToxicKeywords, Lower(text)) then draws.toxicityHigh else draws.toxicityLow
  }

  function HateScore(text: string, draws: Draws): Milli
  {
    if AnyKeyword(HateKeywords, Lower(text)) then draws.hateHigh else draws.hateLow
  }

  /** The test "this word occurs in the lower-cased text". */
  function OccursIn(text: string): string -> bool
  {
    w => Contains(Lower(text), w)
  }

  function ProfanityCount(text: string): nat
  {
    CountWhere(ProfanityWords, OccursIn(text))
  }

  function ProfanityScore(text: string): Milli
  {
    Cap(ProfanityWeight * ProfanityCount(text))
  }

  /** The PII categories found, in the order email, phone, ssn. */
  function PiiFound(text: string, scan: Scanner): seq<PiiCategory>
  {
    (if scan.pii(Email, text) then [Email] else [])
    + (if scan.pii(Phone, text) then [Phone] else [])
    + (if scan.pii(Ssn, text) then [Ssn] else [])
  }

  function PiiScore(text: string, scan: Scanner): Milli
  {
    Cap(PiiWeight * |PiiFound(text, scan)|)
  }

  /** The test "this injection pattern occurs in the text". */
  function Hits(text: string, scan: Scanner): InjectionPattern -> bool
  {
    p => scan.injection(p, text)
  }

  function PatternHits(text: string, scan: Scanner): nat
  {
    CountWhere(InjectionPatterns, Hits(text, scan))
  }

  /** More than two runs of special characters. */
  predicate SpecialRunHeuristic(text: string, scan: Scanner)
  {
    scan.specialRuns(text) > 2
  }

  /** More than ten newlines in a text shorter than 500 characters. */
  predicate NewlineHeuristic(text: string)
  {
    CountChar(text, '\n') > 10 && |text| < 500
  }

  function InjectionScore(text: string, scan: Scanner): Milli
  {
    Cap(InjectionPatternWeight * PatternHits(text, scan)
        + (if SpecialRunHeuristic(text, scan) then SpecialRunBonus else 0)
        + (if NewlineHeuristic(text) then NewlineBonus else 0))
  }

  // ---------------------------------------------------------------------------
  // Violations and detections
  // ---------------------------------------------------------------------------

  datatype Violation =
    | HighToxicity(score: Milli)
    | HateSpeechFound(score: Milli)
    | ProfanityFound(score: Milli)
    | PiiDetected(categories: seq<PiiCategory>)
    | InjectionDetected(score: Milli)

  function ViolationCheck(v: Violation): Check
  {
    match v
    case HighToxicity(_) => Toxicity
    case HateSpeechFound(_) => HateSpeech
    case ProfanityFound(_) => Profanity
    case PiiDetected(_) => Pii
    case InjectionDetected(_) => PromptInjection
  }

  function CategoryNames(cs: seq<PiiCategory>): (r: seq<string>)
    ensures |r| == |cs| && forall i :: 0 <= i < |cs| ==> r[i] == CategoryName(cs[i])
  {
    if cs == [] then [] else [CategoryName(cs[0])] + CategoryNames(cs[1..])
  }

  /** The human-readable text recorded for a violation. */
  function Label(v: Violation): string
  {
    match v
    case HighToxicity(s) => "High toxicity detected (score: " + FormatMilli(s) + ")"
    case HateSpeechFound(s) => "Hate speech detected (score: " + FormatMilli(s) + ")"
    case ProfanityFound(s) => "Profanity detected (score: " + FormatMilli(s) + ")"
    case PiiDetected(cs) => "PII detected: " + Join(CategoryNames(cs), ", ")
    case InjectionDetected(s) => "Prompt injection detected (score: " + FormatMilli(s) + ")"
  }

  function Labels(vs: seq<Violation>): (r: seq<string>)
    ensures |r| == |vs| && forall i :: 0 <= i < |vs| ==> r[i] == Label(vs[i])
  {
    if vs == [] then [] else [Label(vs[0])] + Labels(vs[1..])
  }

  /** What one detector reports: its score, and its violation if it has one. */
  datatype Detection = Detection(score: Milli, violation: Option<Violation>)

  /** Toxicity: violated when the score exceeds the configured threshold. */
  function ToxicityDetection(text: string, g: GuardrailConfig, draws: Draws): Detection
  {
    var s := ToxicityScore(text, draws);
    Detection(s, if s > ToxicityThreshold(g) then Some(HighToxicity(s)) else None)
  }

  /** Hate speech: violated when the score exceeds 0.5. */
  function HateSpeechDetection(text: string, draws: Draws): Detection
  {
    var s := HateScore(text, draws);
    Detection(s, if s > HateSpeechThreshold then Some(HateSpeechFound(s)) else None)
  }

  /** Profanity: violated when the score exceeds 0.3. */
  function ProfanityDetection(text: string): Detection
  {
    var s := ProfanityScore(text);
    Detection(s, if s > ProfanityThreshold then Some(ProfanityFound(s)) else None)
  }

  /** PII: violated when any category is found; the violation lists the categories. */
  function PiiDetection(text: string, scan: Scanner): Detection
  {
    var found := PiiFound(text, scan);
    Detection(PiiScore(text, scan), if found != [] then Some(PiiDetected(found)) else None)
  }

  /** Prompt injection: violated when the score exceeds 0.5. */
  function InjectionDetection(text: string, scan: Scanner): Detection
  {
    var s := InjectionScore(text, scan);
    Detection(s, if s > InjectionThreshold then Some(InjectionDetected(s)) else None)
  }

  /** One detection per check. */
  datatype Detections = Detections(
    toxicity: Detection,
    hateSpeech: Detection,
    profanity: Detection,
    pii: Detection,
    promptInjection: Detection)
  {
    function Of(c: Check): Detection
    {
      match c
      case Toxicity => toxicity
      case HateSpeech => hateSpeech
      case Profanity => profanity
      case Pii => pii
      case PromptInjection => promptInjection
    }

    /** Each detection's violation, if any, is of its own check. */
    predicate WellTagged()
    {
      forall c :: Of(c).violation.Some? ==> ViolationCheck(Of(c).violation.value) == c
    }
  }

  /** The five detectors run on one text; the checks do not depend on each other. */
  function RunDetectors(text: string, g: GuardrailConfig, draws: Draws, scan: Scanner): (ds: Detections)
    ensures ds.WellTagged()
  {
    Detections(
      ToxicityDetection(text, g, draws),
      HateSpeechDetection(text, draws),
      ProfanityDetection(text),
      PiiDetection(text, scan),
      InjectionDetection(text, scan))
  }

  // ---------------------------------------------------------------------------
  // The aggregator
  // ---------------------------------------------------------------------------

  /** The check is enabled and its detection is a violation. */
  predicate Violates(c: Check, g: GuardrailConfig, ds: Detections)
  {
    Enabled(g, c) && ds.Of(c).violation.Some?
  }

  /** The violations of the checks `cs`, in the order of `cs`. */
  function ViolationsOf(cs: seq<Check>, g: GuardrailConfig, ds: Detections): seq<Violation>
  {
    if cs == [] then []
    else
      var c := cs[|cs| - 1];
      ViolationsOf(cs[..|cs| - 1], g, ds) + (if Violates(c, g, ds) then [ds.Of(c).violation.value] else [])
  }

  /** The scores of the enabled checks among `cs`, keyed by check, in the order of `cs`. */
  function ScoresOf(cs: seq<Check>, g: GuardrailConfig, ds: Detections): seq<(Check, Milli)>
  {
    if cs == [] then []
    else
      var c := cs[|cs| - 1];
      ScoresOf(cs[..|cs| - 1], g, ds) + (if Enabled(g, c) then [(c, ds.Of(c).score)] else [])
  }

  const AllPassedMessage: string := "All guardrails passed"
  const DisabledMessage: string := "Guardrails disabled"

  function ViolationMessage(vs: seq<Violation>): string
  {
    "Guardrails violations: " + Join(Labels(vs), "; ")
  }

  /**
   * The result record. When guardrails are off it holds only `passed` (true)
   * and a message; otherwise also the violations and the scores.
   */
  datatype GuardrailResult =
    | Disabled
    | Checked(passed: bool, violations: seq<Violation>, scores: seq<(Check, Milli)>, message: string)
  {
    function Passed(): bool
    {
      Disabled? || passed
    }

    function Message(): string
    {
      if Disabled? then DisabledMessage else message
    }
  }

  /**
   * The merged verdict, stated check by check: every enabled check has its
   * score recorded, and the text passes when no enabled check is violated.
   */
  function Combine(g: GuardrailConfig, ds: Detections): GuardrailResult
  {
    var passed := forall c | c in CheckOrder :: !Violates(c, g, ds);
    var violations := ViolationsOf(CheckOrder, g, ds);
    Checked(passed, violations, ScoresOf(CheckOrder, g, ds),
            if passed then AllPassedMessage else ViolationMessage(violations))
  }

  /** The verdict on a text: nothing runs when guardrails are off. */
  function Verdict(text: string, config: AppConfig, draws: Draws, scan: Scanner): GuardrailResult
  {
    if !config.enableGuardrails then Disabled
    else Combine(config.guardrails, RunDetectors(text, config.guardrails, draws, scan))
  }

  /** The checks among `cs` pass exactly when they contribute no violation. */
  lemma {:induction false} NoViolationsIffAllPass(cs: seq<Check>, g: GuardrailConfig, ds: Detections)
    ensures ViolationsOf(cs, g, ds) == [] <==> forall c | c in cs :: !Violates(c, g, ds)
  {
    if cs != [] {
      var init := cs[..|cs| - 1];
      NoViolationsIffAllPass(init, g, ds);
      assert cs == init + [cs[|cs| - 1]];
    }
  }

  /** The verdict with guardrails on, in the form the pipeline builds it. */
  lemma CombineByViolations(g: GuardrailConfig, ds: Detections)
    ensures var vs := ViolationsOf(CheckOrder, g, ds);
      Combine(g, ds) == Checked(vs == [], vs, ScoresOf(CheckOrder, g, ds),
                                if vs == [] then AllPassedMessage else ViolationMessage(vs))
  {
    NoViolationsIffAllPass(CheckOrder, g, ds);
  }

  /** The pipeline's state once the first `k` checks of `CheckOrder` have run. */
  ghost predicate RanFirst(k: nat, g: GuardrailConfig, ds: Detections,
                           passed: bool, violations: seq<Violation>, scores: seq<(Check, Milli)>)
    requires k <= |CheckOrder|
  {
    && violations == ViolationsOf(CheckOrder[..k], g, ds)
    && scores == ScoresOf(CheckOrder[..k], g, ds)
    && passed == (violations == [])
  }

  /** A disabled check leaves the pipeline's state as it was. */
  lemma SkipDisabled(k: nat, g: GuardrailConfig, ds: Detections,
                     passed: bool, violations: seq<Violation>, scores: seq<(Check, Milli)>)
    requires k < |CheckOrder| && !Enabled(g, CheckOrder[k])
    requires RanFirst(k, g, ds, passed, violations, scores)
    ensures RanFirst(k + 1, g, ds, passed, violations, scores)
  {
    assert CheckOrder[..k + 1][..k] == CheckOrder[..k];
  }

  // ---------------------------------------------------------------------------
  // The pipeline as it runs
  // ---------------------------------------------------------------------------

  /** The toxicity block: the low draw, replaced by the high draw on a keyword, against the threshold. */
  method ToxicityCheck(text: string, g: GuardrailConfig, draws: Draws) returns (d: Detection)
    ensures d == ToxicityDetection(text, g, draws)
  {
    var score := draws.toxicityLow;
    if AnyKeyword(ToxicKeywords, Lower(text)) {
      score := draws.toxicityHigh;
    }
    d := Detection(score, None);
    if score > ToxicityThreshold(g) {
      d := Detection(score, Some(HighToxicity(score)));
    }
  }

  /** The hate-speech block: the low draw, replaced by the high draw on a keyword, against 0.5. */
  method HateSpeechCheck(text: string, draws: Draws) returns (d: Detection)
    ensures d == HateSpeechDetection(text, draws)
  {
    var score := draws.hateLow;
    if AnyKeyword(HateKeywords, Lower(text)) {
      score := draws.hateHigh;
    }
    d := Detection(score, None);
    if score > HateSpeechThreshold {
      d := Detection(score, Some(HateSpeechFound(score)));
    }
  }

  /** The profanity block: 0.3 per listed word that occurs, capped at 1.0, against 0.3. */
  method ProfanityCheck(text: string) returns (d: Detection)
    ensures d == ProfanityDetection(text)
  {
    var count := CountWhere(ProfanityWords, OccursIn(text));
    var score := Cap(count * ProfanityWeight);
    d := Detection(score, None);
    if score > ProfanityThreshold {
      d := Detection(score, Some(ProfanityFound(score)));
    }
  }

  /** The PII block: the categories are appended in the order email, phone, ssn. */
  method PiiCheck(text: string, scan: Scanner) returns (d: Detection)
    ensures d == PiiDetection(text, scan)
  {
    var found: seq<PiiCategory> := [];
    if scan.pii(Email, text) {
      found := found + [Email];
    }
    if scan.pii(Phone, text) {
      found := found + [Phone];
    }
    if scan.pii(Ssn, text) {
      found := found + [Ssn];
    }
    assert found == PiiFound(text, scan);
    d := Detection(Cap(|found| * PiiWeight), None);
    if found != [] {
      d := Detection(d.score, Some(PiiDetected(found)));
    }
  }

  /**
   * The prompt-injection block: 0.3 is added for every pattern of the library
   * that occurs, then the two heuristic bonuses; the sum is capped at 1.0.
   */
  method InjectionCheck(text: string, scan: Scanner) returns (d: Detection)
    ensures d == InjectionDetection(text, scan)
  {
    var injectionScore := 0;
    for i := 0 to |InjectionPatterns|
      invariant injectionScore == InjectionPatternWeight * CountWhere(InjectionPatterns[..i], Hits(text, scan))
    {
      assert InjectionPatterns[..i + 1][..i] == InjectionPatterns[..i];
      if scan.injection(InjectionPatterns[i], text) {
        injectionScore := injectionScore + InjectionPatternWeight;
      }
    }
    assert InjectionPatterns[..|InjectionPatterns|] == InjectionPatterns;
    if scan.specialRuns(text) > 2 {
      injectionScore := injectionScore + SpecialRunBonus;
    }
    if CountChar(text, '\n') > 10 && |text| < 500 {
      injectionScore := injectionScore + NewlineBonus;
    }
    injectionScore := Cap(injectionScore);
    d := Detection(injectionScore, None);
    if injectionScore > InjectionThreshold {
      d := Detection(injectionScore, Some(InjectionDetected(injectionScore)));
    }
  }

  /**
   * Records the `k`-th check's score and, when it is violated, clears `passed`
   * and appends its violation.
   */
  method Record(ghost k: nat, ghost g: GuardrailConfig, ghost ds: Detections, c: Check, d: Detection,
                passed: bool, violations: seq<Violation>, scores: seq<(Check, Milli)>)
    returns (passed': bool, violations': seq<Violation>, scores': seq<(Check, Milli)>)
    requires k < |CheckOrder| && c == CheckOrder[k] && Enabled(g, c) && d == ds.Of(c)
    requires RanFirst(k, g, ds, passed, violations, scores)
    ensures RanFirst(k + 1, g, ds, passed', violations', scores')
  {
    assert CheckOrder[..k + 1][..k] == CheckOrder[..k];
    passed', violations', scores' := passed, violations, scores + [(c, d.score)];
    if d.violation.Some? {
      passed' := false;
      violations' := violations + [d.violation.value];
    }
  }

  /** Runs the `k`-th check of `CheckOrder` when it is enabled, and records its outcome. */
  method Step(k: nat, text: string, g: GuardrailConfig, draws: Draws, scan: Scanner, ghost ds: Detections,
              passed: bool, violations: seq<Violation>, scores: seq<(Check, Milli)>)
    returns (passed': bool, violations': seq<Violation>, scores': seq<(Check, Milli)>)
    requires k < |CheckOrder| && ds == RunDetectors(text, g, draws, scan)
    requires RanFirst(k, g, ds, passed, violations, scores)
    ensures RanFirst(k + 1, g, ds, passed', violations', scores')
  {
    var c := CheckOrder[k];
    if !Enabled(g, c) {
      SkipDisabled(k, g, ds, passed, violations, scores);
      return passed, violations, scores;
    }
    var d: Detection;
    match c {
      case Toxicity => d := ToxicityCheck(text, g, draws);
      case HateSpeech => d := HateSpeechCheck(text, draws);
      case Profanity => d := ProfanityCheck(text);
      case Pii => d := PiiCheck(text, scan);
      case PromptInjection => d := InjectionCheck(text, scan);
    }
    passed', violations', scores' := Record(k, g, ds, c, d, passed, violations, scores);
  }

  /** Once all five checks have run, the pipeline's state is the merged verdict. */
  lemma RanAll(g: GuardrailConfig, ds: Detections,
               passed: bool, violations: seq<Violation>, scores: seq<(Check, Milli)>)
    requires RanFirst(|CheckOrder|, g, ds, passed, violations, scores)
    ensures Combine(g, ds)
         == Checked(passed, violations, scores, if passed then AllPassedMessage else ViolationMessage(violations))
  {
    assert CheckOrder[..|CheckOrder|] == CheckOrder;
    CombineByViolations(g, ds);
  }

  /**
   * The whole pipeline: when guardrails are on, each enabled check in turn
   * records its score and, when violated, clears `passed` and appends its
   * violation; the message is rewritten at the end if anything failed.
   */
  method EvaluateGuardrails(text: string, config: AppConfig, draws: Draws, scan: Scanner)
    returns (r: GuardrailResult)
    ensures r == Verdict(text, config, draws, scan)
  {
    if !config.enableGuardrails {
      return Disabled;
    }
    var g := config.guardrails;
    ghost var ds := RunDetectors(text, g, draws, scan);
    var passed := true;
    var violations: seq<Violation> := [];
    var scores: seq<(Check, Milli)> := [];
    assert CheckOrder[..0] == [];
    passed, violations, scores := Step(0, text, g, draws, scan, ds, passed, violations, scores);
    passed, violations, scores := Step(1, text, g, draws, scan, ds, passed, violations, scores);
    passed, violations, scores := Step(2, text, g, draws, scan, ds, passed, violations, scores);
    passed, violations, scores := Step(3, text, g, draws, scan, ds, passed, violations, scores);
    passed, violations, scores := Step(4, text, g, draws, scan, ds, passed, violations, scores);
    var message := AllPassedMessage;
    if !passed {
      message := ViolationMessage(violations);
    }
    RanAll(g, ds, passed, violations, scores);
    r := Checked(passed, violations, scores, message);
  }
}
