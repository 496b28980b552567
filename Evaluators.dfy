/**
 * The evaluator registry, the simulated evaluation report and its CSV
 * flattening. The sampled metric values are a parameter: `sample(i, m)` is
 * the value drawn for metric `m` of the `i`-th selected evaluator.
 */
module Evaluators {
  import opened Wrappers
  import opened Text
  import opened OrderedDict
  import opened Guardrails

  // ---------------------------------------------------------------------------
  // The registry
  // ---------------------------------------------------------------------------

  /** The seven evaluators the application offers. */
  datatype Evaluator = Quality | Fairness | Drift | GuardrailsCheck | PromptTemplate | RagMetrics | ModelRisk

  /** The display order of the registry. */
  const Registry: seq<Evaluator> := [Quality, Fairness, Drift, GuardrailsCheck, PromptTemplate, RagMetrics, ModelRisk]

  const StatusKey: string := "status"

  function Name(e: Evaluator): string
  {
    match e
    case Quality => "Quality Evaluation"
    case Fairness => "Fairness Evaluation"
    case Drift => "Drift Evaluation"
    case GuardrailsCheck => "Guardrails Evaluation"
    case PromptTemplate => "Prompt Template Evaluation"
    case RagMetrics => "RAG Metrics Evaluation"
    case ModelRisk => "Model Risk Evaluation"
  }

  function Description(e: Evaluator): string
  {
    match e
    case Quality => "Evaluate model output quality and accuracy"
    case Fairness => "Assess model fairness across different groups"
    case Drift => "Detect data drift and model performance drift"
    case GuardrailsCheck => "Apply content safety and policy guardrails"
    case PromptTemplate => "Evaluate prompt template effectiveness"
    case RagMetrics => "Evaluate Retrieval-Augmented Generation performance"
    case ModelRisk => "Assess risks associated with foundation models"
  }

  /** The metrics an evaluator lists: three or four distinct names, none of them `status`. */
  function Metrics(e: Evaluator): (ms: seq<string>)
    ensures 3 <= |ms| <= 4 && Distinct(ms) && StatusKey !in ms
  {
    match e
    case Quality => ["accuracy", "precision", "recall", "f1_score"]
    case Fairness => ["demographic_parity", "equalized_odds", "statistical_parity"]
    case Drift => ["data_drift", "prediction_drift", "accuracy_drift"]
    case GuardrailsCheck => ["content_safety", "toxicity", "bias_detection"]
    case PromptTemplate => ["relevance", "coherence", "completeness"]
    case RagMetrics => ["retrieval_accuracy", "answer_relevance", "context_precision"]
    case ModelRisk => ["risk_score", "vulnerability_assessment", "compliance_check"]
  }

  datatype EvaluatorInfo = EvaluatorInfo(description: string, metrics: seq<string>)

  function Info(e: Evaluator): EvaluatorInfo
  {
    EvaluatorInfo(Description(e), Metrics(e))
  }

  /** `name in get_available_evaluators()`, and which evaluator it names. */
  function Lookup(name: string): (r: Option<Evaluator>)
    ensures r.Some? ==> Name(r.value) == name
  {
    if name == Name(Quality) then Some(Quality)
    else if name == Name(Fairness) then Some(Fairness)
    else if name == Name(Drift) then Some(Drift)
    else if name == Name(GuardrailsCheck) then Some(GuardrailsCheck)
    else if name == Name(PromptTemplate) then Some(PromptTemplate)
    else if name == Name(RagMetrics) then Some(RagMetrics)
    else if name == Name(ModelRisk) then Some(ModelRisk)
    else None
  }

  /** The first letter of each name, all different. */
  function Initial(e: Evaluator): char
  {
    match e
    case Quality => 'Q'
    case Fairness => 'F'
    case Drift => 'D'
    case GuardrailsCheck => 'G'
    case PromptTemplate => 'P'
    case RagMetrics => 'R'
    case ModelRisk => 'M'
  }

  /** Distinct evaluators have distinct names, so the names can key a dictionary. */
  lemma NameInjective(a: Evaluator, b: Evaluator)
    ensures Name(a) == Name(b) <==> a == b
  {
    assert Name(a)[0] == Initial(a) && Name(b)[0] == Initial(b);
  }

  /** Looking a name up gives back its evaluator, and only the seven names are found. */
  lemma LookupName(e: Evaluator, name: string)
    ensures Lookup(Name(e)) == Some(e)
    ensures Lookup(name).None? <==> forall x :: Name(x) != name
  {
    forall x ensures Lookup(Name(x)) == Some(x) {
      match x
      case Quality =>
      case Fairness => NameInjective(x, Quality);
      case Drift => NameInjective(x, Quality); NameInjective(x, Fairness);
      case GuardrailsCheck =>
        NameInjective(x, Quality); NameInjective(x, Fairness); NameInjective(x, Drift);
      case PromptTemplate =>
        NameInjective(x, Quality); NameInjective(x, Fairness); NameInjective(x, Drift);
        NameInjective(x, GuardrailsCheck);
      case RagMetrics =>
        NameInjective(x, Quality); NameInjective(x, Fairness); NameInjective(x, Drift);
        NameInjective(x, GuardrailsCheck); NameInjective(x, PromptTemplate);
      case ModelRisk =>
        NameInjective(x, Quality); NameInjective(x, Fairness); NameInjective(x, Drift);
        NameInjective(x, GuardrailsCheck); NameInjective(x, PromptTemplate); NameInjective(x, RagMetrics);
    }
  }

  /** `get_available_evaluators()`: each evaluator's name with its description and metrics, in display order. */
  function AvailableEvaluators(): seq<(string, EvaluatorInfo)>
  {
    seq(|Registry|, i requires 0 <= i < |Registry| => (Name(Registry[i]), Info(Registry[i])))
  }

  /** The position of an evaluator in the registry's display order. */
  function Position(e: Evaluator): (k: nat)
    ensures k < |Registry| && Registry[k] == e
  {
    match e
    case Quality => 0
    case Fairness => 1
    case Drift => 2
    case GuardrailsCheck => 3
    case PromptTemplate => 4
    case RagMetrics => 5
    case ModelRisk => 6
  }

  /** The registry's names are distinct: it is a dictionary. */
  lemma RegistryKeysDistinct()
    ensures DistinctKeys(AvailableEvaluators())
  {
    var r := AvailableEvaluators();
    assert Distinct(Registry);
    forall i, j | 0 <= i < j < |r| ensures r[i].0 != r[j].0 {
      NameInjective(Registry[i], Registry[j]);
    }
  }

  /** Every evaluator is in the registry under its own name, with its description and metrics. */
  lemma RegistryEntry(e: Evaluator)
    ensures Get(AvailableEvaluators(), Name(e)) == Some(Info(e))
  {
    var r := AvailableEvaluators();
    RegistryKeysDistinct();
    assert r[Position(e)] == (Name(e), Info(e));
    GetDistinct(r, Name(e), Info(e));
  }

  // ---------------------------------------------------------------------------
  // The simulated report
  // ---------------------------------------------------------------------------

  /** A report value: a sampled score in thousandths, or a word such as the status. */
  datatype Value = Number(milli: Milli) | Word(text: string)

  /** One evaluator's results, keyed by metric name. */
  type Entries = seq<(string, Value)>

  type Sampler = (nat, string) -> Milli

  /**
   * The metrics the simulation fills for an evaluator: its own metrics for
   * the first three evaluators of the registry, `score` and `confidence` for
   * every other name.
   */
  function SimulatedMetrics(name: string): (ms: seq<string>)
    ensures Distinct(ms) && StatusKey !in ms
  {
    if name == Name(Quality) then ["accuracy", "precision", "recall", "f1_score"]
    else if name == Name(Fairness) then ["demographic_parity", "equalized_odds", "statistical_parity"]
    else if name == Name(GuardrailsCheck) then ["content_safety", "toxicity", "bias_detection"]
    else ["score", "confidence"]
  }

  /**
   * The results of the `i`-th selected evaluator: each of its metrics with a
   * sampled value, then `status = 'completed'`.
   */
  function SimulatedEntries(name: string, i: nat, sample: Sampler): Entries
  {
    var ms := SimulatedMetrics(name);
    seq(|ms|, j requires 0 <= j < |ms| => (ms[j], Number(sample(i, ms[j])))) + [(StatusKey, Word("completed"))]
  }

  /** `results['evaluations']` after the loop has visited `names`. */
  function Evaluations(names: seq<string>, sample: Sampler): seq<(string, Entries)>
  {
    if names == [] then []
    else
      var i := |names| - 1;
      Put(Evaluations(names[..i], sample), names[i], SimulatedEntries(names[i], i, sample))
  }

  datatype PromptConfig = PromptConfig(promptText: string, modelName: string)

  /**
   * The stored report: the prompt, the model, the per-evaluator results, and
   * the guardrail verdict when guardrails are enabled.
   */
  datatype Report = Report(
    prompt: string,
    model: string,
    evaluations: seq<(string, Entries)>,
    guardrails: Option<GuardrailResult>)

  function SimulatedReport(prompt: PromptConfig, names: seq<string>, sample: Sampler): Report
  {
    Report(prompt.promptText, prompt.modelName, Evaluations(names, sample), None)
  }

  /**
   * `simulate_evaluation`: one dictionary of results per selected evaluator,
   * assigned in the order of selection.
   */
  method SimulateEvaluation(prompt: PromptConfig, names: seq<string>, sample: Sampler) returns (r: Report)
    ensures r == SimulatedReport(prompt, names, sample)
  {
    var evaluations: seq<(string, Entries)> := [];
    for i := 0 to |names|
      invariant evaluations == Evaluations(names[..i], sample)
    {
      var name := names[i];
      var entries := SimulatedEntries(name, i, sample);
      assert names[..i + 1][..i] == names[..i] && names[..i + 1][i] == name;
      assert Evaluations(names[..i + 1], sample) == Put(Evaluations(names[..i], sample), name, entries);
      evaluations := Put(evaluations, name, entries);
    }
    assert names[..|names|] == names;
    r := Report(prompt.promptText, prompt.modelName, evaluations, None);
  }

  // ---------------------------------------------------------------------------
  // The CSV export
  // ---------------------------------------------------------------------------

  datatype CsvRow = CsvRow(evaluator: string, metric: string, value: Value)

  /** The rows of one evaluator: one per entry other than `status`, in order. */
  function EntryRows(name: string, entries: Entries): seq<CsvRow>
  {
    if entries == [] then []
    else
      var e := entries[|entries| - 1];
      EntryRows(name, entries[..|entries| - 1]) + (if e.0 != StatusKey then [CsvRow(name, e.0, e.1)] else [])
  }

  /** The rows of the whole report, evaluator by evaluator. */
  function ReportRows(evaluations: seq<(string, Entries)>): seq<CsvRow>
  {
    if evaluations == [] then []
    else
      var last := evaluations[|evaluations| - 1];
      ReportRows(evaluations[..|evaluations| - 1]) + EntryRows(last.0, last.1)
  }

  /** The download button's loop: one `(evaluator, metric, value)` row per non-status entry. */
  method CsvRows(evaluations: seq<(string, Entries)>) returns (rows: seq<CsvRow>)
    ensures rows == ReportRows(evaluations)
  {
    rows := [];
    for i := 0 to |evaluations|
      invariant rows == ReportRows(evaluations[..i])
    {
      var (name, entries) := evaluations[i];
      assert evaluations[..i + 1][..i] == evaluations[..i];
      for j := 0 to |entries|
        invariant rows == ReportRows(evaluations[..i]) + EntryRows(name, entries[..j])
      {
        assert entries[..j + 1][..j] == entries[..j];
        var (metric, value) := entries[j];
        if metric != StatusKey {
          rows := rows + [CsvRow(name, metric, value)];
        }
      }
      assert entries[..|entries|] == entries;
    }
    assert evaluations[..|evaluations|] == evaluations;
  }
}
