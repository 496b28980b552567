# watsonx governance prompt evaluator — a Dafny model of its core

The application is a Streamlit page. The user enters a prompt and picks
governance evaluators. Before any evaluation, a real-time guardrail check
screens the prompt for toxicity, hate speech, profanity, personal data and
prompt injection. A passing prompt gets a simulated evaluation report,
which the page keeps in its session state.

This project models three parts of `app.py`:

- **The guardrail check** (`evaluate_guardrails_realtime`), in modules
  `Guardrails` and `GuardrailFacts`:
  - five detectors, each with its own score and violation rule;
  - the merge into one verdict: `passed`, the ordered violation list,
    the scores of the enabled checks, and the message;
  - the imperative method `EvaluateGuardrails`, which mirrors the
    function's sequence of `if` blocks. It is proved equal to the
    functional verdict `Verdict`.
- **The evaluator registry and the simulation** (`get_available_evaluators`,
  `simulate_evaluation` and the CSV flattening of the report), in modules
  `Evaluators`, `OrderedDict` and `ReportFacts`. Python dictionaries are
  association lists, so insertion order is part of the value.
- **The session gate of `main`**, in modules `Session` and `SessionFacts`.
  - On each rerun of the script, the gate decides whether the stored report
    survives, is replaced or is cleared.
  - `Session.SessionState` is a class with the three session-state fields.
    Its `Rerun` method is proved equal to the step function `AfterRerun`.
  - The gate properties are lemmas about `Gate`, the same step with the two
    guardrail verdicts as parameters. They therefore hold whatever verdict
    the checks return.

Supporting modules: `Text` (lower-casing, `strip`, counting, joining,
decimal formatting) and `Wrappers` (`Option`).

**Scores are integer thousandths** (`Guardrails.Milli`: 700 stands for
0.7).
- Every constant of the checks is a multiple of 0.1, so it is exact in
  this unit.
- The stored scores are rounded to three decimals, so they are exact in
  this unit too.
- The model's sums agree with the source's float sums, and hence so do
  its verdicts. For example, at l.312-317 one injection pattern plus the
  special-character bonus gives 0.3 + 0.2. That is exactly 0.5 in binary
  floating point, so it is not above the threshold.

**Inputs the model takes as parameters.** These are the things the source
gets from randomness, regular expressions or the user interface:
- The random draws of the toxicity and hate-speech checks are `Draws`.
  The real-time check and the final check get separate draws, as the
  source draws again at l.577. `Draws.InRange` states the sampler ranges.
- The regular-expression searches are the matchers of a `Scanner`: PII
  categories, injection patterns, and runs of special characters.
- The simulated metric values come from a `Sampler`.
- The widgets, the selected evaluators and the button pressed make up a
  `Session.PageInput`.

## Model

| member | source | states |
|---|---|---|
| Text.Lower | app.py:225 | `prompt_text.lower()` keeps the length and lower-cases each ASCII letter, leaving other characters alone |
| Text.StripEmptyIffBlank | app.py:526 | `not s.strip()` holds exactly when every character is Python whitespace |
| Text.CountChar | app.py:319 | `text.count(c)` is at most the length, and is zero exactly when `c` does not occur |
| Text.CountWhereDistinct | app.py:258 | over a list without repeats, `sum(1 for x in xs if p(x))` is the number of distinct elements that pass |
| Text.FormatMilliRoundTrip | app.py:240 | the `{score:.3f}` text of a score is `<int>.<3 digits>` and reads back as the same score |
| Guardrails.Cap | app.py:259 | `min(x, 1.0)`: never above 1.0, and equal to `x` unless `x` exceeds 1.0 |
| Guardrails.ToxicityCheck | app.py:227-240 | the toxicity block computes the toxicity detection: the low draw (or the high one on a keyword) and a violation above the threshold |
| Guardrails.HateSpeechCheck | app.py:242-253 | the hate-speech block computes the hate-speech detection |
| Guardrails.ProfanityCheck | app.py:255-265 | the profanity block computes the profanity detection |
| Guardrails.PiiCheck | app.py:267-287 | the PII block computes the PII detection: categories email, phone, ssn in that order |
| Guardrails.InjectionCheck | app.py:289-327 | the injection loop and heuristics compute the injection detection |
| Guardrails.Step | app.py:227-327 | after each block, `passed`, `violations` and `scores` describe exactly the checks run so far |
| Guardrails.EvaluateGuardrails | app.py:205-333 | the function's result is the verdict `Verdict`: disabled, or the merge of the five detections |
| Guardrails.NoViolationsIffAllPass | app.py:238-327 | no violation is recorded exactly when no enabled check fires |
| Guardrails.CombineByViolations | app.py:329-331 | the verdict passes exactly when the violation list is empty; the message follows from that |
| GuardrailFacts.DisabledPassesAnything | app.py:207-208 | with guardrails off, every text passes with "Guardrails disabled", and nothing depends on the text or the draws |
| GuardrailFacts.PassedIffNoViolations | app.py:217-222 | with guardrails on: `passed` iff no violations; message "All guardrails passed" or "Guardrails violations: " + the labels joined by "; " |
| GuardrailFacts.FailsIffSomeEnabledCheckFires | app.py:228-327 | the verdict fails exactly when some enabled check is violated |
| GuardrailFacts.ScoresExactlyEnabled | app.py:236-323 | the scores hold one entry per enabled check, with that check's score, in check order; a disabled check has none |
| GuardrailFacts.ViolationsInCheckOrder | app.py:238-327 | each violation belongs to an enabled check that fired, every such check has its violation, and they appear in check order |
| GuardrailFacts.AllChecksOffPasses | app.py:217-222 | guardrails on with every check off: passed, no violations, no scores, "All guardrails passed" |
| GuardrailFacts.KeywordChecksIgnoreCase | app.py:225-258 | the toxicity, hate-speech and profanity scores do not change when the text is lower-cased first |
| GuardrailFacts.ToxicityRule | app.py:228-240 | violation iff score > threshold, default 0.7; without a keyword the score is at most 0.3, with one it is 0.6..0.9 |
| GuardrailFacts.NoToxicKeywordPasses | app.py:229-238 | without a toxic keyword, any threshold of at least 0.3 lets the text pass |
| GuardrailFacts.HateSpeechRule | app.py:243-253 | violation iff score > 0.5, iff a hate keyword occurs in the lower-cased text |
| GuardrailFacts.ProfanityRule | app.py:256-265 | count = number of distinct listed words present; score = min(0.3 × count, 1); violation iff at least 2 words |
| GuardrailFacts.PiiRule | app.py:268-287 | a category is found iff its matcher says so, in order email, phone, ssn; score = min(0.5 × n, 1); violation iff any is found, naming the categories |
| GuardrailFacts.PatternHitsDistinct | app.py:310-313 | the pattern count is the number of distinct patterns that match; it is zero iff none match |
| GuardrailFacts.InjectionRule | app.py:290-327 | violation iff score > 0.5, iff two patterns match, or one does and both heuristics fire; no signal gives score 0 |
| OrderedDict.PutKeys | app.py:355 | `d[k] = v` keeps the key order and appends a new key at the end |
| OrderedDict.PutGet | app.py:355 | after `d[k] = v`, `k` looks up `v` and every other key looks up what it did before |
| OrderedDict.PutKeepsKeysDistinct | app.py:355 | assignment keeps the keys distinct |
| Evaluators.Metrics | app.py:88-119 | each registry entry lists 3 or 4 distinct metrics, none of them `status` |
| Evaluators.LookupName | app.py:88-119 | every evaluator is found by its own name, and a name is unknown exactly when no evaluator has it |
| Evaluators.RegistryKeysDistinct | app.py:90-119 | the seven registry names are distinct |
| Evaluators.RegistryEntry | app.py:90-119 | each evaluator's name looks up its own description and metrics |
| Evaluators.SimulatedMetrics | app.py:354-382 | the metrics each branch of the simulation reports are distinct and never `status` |
| Evaluators.SimulateEvaluation | app.py:335-384 | the loop builds the report of the prompt, the model and the evaluations, assigned in selection order |
| Evaluators.CsvRows | app.py:482-490 | the nested loops yield the rows of `ReportRows` |
| ReportFacts.SimulatedEntriesShape | app.py:354-382 | each evaluator's results are its metrics with sampled values, then `status = 'completed'`, with no repeated key |
| ReportFacts.SimulatedMetricsAgainstRegistry | app.py:354-382 | quality, fairness and guardrails report their registry metrics; the other four report `score` and `confidence` instead |
| ReportFacts.EvaluationKeys | app.py:351-382 | the evaluations are keyed by exactly the selected names, without repeats |
| ReportFacts.EvaluationKeysInOrder | app.py:351-382 | with distinct selections, the keys are the selection in order |
| ReportFacts.EvaluationOfSelected | app.py:351-382 | a name selected several times holds the results of its last selection |
| ReportFacts.EveryEvaluationCompleted | app.py:355-382 | each selected evaluator's results have its metrics then `status`, and the status is `completed` |
| ReportFacts.SimulationOnlyStatusIsWord | app.py:355-382 | in a simulated report, `status` is the only entry whose value is text |
| ReportFacts.RowsComplete | app.py:483-490 | every non-`status` entry of every evaluator has its CSV row |
| ReportFacts.RowsSound | app.py:483-490 | every CSV row is a non-`status` entry of the evaluator it names |
| ReportFacts.SimulatedRowsAreNumbers | app.py:483-490 | every exported value of a simulated report is a number |
| Session.CheckInRealTime | app.py:526-529 | the real-time verdict is computed exactly when guardrails are on and the stripped prompt is not empty |
| Session.CheckRun | app.py:567-580 | the Run button refuses, in order, a blank prompt, an empty selection and a failing final check |
| Session.SessionState.constructor | app.py:18-25 | a new session starts with no report, an invalid configuration and an empty last prompt |
| Session.SessionState.ObservePrompt | app.py:519-523 | a changed prompt clears the report and becomes the last prompt; an equal one changes nothing |
| Session.SessionState.Reset | app.py:595-597 | Reset clears the report and nothing else |
| Session.SessionState.RunEvaluation | app.py:566-593 | a refused run changes nothing; otherwise the report is stored |
| Session.SessionState.StoreReport | app.py:583-589 | the stored report is the simulation, plus the real-time verdict when guardrails are on |
| Session.SessionState.HandleClick | app.py:565-598 | the pressed button takes effect |
| Session.SessionState.Rerun | app.py:503-598 | one rerun of `main` changes the session state as `AfterRerun` says |
| SessionFacts.RealTimeCheckRuns | app.py:526 | the real-time check runs iff guardrails are on and the prompt is not all whitespace |
| SessionFacts.InvalidConfigurationStops | app.py:511-514 | missing credentials stop the page and leave the report and the last prompt as they were |
| SessionFacts.RunGoesAheadIff | app.py:567-580 | Run goes ahead iff the prompt is not all whitespace, an evaluator is selected and, with guardrails on, the final check passes |
| SessionFacts.EvaluatedIff | app.py:511-589 | a report is stored iff: the configuration is valid; Run was pressed; the prompt is non-blank; an evaluator is selected; the real-time check (if it ran) passed; the final check (if on) passed |
| SessionFacts.EvaluatedStores | app.py:566-589 | when every check passes, Run stores the fresh report of the current prompt and ends as evaluated |
| SessionFacts.StoredReportShape | app.py:583-589 | the stored report has the prompt, the model and evaluations keyed exactly by the selection, each completed; a guardrails entry exactly when guardrails are on |
| SessionFacts.EvaluatedReportGuardrails | app.py:587-588 | the guardrails entry of a stored report is the real-time verdict, not the final one |
| SessionFacts.RefusedRunStoresNothing | app.py:567-580 | a prompt that is blank after stripping, an empty selection, or a failing final check stores nothing |
| SessionFacts.BlockedPromptReachesNoButton | app.py:552-554 | a failing real-time check ends the rerun before either button acts |
| SessionFacts.ChangedPromptClearsReport | app.py:519-523 | a changed prompt becomes the last prompt, and no report survives unless this rerun stored one |
| SessionFacts.SamePromptKeepsReport | app.py:519-523 | without a click, an unchanged prompt keeps the report |
| SessionFacts.ResetClearsReport | app.py:595-597 | Reset clears the report whenever the page reaches the buttons |
| SessionFacts.OnlyEvaluationReplacesReport | app.py:519-597 | a rerun that stores nothing either clears the report or keeps it with its prompt |
| SessionFacts.GateKeepsConsistent | app.py:519-589 | a stored report belongs to the last prompt, and carries only a passing verdict; every rerun keeps both |
| SessionFacts.SessionStaysConsistent | app.py:18-25 | every store reached from a new session, over any sequence of reruns, is consistent |

## Left out

- The page layout: headers, columns, tables, and the results display (`render_results`). It is output only.
- The widgets themselves are left out; their values arrive in `PageInput`. This covers:
  - the sidebar (`render_configuration_sidebar`);
  - the prompt box and model choice (`render_prompt_input`);
  - evaluator selection (`render_evaluator_selection`).
- The sidebar's only effect on the session state is modelled: `config_valid` is set from the three credentials (app.py:71-72).
- Environment variables and `load_dotenv` are left out. They only pre-fill widgets.
- Randomness is modelled as parameters (`Draws`, `Sampler`); the ranges of the simulated metrics are not modelled.
- The regular expressions are modelled as `Scanner` matchers; their semantics are not modelled.
- Guardrails.ToxicityDetection: takes the random draw in thousandths, the unit of the stored score (app.py:236 and 249 round to three decimals). The source compares the unrounded draw with the threshold (l.238, l.251). A draw strictly between a threshold and the next thousandth therefore has no counterpart in the model.
- Guardrails.HateSpeechDetection: the same thousandths abstraction as the toxicity check.
- Text.Lower: lower-cases ASCII letters only. `str.lower()` also maps other Unicode letters.
- `confidence_threshold` (app.py:65-68) is not modelled. It is set but never read.
- `time.sleep` in the simulation is left out: it only delays.
- The `try`/`except` around the simulation (app.py:584-593) is left out. The modelled simulation cannot raise.
- `json.dumps` of the report is left out, as are the pandas CSV text and the download buttons. The CSV model stops at the rows that are passed to pandas (`CsvRows`).
- `st.rerun()` after Reset is left out. The next rerun is simply the next `PageInput`.
- A rerun is assumed to follow at most one button click, as in Streamlit; concurrency between sessions is not modelled.
