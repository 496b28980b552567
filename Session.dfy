/**
 * The page's session state and the gate that decides, on every rerun of the
 * script, whether a stored evaluation report survives, is replaced or is cleared.
 */
module Session {
  import opened Wrappers
  import opened Text
  import opened Guardrails
  import opened Evaluators

  /** The three watsonx fields of the sidebar. */
  datatype Credentials = Credentials(apiKey: string, projectId: string, instanceId: string)

  /** `bool(api_key and project_id and instance_id)`. */
  predicate CredentialsValid(c: Credentials)
  {
    c.apiKey != [] && c.projectId != [] && c.instanceId != []
  }

  /** Which of the two buttons was pressed on this rerun (a rerun follows at most one click). */
  datatype Click = NoClick | RunClicked | ResetClicked

  /**
   * Everything one rerun reads from outside: the widgets, the click, and the
   * random draws and pattern scans of the two guardrail checks and of the simulation.
   */
  datatype PageInput = PageInput(
    credentials: Credentials,
    config: AppConfig,
    prompt: PromptConfig,
    selected: seq<string>,
    click: Click,
    realtimeDraws: Draws,
    finalDraws: Draws,
    scan: Scanner,
    sample: Sampler)

  /** `st.session_state`: the stored report, the configuration flag and the last prompt seen. */
  datatype Store = Store(results: Option<Report>, configValid: bool, lastPrompt: string)

  /** How a rerun ends. */
  datatype Outcome =
    | NeedsConfiguration
    | Blocked(verdict: GuardrailResult)
    | Idle
    | EmptyPrompt
    | NoEvaluators
    | FinalCheckFailed
    | Evaluated
    | ResetDone

  /** The values `initialize_session_state` gives the keys a new session lacks. */
  const InitialStore: Store := Store(None, false, "")

  // ---------------------------------------------------------------------------
  // One rerun, step by step
  // ---------------------------------------------------------------------------

  /** A prompt that differs from the last one seen clears the report and becomes the last prompt. */
  function Observe(s: Store, current: string): Store
  {
    if current != s.lastPrompt then s.(results := None, lastPrompt := current) else s
  }

  /** The real-time check runs when guardrails are on and the prompt is not blank after stripping. */
  predicate ChecksInRealTime(input: PageInput)
  {
    input.config.enableGuardrails && Strip(input.prompt.promptText) != []
  }

  /** The verdict of the real-time check, when it ran. */
  function RealTimeVerdict(input: PageInput): Option<GuardrailResult>
  {
    if ChecksInRealTime(input) then
      Some(Verdict(input.prompt.promptText, input.config, input.realtimeDraws, input.scan))
    else None
  }

  /** The verdict of the check the Run button repeats just before evaluating. */
  function FinalVerdict(input: PageInput): GuardrailResult
  {
    Verdict(input.prompt.promptText, input.config, input.finalDraws, input.scan)
  }

  /** The report a successful run stores: the simulation, plus the real-time verdict when guardrails are on. */
  function StoredReport(input: PageInput, realtime: Option<GuardrailResult>): Report
  {
    var report := SimulatedReport(input.prompt, input.selected, input.sample);
    if input.config.enableGuardrails then report.(guardrails := realtime) else report
  }

  /**
   * Why the Run button refuses to evaluate, checked in this order, given the
   * verdict the final check returns; `None` when it goes ahead.
   */
  function RunRefusal(input: PageInput, final: GuardrailResult): Option<Outcome>
  {
    if Strip(input.prompt.promptText) == [] then Some(EmptyPrompt)
    else if input.selected == [] then Some(NoEvaluators)
    else if input.config.enableGuardrails && !final.Passed() then Some(FinalCheckFailed)
    else None
  }

  /** The Run button: a refusal leaves the store as it is; otherwise the report is stored. */
  function AfterRun(s: Store, input: PageInput, realtime: Option<GuardrailResult>, final: GuardrailResult): (Store, Outcome)
  {
    match RunRefusal(input, final)
    case Some(refusal) => (s, refusal)
    case None => (s.(results := Some(StoredReport(input, realtime))), Evaluated)
  }

  /** The Reset button. */
  function AfterReset(s: Store): Store
  {
    s.(results := None)
  }

  /** What the pressed button does, once the page has got past its checks. */
  function AfterClick(s: Store, input: PageInput, realtime: Option<GuardrailResult>, final: GuardrailResult): (Store, Outcome)
  {
    match input.click
    case NoClick => (s, Idle)
    case ResetClicked => (AfterReset(s), ResetDone)
    case RunClicked => AfterRun(s, input, realtime, final)
  }

  /**
   * One rerun of `main`, given the verdicts of its two guardrail checks: the
   * sidebar sets the configuration flag; an invalid configuration stops the
   * page; the prompt is observed; a failing real-time check stops the page
   * before the buttons; then the click takes effect.
   */
  function Gate(s: Store, input: PageInput, realtime: Option<GuardrailResult>, final: GuardrailResult): (Store, Outcome)
  {
    var configured := s.(configValid := CredentialsValid(input.credentials));
    if !configured.configValid then (configured, NeedsConfiguration)
    else
      var observed := Observe(configured, input.prompt.promptText);
      if realtime.Some? && !realtime.value.Passed() then (observed, Blocked(realtime.value))
      else AfterClick(observed, input, realtime, final)
  }

  /** One rerun of `main`, with the verdicts the two checks return on its inputs. */
  function AfterRerun(s: Store, input: PageInput): (Store, Outcome)
  {
    Gate(s, input, RealTimeVerdict(input), FinalVerdict(input))
  }

  /** The real-time check, run only for an enabled configuration and a prompt that is not blank. */
  method CheckInRealTime(input: PageInput) returns (realtime: Option<GuardrailResult>)
    ensures realtime == RealTimeVerdict(input)
  {
    realtime := None;
    var text := input.prompt.promptText;
    if input.config.enableGuardrails && Strip(text) != [] {
      var verdict := EvaluateGuardrails(text, input.config, input.realtimeDraws, input.scan);
      realtime := Some(verdict);
    }
  }

  /** The checks of the Run button, the final guardrail check among them. */
  method CheckRun(input: PageInput) returns (refusal: Option<Outcome>)
    ensures refusal == RunRefusal(input, FinalVerdict(input))
  {
    var text := input.prompt.promptText;
    if Strip(text) == [] {
      return Some(EmptyPrompt);
    }
    if input.selected == [] {
      return Some(NoEvaluators);
    }
    refusal := None;
    if input.config.enableGuardrails {
      var final := EvaluateGuardrails(text, input.config, input.finalDraws, input.scan);
      if !final.Passed() {
        refusal := Some(FinalCheckFailed);
      }
    }
  }

  // ---------------------------------------------------------------------------
  // The session state as the page mutates it
  // ---------------------------------------------------------------------------

  class SessionState {
    var evaluationResults: Option<Report>
    var configValid: bool
    var lastPrompt: string

    function Snapshot(): Store
      reads this
    {
      Store(evaluationResults, configValid, lastPrompt)
    }

    /** `initialize_session_state` on a new session. */
    constructor ()
      ensures Snapshot() == InitialStore
    {
      evaluationResults := None;
      configValid := false;
      lastPrompt := "";
    }

    method ObservePrompt(current: string)
      modifies this
      ensures Snapshot() == Observe(old(Snapshot()), current)
    {
      if current != lastPrompt {
        evaluationResults := None;
        lastPrompt := current;
      }
    }

    method Reset()
      modifies this
      ensures Snapshot() == AfterReset(old(Snapshot()))
    {
      evaluationResults := None;
    }

    method RunEvaluation(input: PageInput, realtime: Option<GuardrailResult>) returns (outcome: Outcome)
      modifies this
      ensures Snapshot() == AfterRun(old(Snapshot()), input, realtime, FinalVerdict(input)).0
      ensures outcome == AfterRun(old(Snapshot()), input, realtime, FinalVerdict(input)).1
    {
      var refusal := CheckRun(input);
      if refusal.Some? {
        return refusal.value;
      }
      StoreReport(input, realtime);
      outcome := Evaluated;
    }

    /** The simulation, with the real-time verdict added when guardrails are on, becomes the stored report. */
    method StoreReport(input: PageInput, realtime: Option<GuardrailResult>)
      modifies this
      ensures Snapshot() == old(Snapshot()).(results := Some(StoredReport(input, realtime)))
    {
      var results := SimulateEvaluation(input.prompt, input.selected, input.sample);
      if input.config.enableGuardrails {
        results := results.(guardrails := realtime);
      }
      evaluationResults := Some(results);
    }

    method HandleClick(input: PageInput, realtime: Option<GuardrailResult>) returns (outcome: Outcome)
      modifies this
      ensures Snapshot() == AfterClick(old(Snapshot()), input, realtime, FinalVerdict(input)).0
      ensures outcome == AfterClick(old(Snapshot()), input, realtime, FinalVerdict(input)).1
    {
      match input.click
      case NoClick =>
        outcome := Idle;
      case ResetClicked =>
        Reset();
        outcome := ResetDone;
      case RunClicked =>
        outcome := RunEvaluation(input, realtime);
    }

    /** One rerun of `main`, as far as it concerns the session state. */
    method Rerun(input: PageInput) returns (outcome: Outcome)
      modifies this
      ensures Snapshot() == AfterRerun(old(Snapshot()), input).0
      ensures outcome == AfterRerun(old(Snapshot()), input).1
    {
      configValid := CredentialsValid(input.credentials);
      if !configValid {
        return NeedsConfiguration;
      }
      ObservePrompt(input.prompt.promptText);
      var realtime := CheckInRealTime(input);
      if realtime.Some? && !realtime.value.Passed() {
        return Blocked(realtime.value);
      }
      outcome := HandleClick(input, realtime);
    }
  }
}
