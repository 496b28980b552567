/**
 * What the session gate promises, rerun by rerun and over a whole session.
 * The rerun lemmas hold whatever verdicts the two guardrail checks return.
 */
module SessionFacts {
  import opened Wrappers
  import opened Text
  import opened OrderedDict
  import opened Guardrails
  import opened Evaluators
  import opened ReportFacts
  import opened Session

  /** The real-time check runs exactly for enabled guardrails and a prompt that is not all whitespace. */
  lemma RealTimeCheckRuns(input: PageInput)
    ensures RealTimeVerdict(input).Some? <==> input.config.enableGuardrails && !IsBlank(input.prompt.promptText)
  {
    StripEmptyIffBlank(input.prompt.promptText);
  }

  /** An invalid configuration stops the page and leaves the report and the last prompt alone. */
  lemma InvalidConfigurationStops(s: Store, input: PageInput, realtime: Option<GuardrailResult>, final: GuardrailResult)
    requires !CredentialsValid(input.credentials)
    ensures Gate(s, input, realtime, final) == (s.(configValid := false), NeedsConfiguration)
  {
  }

  /** The Run button goes ahead exactly for a prompt that is not all whitespace, a selection and a passing final check. */
  lemma RunGoesAheadIff(input: PageInput, final: GuardrailResult)
    ensures RunRefusal(input, final).None? <==>
      !IsBlank(input.prompt.promptText) && input.selected != []
      && (input.config.enableGuardrails ==> final.Passed())
  {
    StripEmptyIffBlank(input.prompt.promptText);
  }

  /**
   * A rerun stores a fresh report exactly when the configuration is valid,
   * Run was pressed, the prompt is not blank after stripping, an evaluator is selected, the
   * real-time check (if it ran) passed and, with guardrails on, the final check passed.
   */
  lemma EvaluatedIff(s: Store, input: PageInput, realtime: Option<GuardrailResult>, final: GuardrailResult)
    ensures Gate(s, input, realtime, final).1 == Evaluated <==>
      CredentialsValid(input.credentials) && input.click == RunClicked
      && Strip(input.prompt.promptText) != [] && input.selected != []
      && (realtime.Some? ==> realtime.value.Passed())
      && (input.config.enableGuardrails ==> final.Passed())
  {
    if CredentialsValid(input.credentials) && !(realtime.Some? && !realtime.value.Passed()) {
      var observed := Observe(s.(configValid := true), input.prompt.promptText);
      assert Gate(s, input, realtime, final) == AfterClick(observed, input, realtime, final);
    }
  }

  /** A run that passes every check replaces the report of the observed prompt with the fresh one. */
  lemma EvaluatedStores(s: Store, input: PageInput, realtime: Option<GuardrailResult>, final: GuardrailResult)
    requires CredentialsValid(input.credentials) && input.click == RunClicked
    requires Strip(input.prompt.promptText) != [] && input.selected != []
    requires realtime.Some? ==> realtime.value.Passed()
    requires input.config.enableGuardrails ==> final.Passed()
    ensures Gate(s, input, realtime, final) ==
      (Observe(s.(configValid := true), input.prompt.promptText).(results := Some(StoredReport(input, realtime))), Evaluated)
  {
  }

  /**
   * The report a run stores: the prompt and the model, one entry per
   * selected evaluator and no other, each completed, and the real-time
   * verdict exactly when guardrails are on.
   */
  lemma StoredReportShape(input: PageInput, realtime: Option<GuardrailResult>)
    ensures StoredReport(input, realtime).prompt == input.prompt.promptText
    ensures StoredReport(input, realtime).model == input.prompt.modelName
    ensures forall k :: k in Keys(StoredReport(input, realtime).evaluations) <==> k in input.selected
    ensures DistinctKeys(StoredReport(input, realtime).evaluations)
    ensures forall k | k in input.selected ::
      Get(StoredReport(input, realtime).evaluations, k).Some?
      && Get(Get(StoredReport(input, realtime).evaluations, k).value, StatusKey) == Some(Word("completed"))
    ensures StoredReport(input, realtime).guardrails == if input.config.enableGuardrails then realtime else None
  {
    var evaluations := Evaluations(input.selected, input.sample);
    assert StoredReport(input, realtime).evaluations == evaluations;
    EvaluationKeys(input.selected, input.sample);
    forall k | k in input.selected
      ensures Get(evaluations, k).Some? && Get(Get(evaluations, k).value, StatusKey) == Some(Word("completed"))
    {
      EveryEvaluationCompleted(input.selected, input.sample, k);
    }
  }

  /** On a real rerun, the stored report carries the real-time verdict exactly when guardrails are on. */
  lemma EvaluatedReportGuardrails(s: Store, input: PageInput)
    requires AfterRerun(s, input).1 == Evaluated
    ensures AfterRerun(s, input).0.results == Some(StoredReport(input, RealTimeVerdict(input)))
    ensures AfterRerun(s, input).0.lastPrompt == input.prompt.promptText
    ensures StoredReport(input, RealTimeVerdict(input)).guardrails ==
      if input.config.enableGuardrails
      then Some(Verdict(input.prompt.promptText, input.config, input.realtimeDraws, input.scan))
      else None
  {
    EvaluatedIff(s, input, RealTimeVerdict(input), FinalVerdict(input));
    EvaluatedStores(s, input, RealTimeVerdict(input), FinalVerdict(input));
  }

  /** A blank prompt, an empty selection or a failing final check stores nothing. */
  lemma RefusedRunStoresNothing(s: Store, input: PageInput, realtime: Option<GuardrailResult>, final: GuardrailResult)
    requires CredentialsValid(input.credentials) && input.click == RunClicked
    requires Strip(input.prompt.promptText) == [] || input.selected == []
      || (input.config.enableGuardrails && !final.Passed())
    ensures Gate(s, input, realtime, final).1 != Evaluated
    ensures Gate(s, input, realtime, final).0 == Observe(s.(configValid := true), input.prompt.promptText)
  {
    assert RunRefusal(input, final).Some?;
  }

  /** A failing real-time check stops the page before either button can act. */
  lemma BlockedPromptReachesNoButton(s: Store, input: PageInput, realtime: Option<GuardrailResult>, final: GuardrailResult)
    requires CredentialsValid(input.credentials) && realtime.Some? && !realtime.value.Passed()
    ensures Gate(s, input, realtime, final) ==
      (Observe(s.(configValid := true), input.prompt.promptText), Blocked(realtime.value))
  {
  }

  /** A new prompt becomes the last prompt, and the old report is gone unless this rerun stored a new one. */
  lemma ChangedPromptClearsReport(s: Store, input: PageInput, realtime: Option<GuardrailResult>, final: GuardrailResult)
    requires CredentialsValid(input.credentials) && input.prompt.promptText != s.lastPrompt
    ensures Gate(s, input, realtime, final).0.lastPrompt == input.prompt.promptText
    ensures Gate(s, input, realtime, final).0.results.Some? ==> Gate(s, input, realtime, final).1 == Evaluated
  {
    var observed := Observe(s.(configValid := true), input.prompt.promptText);
    assert observed.results == None && observed.lastPrompt == input.prompt.promptText;
  }

  /** Without a click, an unchanged prompt keeps the stored report. */
  lemma SamePromptKeepsReport(s: Store, input: PageInput, realtime: Option<GuardrailResult>, final: GuardrailResult)
    requires input.prompt.promptText == s.lastPrompt && input.click == NoClick
    ensures Gate(s, input, realtime, final).0.results == s.results
    ensures Gate(s, input, realtime, final).0.lastPrompt == s.lastPrompt
  {
  }

  /** Reset clears the report whenever the page gets as far as the buttons. */
  lemma ResetClearsReport(s: Store, input: PageInput, realtime: Option<GuardrailResult>, final: GuardrailResult)
    requires CredentialsValid(input.credentials) && input.click == ResetClicked
    requires realtime.Some? ==> realtime.value.Passed()
    ensures Gate(s, input, realtime, final) ==
      (Observe(s.(configValid := true), input.prompt.promptText).(results := None), ResetDone)
  {
  }

  // ---------------------------------------------------------------------------
  // Over a whole session
  // ---------------------------------------------------------------------------

  /**
   * A stored report belongs to the prompt last seen and, when it carries a
   * guardrail verdict, that verdict passed.
   */
  predicate Consistent(s: Store)
  {
    s.results.Some? ==>
      s.results.value.prompt == s.lastPrompt
      && (s.results.value.guardrails.Some? ==> s.results.value.guardrails.value.Passed())
  }

  /** A rerun that stores no fresh report either clears the report or keeps it together with its prompt. */
  lemma OnlyEvaluationReplacesReport(s: Store, input: PageInput, realtime: Option<GuardrailResult>, final: GuardrailResult)
    requires Gate(s, input, realtime, final).1 != Evaluated
    ensures Gate(s, input, realtime, final).0.results == None
      || (Gate(s, input, realtime, final).0.results == s.results
          && Gate(s, input, realtime, final).0.lastPrompt == s.lastPrompt)
  {
    if CredentialsValid(input.credentials) && !(realtime.Some? && !realtime.value.Passed()) {
      var observed := Observe(s.(configValid := true), input.prompt.promptText);
      assert Gate(s, input, realtime, final) == AfterClick(observed, input, realtime, final);
      if input.click == RunClicked {
        assert RunRefusal(input, final).Some?;
      }
    }
  }

  lemma GateKeepsConsistent(s: Store, input: PageInput, realtime: Option<GuardrailResult>, final: GuardrailResult)
    requires Consistent(s)
    ensures Consistent(Gate(s, input, realtime, final).0)
  {
    if Gate(s, input, realtime, final).1 == Evaluated {
      EvaluatedIff(s, input, realtime, final);
      EvaluatedStores(s, input, realtime, final);
      StoredReportShape(input, realtime);
    } else {
      OnlyEvaluationReplacesReport(s, input, realtime, final);
    }
  }

  /** The store after a session of reruns, starting from `s`. */
  function AfterSession(s: Store, inputs: seq<PageInput>): Store
  {
    if inputs == [] then s else AfterRerun(AfterSession(s, inputs[..|inputs| - 1]), inputs[|inputs| - 1]).0
  }

  /** Every store a session reaches from a new session is consistent. */
  lemma {:induction false} SessionStaysConsistent(inputs: seq<PageInput>)
    ensures Consistent(AfterSession(InitialStore, inputs))
  {
    if inputs != [] {
      var last := inputs[|inputs| - 1];
      SessionStaysConsistent(inputs[..|inputs| - 1]);
      GateKeepsConsistent(AfterSession(InitialStore, inputs[..|inputs| - 1]), last, RealTimeVerdict(last), FinalVerdict(last));
    }
  }
}
