/**
 * What the simulated report promises: which evaluators it holds, what each
 * one's results look like, and which rows its CSV export has.
 */
module ReportFacts {
  import opened Wrappers
  import opened Text
  import opened OrderedDict
  import opened Evaluators

  /**
   * Each evaluator's results are its simulated metrics with their sampled
   * values, followed by `status = 'completed'`.
   */
  lemma SimulatedEntriesShape(name: string, i: nat, sample: Sampler)
    ensures Keys(SimulatedEntries(name, i, sample)) == SimulatedMetrics(name) + [StatusKey]
    ensures forall j | 0 <= j < |SimulatedMetrics(name)| ::
      SimulatedEntries(name, i, sample)[j].1 == Number(sample(i, SimulatedMetrics(name)[j]))
    ensures Get(SimulatedEntries(name, i, sample), StatusKey) == Some(Word("completed"))
    ensures DistinctKeys(SimulatedEntries(name, i, sample))
  {
    var e := SimulatedEntries(name, i, sample);
    var ms := SimulatedMetrics(name);
    assert Keys(e) == ms + [StatusKey];
    assert e[|ms|] == (StatusKey, Word("completed"));
    forall a, b | 0 <= a < b < |e| ensures e[a].0 != e[b].0 {
      assert Keys(e)[a] == e[a].0 && Keys(e)[b] == e[b].0;
    }
    GetDistinct(e, StatusKey, Word("completed"));
  }

  /**
   * The quality, fairness and guardrails evaluators report the metrics the
   * registry lists for them; the other four report `score` and `confidence`,
   * which are not their registry metrics.
   */
  lemma SimulatedMetricsAgainstRegistry(e: Evaluator)
    ensures e in {Quality, Fairness, GuardrailsCheck} ==> SimulatedMetrics(Name(e)) == Metrics(e)
    ensures e !in {Quality, Fairness, GuardrailsCheck} ==>
      SimulatedMetrics(Name(e)) == ["score", "confidence"] != Metrics(e)
  {
    NameInjective(e, Quality);
    NameInjective(e, Fairness);
    NameInjective(e, GuardrailsCheck);
  }

  /** The evaluations are keyed by exactly the selected evaluators, each once. */
  lemma {:induction false} EvaluationKeys(names: seq<string>, sample: Sampler)
    ensures forall k :: k in Keys(Evaluations(names, sample)) <==> k in names
    ensures DistinctKeys(Evaluations(names, sample))
  {
    if names != [] {
      var i := |names| - 1;
      var before := Evaluations(names[..i], sample);
      var after := Put(before, names[i], SimulatedEntries(names[i], i, sample));
      assert Evaluations(names, sample) == after;
      EvaluationKeys(names[..i], sample);
      PutKeys(before, names[i], SimulatedEntries(names[i], i, sample));
      PutKeepsKeysDistinct(before, names[i], SimulatedEntries(names[i], i, sample));
      forall k ensures k in Keys(after) <==> k in names {
        InInitOrLast(names, k);
      }
    }
  }

  /** An evaluator selected once each keeps the order of selection. */
  lemma {:induction false} EvaluationKeysInOrder(names: seq<string>, sample: Sampler)
    requires Distinct(names)
    ensures Keys(Evaluations(names, sample)) == names
  {
    if names != [] {
      var i := |names| - 1;
      var init := names[..i];
      var before := Evaluations(init, sample);
      var after := Put(before, names[i], SimulatedEntries(names[i], i, sample));
      assert Evaluations(names, sample) == after;
      DistinctInit(names);
      EvaluationKeysInOrder(init, sample);
      PutKeys(before, names[i], SimulatedEntries(names[i], i, sample));
      assert Keys(after) == init + [names[i]];
      assert names == init + [names[i]];
    }
  }

  /** The position of the last selection of `k`. */
  function LastPosition(names: seq<string>, k: string): (p: nat)
    requires k in names
    ensures p < |names| && names[p] == k
    ensures forall q | p < q < |names| :: names[q] != k
  {
    if names[|names| - 1] == k then |names| - 1 else LastPosition(names[..|names| - 1], k)
  }

  /** A selected evaluator holds the results of its last selection. */
  lemma {:induction false} EvaluationOfSelected(names: seq<string>, sample: Sampler, k: string)
    requires k in names
    ensures Get(Evaluations(names, sample), k) == Some(SimulatedEntries(k, LastPosition(names, k), sample))
  {
    var i := |names| - 1;
    if names[i] != k {
      var init := names[..i];
      assert k in init by {
        var p :| 0 <= p < |names| && names[p] == k;
        assert init[p] == k;
      }
      EvaluationOfSelected(init, sample, k);
      PutGet(Evaluations(init, sample), names[i], SimulatedEntries(names[i], i, sample));
    } else {
      PutGet(Evaluations(names[..i], sample), k, SimulatedEntries(k, i, sample));
    }
  }

  /** Every selected evaluator's results end in `status = 'completed'`, after its simulated metrics. */
  lemma EveryEvaluationCompleted(names: seq<string>, sample: Sampler, k: string)
    requires k in names
    ensures Get(Evaluations(names, sample), k).Some?
    ensures Keys(Get(Evaluations(names, sample), k).value) == SimulatedMetrics(k) + [StatusKey]
    ensures Get(Get(Evaluations(names, sample), k).value, StatusKey) == Some(Word("completed"))
  {
    EvaluationOfSelected(names, sample, k);
    SimulatedEntriesShape(k, LastPosition(names, k), sample);
  }

  // ---------------------------------------------------------------------------
  // The CSV export
  // ---------------------------------------------------------------------------

  /** Every entry other than `status` has its row. */
  lemma {:induction false} RowsComplete(evaluations: seq<(string, Entries)>)
    ensures forall i, j | 0 <= i < |evaluations| && 0 <= j < |evaluations[i].1| && evaluations[i].1[j].0 != StatusKey ::
      CsvRow(evaluations[i].0, evaluations[i].1[j].0, evaluations[i].1[j].1) in ReportRows(evaluations)
  {
    if evaluations != [] {
      var n := |evaluations| - 1;
      RowsComplete(evaluations[..n]);
      EntryRowsComplete(evaluations[n].0, evaluations[n].1);
      forall i, j | 0 <= i < |evaluations| && 0 <= j < |evaluations[i].1| && evaluations[i].1[j].0 != StatusKey
        ensures CsvRow(evaluations[i].0, evaluations[i].1[j].0, evaluations[i].1[j].1) in ReportRows(evaluations)
      {
        if i < n {
          assert evaluations[i] == evaluations[..n][i];
        }
      }
    }
  }

  lemma {:induction false} EntryRowsComplete(name: string, entries: Entries)
    ensures forall j | 0 <= j < |entries| && entries[j].0 != StatusKey :: CsvRow(name, entries[j].0, entries[j].1) in EntryRows(name, entries)
  {
    if entries != [] {
      var n := |entries| - 1;
      EntryRowsComplete(name, entries[..n]);
      forall j | 0 <= j < n && entries[j].0 != StatusKey
        ensures CsvRow(name, entries[j].0, entries[j].1) in EntryRows(name, entries)
      {
        assert entries[j] == entries[..n][j];
      }
    }
  }

  /** Every row is a non-status entry of the evaluator it names. */
  lemma {:induction false} RowsSound(evaluations: seq<(string, Entries)>)
    ensures forall r | r in ReportRows(evaluations) ::
      r.metric != StatusKey && exists i | 0 <= i < |evaluations| :: evaluations[i].0 == r.evaluator && (r.metric, r.value) in evaluations[i].1
  {
    if evaluations != [] {
      var n := |evaluations| - 1;
      var init := evaluations[..n];
      RowsSound(init);
      EntryRowsSound(evaluations[n].0, evaluations[n].1);
      forall r | r in ReportRows(evaluations)
        ensures r.metric != StatusKey
        ensures exists i | 0 <= i < |evaluations| :: evaluations[i].0 == r.evaluator && (r.metric, r.value) in evaluations[i].1
      {
        if r in ReportRows(init) {
          var i :| 0 <= i < |init| && init[i].0 == r.evaluator && (r.metric, r.value) in init[i].1;
          assert evaluations[i] == init[i];
        } else {
          assert evaluations[n].0 == r.evaluator && (r.metric, r.value) in evaluations[n].1;
        }
      }
    }
  }

  lemma {:induction false} EntryRowsSound(name: string, entries: Entries)
    ensures forall r | r in EntryRows(name, entries) :: r.evaluator == name && r.metric != StatusKey && (r.metric, r.value) in entries
  {
    if entries != [] {
      EntryRowsSound(name, entries[..|entries| - 1]);
    }
  }

  /** Only the `status` entry holds a word. */
  ghost predicate OnlyStatusIsWord(entries: Entries)
  {
    forall j | 0 <= j < |entries| :: entries[j].1.Word? ==> entries[j].0 == StatusKey
  }

  lemma SimulatedEntriesOnlyStatusIsWord(name: string, i: nat, sample: Sampler)
    ensures OnlyStatusIsWord(SimulatedEntries(name, i, sample))
  {
    var e := SimulatedEntries(name, i, sample);
    SimulatedEntriesShape(name, i, sample);
    forall j | 0 <= j < |e| && e[j].1.Word? ensures e[j].0 == StatusKey {
      assert Keys(e)[j] == e[j].0;
    }
  }

  lemma {:induction false} SimulationOnlyStatusIsWord(names: seq<string>, sample: Sampler)
    ensures forall e | e in Evaluations(names, sample) :: OnlyStatusIsWord(e.1)
  {
    if names != [] {
      var i := |names| - 1;
      var before, entries := Evaluations(names[..i], sample), SimulatedEntries(names[i], i, sample);
      assert Evaluations(names, sample) == Put(before, names[i], entries);
      SimulationOnlyStatusIsWord(names[..i], sample);
      PutEntries(before, names[i], entries);
      SimulatedEntriesOnlyStatusIsWord(names[i], i, sample);
    }
  }

  /** Every exported value of a simulated report is a sampled number. */
  lemma SimulatedRowsAreNumbers(names: seq<string>, sample: Sampler)
    ensures forall r | r in ReportRows(Evaluations(names, sample)) :: r.value.Number?
  {
    var ev := Evaluations(names, sample);
    SimulationOnlyStatusIsWord(names, sample);
    RowsSound(ev);
    forall r | r in ReportRows(ev) ensures r.value.Number? {
      var i :| 0 <= i < |ev| && ev[i].0 == r.evaluator && (r.metric, r.value) in ev[i].1;
      assert ev[i] in ev;
      var j :| 0 <= j < |ev[i].1| && ev[i].1[j] == (r.metric, r.value);
    }
  }
}
