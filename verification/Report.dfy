/** The check that every report passes before it is written, and that the runner's suites pass it. */
module Report {
  import opened Common
  import opened ExperimentTypes
  import opened World
  import opened Evidence
  import opened Suite

  datatype Inconsistency =
    | DuplicateIdentity
    | InconsistentPass
    | InconsistentViolation
    | InconsistentCleanup
    | InconsistentCounts
    | InconsistentStatus

  /** The clauses that concern one result alone. */
  predicate ResultConsistent(result: ExperimentResult) {
    && (result.conclusion.Pass? ==>
          result.conclusion.observed == result.conclusion.expected && !result.fault.NotProven?)
    && (result.conclusion.Violation? ==> result.conclusion.observed != result.conclusion.expected)
    && (result.cleanup.Clean? ==> IsConfirmed(result.cleanup.process))
  }

  ghost predicate DistinctIdentities(results: seq<ExperimentResult>) {
    forall i, j :: 0 <= i < j < |results| ==>
      results[i].experiment != results[j].experiment && results[i].runId != results[j].runId
  }

  ghost predicate SuiteConsistent(suite: SuiteResult) {
    && DistinctIdentities(suite.results)
    && (forall i :: 0 <= i < |suite.results| ==> ResultConsistent(suite.results[i]))
    && suite.counts == CountsOf(suite.results)
    && suite.status == StatusOf(suite.counts, SomeCleanupFailed(suite.results), suite.halted)
  }

  lemma CountsExtend(results: seq<ExperimentResult>, result: ExperimentResult)
    ensures CountsOf(results + [result]) ==
            var counts := CountsOf(results);
            match result.conclusion
            case Inconclusive(_, _) => counts.(inconclusive := counts.inconclusive + 1)
            case Pass(_, _) => counts.(passed := counts.passed + 1)
            case Violation(_, _, _) => counts.(violations := counts.violations + 1)
  {
    assert (results + [result])[..|results|] == results;
  }

  /** What is wrong with a suite when an inconsistency is reported, in terms of its fields. */
  ghost predicate Shows(suite: SuiteResult, inconsistency: Inconsistency) {
    var rs := suite.results;
    match inconsistency
    case DuplicateIdentity =>
      exists i, j :: 0 <= i < j < |rs| && (rs[i].experiment == rs[j].experiment || rs[i].runId == rs[j].runId)
    case InconsistentPass =>
      exists i :: 0 <= i < |rs| && rs[i].conclusion.Pass?
                  && (rs[i].conclusion.observed != rs[i].conclusion.expected || rs[i].fault.NotProven?)
    case InconsistentViolation =>
      exists i :: 0 <= i < |rs| && rs[i].conclusion.Violation?
                  && rs[i].conclusion.observed == rs[i].conclusion.expected
    case InconsistentCleanup => exists i :: 0 <= i < |rs| && rs[i].cleanup.Clean? && !Terminated(rs[i].cleanup.process)
    case InconsistentCounts => !CountsRight(suite)
    case InconsistentStatus => CountsRight(suite) && !StatusSays(suite.status, rs, suite.halted)
  }

  /** A process whose end was observed in full. */
  predicate Terminated(process: Process) {
    process == Process(true, true, true, false, process.termination)
  }

  ghost predicate CountsRight(suite: SuiteResult) {
    var rs := suite.results;
    suite.counts == Counts(|set i | 0 <= i < |rs| && rs[i].conclusion.Inconclusive?|,
                           |set i | 0 <= i < |rs| && rs[i].conclusion.Pass?|,
                           |set i | 0 <= i < |rs| && rs[i].conclusion.Violation?|)
  }

  /** A consistent suite shows none of the inconsistencies, and there are no others. */
  lemma ConsistentMeans(suite: SuiteResult)
    ensures SuiteConsistent(suite) <==> forall inconsistency :: !Shows(suite, inconsistency)
  {
    hide CountsOf, StatusOf, StatusSays, Terminated, IsConfirmed;
    CountsCount(suite.results);
    StatusOfResults(suite.results, suite.halted, suite.status);
    forall process {
      ConfirmedIsTerminated(process);
    }
    if forall inconsistency :: !Shows(suite, inconsistency) {
      assert !Shows(suite, DuplicateIdentity) && !Shows(suite, InconsistentPass);
      assert !Shows(suite, InconsistentViolation) && !Shows(suite, InconsistentCleanup);
      assert !Shows(suite, InconsistentCounts);
      assert !Shows(suite, InconsistentStatus);
    }
  }

  lemma CountsAreRight(suite: SuiteResult)
    ensures suite.counts != CountsOf(suite.results) ==> Shows(suite, InconsistentCounts)
    ensures && suite.counts == CountsOf(suite.results)
            && suite.status != StatusOf(suite.counts, SomeCleanupFailed(suite.results), suite.halted)
            ==> Shows(suite, InconsistentStatus)
  {
    hide CountsOf, StatusOf, StatusSays;
    CountsCount(suite.results);
    StatusOfResults(suite.results, suite.halted, suite.status);
  }

  /** What result i alone, or with an earlier one, shows. */
  lemma ShowsAt(suite: SuiteResult, i: nat)
    requires i < |suite.results|
    ensures var rs := suite.results;
            && (forall j :: 0 <= j < i && (rs[j].experiment == rs[i].experiment || rs[j].runId == rs[i].runId) ==>
                  Shows(suite, DuplicateIdentity))
            && (rs[i].conclusion.Pass? && rs[i].conclusion.observed != rs[i].conclusion.expected ==>
                  Shows(suite, InconsistentPass))
            && (rs[i].conclusion.Pass? && rs[i].fault.NotProven? ==> Shows(suite, InconsistentPass))
            && (rs[i].conclusion.Violation? && rs[i].conclusion.observed == rs[i].conclusion.expected ==>
                  Shows(suite, InconsistentViolation))
            && (rs[i].cleanup.Clean? && !IsConfirmed(rs[i].cleanup.process) ==> Shows(suite, InconsistentCleanup))
  {
    hide CountsRight, StatusSays;
  }

  lemma ConfirmedIsTerminated(process: Process)
    ensures IsConfirmed(process) <==> Terminated(process)
  {
  }

  /** The single pass over a suite, with its counters and sets of seen identities; it reports what is there. */
  method AssertSuiteInvariants(suite: SuiteResult) returns (r: Option<Inconsistency>)
    ensures r.None? <==> SuiteConsistent(suite)
    ensures r.Some? ==> Shows(suite, r.value)
  {
    var counts := Counts(0, 0, 0);
    assert counts == CountsOf(suite.results[..0]);
    hide CountsOf, StatusOf, IsConfirmed, Shows, CountsRight;
    CountsAreRight(suite);
    var experiments: set<ExperimentName> := {};
    var runIds: set<string> := {};
    var cleanupFailed := false;
    for i := 0 to |suite.results|
      invariant counts == CountsOf(suite.results[..i])
      invariant experiments == set j | 0 <= j < i :: suite.results[j].experiment
      invariant runIds == set j | 0 <= j < i :: suite.results[j].runId
      invariant cleanupFailed == SomeCleanupFailed(suite.results[..i])
      invariant DistinctIdentities(suite.results[..i])
      invariant forall j :: 0 <= j < i ==> ResultConsistent(suite.results[j])
    {
      var result := suite.results[i];
      ShowsAt(suite, i);
      assert suite.results[..i + 1] == suite.results[..i] + [result];
      CountsExtend(suite.results[..i], result);
      if result.experiment in experiments || result.runId in runIds {
        return Some(DuplicateIdentity);
      }
      experiments, runIds := experiments + {result.experiment}, runIds + {result.runId};
      match result.conclusion {
        case Pass(expected, observed) =>
          counts := counts.(passed := counts.passed + 1);
          if observed != expected || result.fault.NotProven? {
            return Some(InconsistentPass);
          }
        case Violation(expected, observed, _) =>
          counts := counts.(violations := counts.violations + 1);
          if observed == expected {
            return Some(InconsistentViolation);
          }
        case Inconclusive(_, _) =>
          counts := counts.(inconclusive := counts.inconclusive + 1);
      }
      if result.cleanup.CleanupFailed? {
        cleanupFailed := true;
      } else if result.cleanup.Clean? && !IsConfirmed(result.cleanup.process) {
        return Some(InconsistentCleanup);
      }
    }
    assert suite.results[..|suite.results|] == suite.results;
    if counts != suite.counts {
      return Some(InconsistentCounts);
    }
    if suite.status != StatusOf(counts, cleanupFailed, suite.halted) {
      return Some(InconsistentStatus);
    }
    r := None;
  }

  /**
   What the runner returns for distinct experiments passes the report's check exactly when its run ids are
   distinct, however the sessions behaved.
   */
  lemma RunnerSatisfiesReport(t: seq<Event>, cuts: seq<nat>, scenario: Scenario, suite: SuiteResult)
    requires SuiteSound(t, cuts, scenario, suite) && NoDuplicates(scenario.experiments)
    ensures SuiteConsistent(suite) <==>
              forall i, j :: 0 <= i < j < |suite.results| ==> suite.results[i].runId != suite.results[j].runId
  {
    hide FaultAt;
    forall i | 0 <= i < |suite.results|
      ensures ResultConsistent(suite.results[i]) && suite.results[i].experiment == scenario.experiments[i]
    {
      assert ResultAt(t, cuts, scenario, suite.results, i);
      if suite.results[i].conclusion.Pass? {
        ProvenFaultBehindEffect(t, cuts[i], cuts[i + 1], scenario, suite.results[i]);
      }
    }
  }
}
