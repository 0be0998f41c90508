/** A whole suite: the loop over the configured experiments, and what its result guarantees. */
module Suite {
  import opened Common
  import opened ArgumentExpansion
  import opened ExperimentTypes
  import opened World
  import opened Evidence
  import opened Runner

  function Filter<T>(s: seq<T>, keep: T -> bool): seq<T> {
    if s == [] then []
    else Filter(s[..|s| - 1], keep) + if keep(s[|s| - 1]) then [s[|s| - 1]] else []
  }

  function CountsOf(results: seq<ExperimentResult>): Counts {
    Counts(|Filter(results, (r: ExperimentResult) => r.conclusion.Inconclusive?)|,
           |Filter(results, (r: ExperimentResult) => r.conclusion.Pass?)|,
           |Filter(results, (r: ExperimentResult) => r.conclusion.Violation?)|)
  }

  predicate SomeCleanupFailed(results: seq<ExperimentResult>) {
    exists i :: 0 <= i < |results| && results[i].cleanup.CleanupFailed?
  }

  function StatusOf(counts: Counts, cleanupFailed: bool, halted: bool): SuiteStatus {
    if counts.violations > 0 then SuiteViolation
    else if counts.inconclusive > 0 || cleanupFailed || halted then SuiteInconclusive
    else SuitePass
  }

  lemma {:induction false} FilterIsEmpty<T>(s: seq<T>, keep: T -> bool)
    ensures Filter(s, keep) == [] <==> forall i :: 0 <= i < |s| ==> !keep(s[i])
  {
    if s != [] {
      FilterIsEmpty(s[..|s| - 1], keep);
    }
  }

  /** A sound result stays sound as the history goes on. */
  lemma SoundStays(t: seq<Event>, u: seq<Event>, k: nat, n: nat, scenario: Scenario, result: ExperimentResult)
    requires k <= n <= |t| && t <= u && Sound(t, k, n, scenario, result)
    ensures Sound(u, k, n, scenario, result)
  {
    hide BrokenIn, FaultSupported, SoundlyJudged, SeedViolatedAt, CleanupSound, Reports, TallyOf;
    assert t[..n] == u[..n] && t[..k] == u[..k];
  }

  /** No session lives, every termination so far is proven, and the abort signal was not seen. */
  ghost predicate MayStart(t: seq<Event>) {
    var spawn := SpawnOf(t);
    spawn.live.None? && !spawn.stuck && !spawn.abortSeen
  }

  /** Result i belongs to configured experiment i and is sound for its own stretch of the history. */
  ghost predicate ResultAt(t: seq<Event>, cuts: seq<nat>, scenario: Scenario, results: seq<ExperimentResult>, i: nat)
    requires i < |results| && |cuts| == |results| + 1 <= |scenario.experiments| + 1
  {
    && cuts[i] <= cuts[i + 1] <= |t|
    && MayStart(t[..cuts[i]])
    && Sound(t, cuts[i], cuts[i + 1], scenario, results[i])
    && results[i].experiment == scenario.experiments[i]
  }

  ghost predicate ResultsSound(t: seq<Event>, cuts: seq<nat>, scenario: Scenario, results: seq<ExperimentResult>) {
    && |cuts| == |results| + 1 <= |scenario.experiments| + 1
    && (forall i :: 0 <= i < |results| ==> ResultAt(t, cuts, scenario, results, i))
  }

  /**
   The stretches of the results make up the history, but for the abort signal that may end it.  The suite is halted
   exactly if a termination is unproven or the abort signal was seen, and otherwise complete.
   */
  ghost predicate SuiteSound(t: seq<Event>, cuts: seq<nat>, scenario: Scenario, suite: SuiteResult) {
    && ResultsSound(t, cuts, scenario, suite.results)
    && cuts[|suite.results|] <= |t|
    && (t[cuts[|suite.results|]..] == [] || t[cuts[|suite.results|]..] == [AbortSeen])
    && (suite.halted <==> SpawnOf(t).stuck || SpawnOf(t).abortSeen)
    && (!suite.halted ==> |suite.results| == |scenario.experiments|)
    && suite.scenario == scenario.name
    && suite.counts == CountsOf(suite.results)
    && suite.status == StatusOf(suite.counts, SomeCleanupFailed(suite.results), suite.halted)
  }

  lemma ResultsExtend(t: seq<Event>, u: seq<Event>, cuts: seq<nat>, scenario: Scenario, results: seq<ExperimentResult>,
                      result: ExperimentResult)
    requires ResultsSound(t, cuts, scenario, results) && |results| < |scenario.experiments|
    requires cuts[|results|] == |t| && t <= u && MayStart(t) && Sound(u, |t|, |u|, scenario, result)
    requires result.experiment == scenario.experiments[|results|]
    ensures ResultsSound(u, cuts + [|u|], scenario, results + [result])
  {
    hide Sound, MayStart;
    var cuts', results' := cuts + [|u|], results + [result];
    assert u[..|t|] == t;
    forall i | 0 <= i < |results'|
      ensures ResultAt(u, cuts', scenario, results', i)
    {
      if i < |results| {
        assert ResultAt(t, cuts, scenario, results, i);
        assert t[..cuts[i]] == u[..cuts[i]];
        SoundStays(t, u, cuts[i], cuts[i + 1], scenario, results[i]);
      }
    }
  }

  lemma ResultsStay(t: seq<Event>, u: seq<Event>, cuts: seq<nat>, scenario: Scenario, results: seq<ExperimentResult>)
    requires ResultsSound(t, cuts, scenario, results) && t <= u
    ensures ResultsSound(u, cuts, scenario, results)
  {
    hide Sound, MayStart;
    forall i | 0 <= i < |results|
      ensures ResultAt(u, cuts, scenario, results, i)
    {
      assert ResultAt(t, cuts, scenario, results, i);
      assert t[..cuts[i]] == u[..cuts[i]];
      SoundStays(t, u, cuts[i], cuts[i + 1], scenario, results[i]);
    }
  }

  method RunSingleExperiment(world: World, scenario: Scenario, experiment: ExperimentName, runId: string)
    returns (halted: bool, result: ExperimentResult)
    requires world.Valid() && world.spawned.live.None? && !world.spawned.stuck
    modifies world
    ensures world.Valid() && world.spawned.live.None? && (halted <==> world.spawned.stuck)
    ensures old(world.trace) <= world.trace
    ensures result.experiment == experiment && result.runId == runId
    ensures Sound(world.trace, |old(world.trace)|, |world.trace|, scenario, result)
  {
    hide Sound;
    var run := new ExperimentRun(world, scenario, experiment, runId);
    ghost var exercised;
    halted, result, exercised := run.Execute(|world.trace|);
  }

  /**
   Runs the configured experiments in order and stops early once a termination is unproven or the suite was
   aborted.  A run id that cannot be used safely ends the suite with an error; even then no session is left open.
   */
  method RunScenarioExperiments(world: World, scenario: Scenario)
    returns (r: Result<SuiteResult, TreeFault>, ghost cuts: seq<nat>)
    requires world.Valid() && world.spawned.live.None? && !world.spawned.stuck && !world.spawned.abortSeen
    modifies world
    ensures old(world.trace) <= world.trace && SpawnOf(world.trace).safe && SpawnOf(world.trace).live.None?
    ensures r.Success? ==> SuiteSound(world.trace, cuts, scenario, r.value) && cuts[0] == |old(world.trace)|
  {
    hide Sound;
    var results: seq<ExperimentResult> := [];
    var halted := false;
    var index := 0;
    cuts := [|world.trace|];
    ghost var ends := world.trace;
    while index < |scenario.experiments| && !halted
      invariant 0 <= index <= |scenario.experiments| && |results| == index
      invariant world.Valid() && world.spawned.live.None?
      invariant halted <==> world.spawned.stuck || world.spawned.abortSeen
      invariant old(world.trace) <= ends && (world.trace == ends || (halted && world.trace == ends + [AbortSeen]))
      invariant ResultsSound(ends, cuts, scenario, results)
      invariant cuts[index] == |ends| && cuts[0] == |old(world.trace)|
      decreases |scenario.experiments| - index, !halted
    {
      var runId := world.CreateRunId();
      var run := ExpandRun(scenario.invocations, runId);
      world.Summary();
      if run.Failure? {
        return Failure(run.error), cuts;
      }
      var stopped, result := RunSingleExperiment(world, scenario, scenario.experiments[index], run.value.runId);
      ResultsExtend(ends, world.trace, cuts, scenario, results, result);
      ends := world.trace;
      results, cuts := results + [result], cuts + [|ends|];
      halted := stopped;
      if !halted {
        halted := world.SeesAbort();
      }
      index := index + 1;
    }
    var counts := CountsOf(results);
    var cleanupFailed := SomeCleanupFailed(results);
    world.Summary();
    ResultsStay(ends, world.trace, cuts, scenario, results);
    r := Success(SuiteResult(counts, halted, results, scenario.name, StatusOf(counts, cleanupFailed, halted)));
  }

  // ---------------------------------------------------------------- what a suite guarantees

  lemma NoneKept<T>(s: seq<T>, keep: T -> bool)
    ensures |Filter(s, keep)| == 0 <==> forall i :: 0 <= i < |s| ==> !keep(s[i])
  {
    FilterIsEmpty(s, keep);
  }

  lemma {:induction false} FilterCounts<T>(s: seq<T>, keep: T -> bool, kept: set<int>)
    requires forall i :: i in kept <==> 0 <= i < |s| && keep(s[i])
    ensures |Filter(s, keep)| == |kept|
  {
    if s == [] {
      assert forall i :: i !in kept;
      assert kept == {};
    } else {
      var n := |s| - 1;
      FilterCounts(s[..n], keep, kept - {n});
      assert !keep(s[n]) ==> kept - {n} == kept;
    }
  }

  /** The counts are the numbers of results with each kind of conclusion. */
  lemma CountsCount(results: seq<ExperimentResult>)
    ensures var counts := CountsOf(results);
            && counts.passed == |set i | 0 <= i < |results| && results[i].conclusion.Pass?|
            && counts.violations == |set i | 0 <= i < |results| && results[i].conclusion.Violation?|
            && counts.inconclusive == |set i | 0 <= i < |results| && results[i].conclusion.Inconclusive?|
  {
    FilterCounts(results, (r: ExperimentResult) => r.conclusion.Pass?,
                 set i | 0 <= i < |results| && results[i].conclusion.Pass?);
    FilterCounts(results, (r: ExperimentResult) => r.conclusion.Violation?,
                 set i | 0 <= i < |results| && results[i].conclusion.Violation?);
    FilterCounts(results, (r: ExperimentResult) => r.conclusion.Inconclusive?,
                 set i | 0 <= i < |results| && results[i].conclusion.Inconclusive?);
  }

  /** What a status is to say of the results: one violation decides, otherwise anything that is not a clean pass. */
  ghost predicate StatusSays(status: SuiteStatus, results: seq<ExperimentResult>, halted: bool) {
    var violated := exists i :: 0 <= i < |results| && results[i].conclusion.Violation?;
    var unclear := halted || exists i :: 0 <= i < |results| && (results[i].conclusion.Inconclusive?
                                                                || results[i].cleanup.CleanupFailed?);
    && (status.SuiteViolation? <==> violated)
    && (status.SuiteInconclusive? <==> !violated && unclear)
    && (status.SuitePass? <==> !violated && !unclear)
  }

  lemma StatusOfResults(results: seq<ExperimentResult>, halted: bool, status: SuiteStatus)
    ensures status == StatusOf(CountsOf(results), SomeCleanupFailed(results), halted)
            <==> StatusSays(status, results, halted)
  {
    NoneKept(results, (r: ExperimentResult) => r.conclusion.Inconclusive?);
    NoneKept(results, (r: ExperimentResult) => r.conclusion.Violation?);
  }

  /**
   The status of a suite: a violation exactly if some result is one; otherwise inconclusive exactly if some result is,
   or some cleanup failed, or the suite was halted; and the counts are numbers of results.
   */
  lemma StatusIsExact(t: seq<Event>, cuts: seq<nat>, scenario: Scenario, suite: SuiteResult)
    requires SuiteSound(t, cuts, scenario, suite)
    ensures StatusSays(suite.status, suite.results, suite.halted)
    ensures suite.counts.passed == |set i | 0 <= i < |suite.results| && suite.results[i].conclusion.Pass?|
    ensures suite.counts.violations == |set i | 0 <= i < |suite.results| && suite.results[i].conclusion.Violation?|
    ensures suite.counts.inconclusive == |set i | 0 <= i < |suite.results| && suite.results[i].conclusion.Inconclusive?|
  {
    hide ResultsSound, StatusOf, CountsOf, StatusSays, SpawnOf;
    StatusOfResults(suite.results, suite.halted, suite.status);
    CountsCount(suite.results);
  }

  /**
   The suite passes exactly when every configured experiment ran, passed and was cleaned up; and then each of
   them is proven by its own stretch of the history.
   */
  lemma PassMeansEverythingPassed(t: seq<Event>, cuts: seq<nat>, scenario: Scenario, suite: SuiteResult)
    requires SuiteSound(t, cuts, scenario, suite)
    ensures suite.status.SuitePass? <==>
              && !suite.halted && |suite.results| == |scenario.experiments|
              && forall i :: 0 <= i < |suite.results| ==>
                   suite.results[i].conclusion.Pass? && suite.results[i].cleanup.Clean?
    ensures suite.status.SuitePass? ==>
              forall i :: 0 <= i < |suite.results| ==>
                && ResultAt(t, cuts, scenario, suite.results, i)
                && Proven(t[..cuts[i + 1]], cuts[i], scenario, suite.results[i].runId, scenario.experiments[i],
                          suite.results[i].fault, suite.results[i].attempts)
  {
    hide Proven;
    var rs := suite.results;
    NoneKept(rs, (r: ExperimentResult) => r.conclusion.Inconclusive?);
    NoneKept(rs, (r: ExperimentResult) => r.conclusion.Violation?);
    forall i | 0 <= i < |rs|
      ensures ResultAt(t, cuts, scenario, rs, i)
      ensures rs[i].cleanup.NotNeeded? ==> rs[i].conclusion.Inconclusive?
      ensures rs[i].conclusion.Pass? ==>
                Proven(t[..cuts[i + 1]], cuts[i], scenario, rs[i].runId, scenario.experiments[i], rs[i].fault,
                       rs[i].attempts)
    {
    }
  }

  /** What halts a suite: a termination that is not proven, or the abort signal. */
  predicate Halting(e: Event) {
    Unproven(e) || e == AbortSeen
  }

  lemma NothingHaltedBefore(t: seq<Event>, n: nat)
    requires n <= |t| && MayStart(t[..n])
    ensures forall j :: 0 <= j < n ==> !Halting(t[j])
  {
    hide SpawnOf;
    FlagsMean(t[..n]);
    forall j | 0 <= j < n
      ensures !Halting(t[j])
    {
      assert t[..n][j] == t[j];
    }
  }

  /** A suite is halted exactly if its history has a reason for that, and no experiment is started after one. */
  lemma HaltedForAReason(t: seq<Event>, cuts: seq<nat>, scenario: Scenario, suite: SuiteResult)
    requires SuiteSound(t, cuts, scenario, suite)
    ensures suite.halted <==> exists j :: 0 <= j < |t| && Halting(t[j])
    ensures forall i, j :: 0 <= i < |suite.results| && 0 <= j < cuts[i] <= |t| ==> !Halting(t[j])
  {
    hide SpawnOf, Sound, MayStart;
    FlagsMean(t);
    if SpawnOf(t).stuck {
      var j :| 0 <= j < |t| && Unproven(t[j]);
      assert Halting(t[j]);
    } else if SpawnOf(t).abortSeen {
      var j :| 0 <= j < |t| && t[j] == AbortSeen;
      assert Halting(t[j]);
    }
    forall i | 0 <= i < |suite.results|
      ensures cuts[i] <= |t| && forall j :: 0 <= j < cuts[i] ==> !Halting(t[j])
    {
      assert ResultAt(t, cuts, scenario, suite.results, i);
      NothingHaltedBefore(t, cuts[i]);
    }
  }

  /** A result that blames an unproven termination halts the suite, and is its last one. */
  lemma UnprovenTerminationHalts(t: seq<Event>, cuts: seq<nat>, scenario: Scenario, suite: SuiteResult, i: nat)
    requires SuiteSound(t, cuts, scenario, suite) && i < |suite.results|
    requires suite.results[i].conclusion.Inconclusive? && suite.results[i].conclusion.reason.TerminationUnproven?
    ensures suite.halted && i == |suite.results| - 1
  {
    hide SpawnOf, BrokenIn, FaultSupported, CleanupSound, MayStart;
    assert ResultAt(t, cuts, scenario, suite.results, i);
    var u := t[..cuts[i + 1]];
    FlagsMean(u);
    var j :| 0 <= j < |u| && Unproven(u[j]);
    assert Halting(t[j]);
    HaltedForAReason(t, cuts, scenario, suite);
  }

  /**
   A cleanup that fails to close rests on an unproven termination of its own stretch; the process it names, if any, is
   one that a close of that stretch reported without confirmation.
   */
  lemma CloseFailureIsSeen(t: seq<Event>, k: nat, n: nat, scenario: Scenario, result: ExperimentResult)
    requires k <= n <= |t| && MayStart(t[..k]) && Sound(t, k, n, scenario, result)
    requires result.cleanup.CleanupFailed? && result.cleanup.phase.CloseFailed?
    ensures exists i :: k <= i < n && Unproven(t[i])
    ensures result.cleanup.left.Some? ==>
              exists i :: k <= i < n && t[i].Closed? && t[i].process == result.cleanup.left && Unproven(t[i])
  {
    hide SpawnOf, MayStart, BrokenIn, FaultSupported, SoundlyJudged, SeedViolatedAt, SeedViolationReported;
    var u := t[..n];
    NothingHaltedBefore(t, k);
    FlagsMean(u);
    var j :| 0 <= j < n && Unproven(u[j]);
    assert u[j] == t[j] && Halting(t[j]);
    RefusedMeans(u);
    if result.cleanup.left.Some? {
      var i :| 0 <= i < n && u[i].Closed? && u[i].process == SpawnOf(u).refused && !IsConfirmed(u[i].process.value);
      assert u[i] == t[i] && Unproven(t[i]) && Halting(t[i]);
    }
  }

  // ---------------------------------------------------------------- under which ids the calls go out

  lemma SuffixesDiffer(runId: string)
    ensures runId + ":seed" != runId + ":retry" && runId + ":disconnect" != runId + ":retry"
    ensures runId + ":parallel-a" != runId + ":parallel-b"
    ensures RequestIdOf(runId, "seed") == runId + ":seed" && RequestIdOf(runId, "retry") == runId + ":retry"
    ensures RequestIdOf(runId, "reused") == runId + ":reused" && RequestIdOf(runId, "cancel") == runId + ":cancel"
    ensures RequestIdOf(runId, "parallel-a") == runId + ":parallel-a"
    ensures RequestIdOf(runId, "parallel-b") == runId + ":parallel-b"
    ensures RequestIdOf(runId, "disconnect") == runId + ":disconnect"
  {
    assert (runId + ":seed")[|runId| + 1] == 's' && (runId + ":retry")[|runId| + 1] == 'r';
    assert (runId + ":disconnect")[|runId| + 1] == 'd';
    assert (runId + ":parallel-a")[|runId| + 10] == 'a' && (runId + ":parallel-b")[|runId| + 10] == 'b';
    assert runId + ":" + "seed" == runId + ":seed" && runId + ":" + "retry" == runId + ":retry";
    assert runId + ":" + "reused" == runId + ":reused" && runId + ":" + "cancel" == runId + ":cancel";
    assert runId + ":" + "parallel-a" == runId + ":parallel-a" && runId + ":" + "parallel-b" == runId + ":parallel-b";
    assert runId + ":" + "disconnect" == runId + ":disconnect";
  }

  /** Event i is the sending of a call in session s under the given id. */
  predicate SentAt(t: seq<Event>, i: nat, s: nat, id: string) {
    i < |t| && t[i] == Began(s, id)
  }

  lemma SeedIsSent(t: seq<Event>, b: nat, s: nat, id: string)
    requires SeedAt(t, b, s, id)
    ensures SentAt(t, b + 1, s, id)
  {
  }

  /**
   The calls of a proven experiment, by their places in the history.  A retry in the same session, after a restart
   or after a disconnect goes out under a new id, and the two parallel calls go out under different ones; only the
   experiment that reuses an id sends its second call, in its last session, under the first one's.
   */
  lemma CallsOfProven(t: seq<Event>, k: nat, scenario: Scenario, runId: string, experiment: ExperimentName,
                      fault: Fault, attempts: seq<Attempt>)
    requires Proven(t, k, scenario, runId, experiment, fault, attempts)
    ensures var s, s' := t[k].session, t[k + LengthOf(experiment) - 1].session;
            match experiment
            case SuppressCompletedResponse => SentAt(t, k + 4, s, runId + ":seed")
            case RetryNewId =>
              && SentAt(t, k + 4, s, runId + ":seed") && SentAt(t, k + 10, s, runId + ":retry")
              && t[k + 4].requestId != t[k + 10].requestId
            case RpcIdReuse =>
              && SentAt(t, k + 4, s, runId + ":reused") && SentAt(t, k + 13, s', runId + ":reused")
              && t[k + 4].requestId == t[k + 13].requestId && t[k + 11] == Opened(s')
            case RestartAfterSuppressedResponse =>
              && SentAt(t, k + 4, s, runId + ":seed") && SentAt(t, k + 13, s', runId + ":retry")
              && t[k + 4].requestId != t[k + 13].requestId && t[k + 11] == Opened(s')
            case ParallelNewIds =>
              && SentAt(t, k + 3, s, runId + ":parallel-a") && SentAt(t, k + 4, s, runId + ":parallel-b")
              && t[k + 3].requestId != t[k + 4].requestId
            case CancelOnProgress => SentAt(t, k + 3, s, runId + ":cancel")
            case DisconnectAfterRequestWriteAccepted =>
              && SentAt(t, k + 4, s, runId + ":disconnect") && SentAt(t, k + 11, s', runId + ":retry")
              && t[k + 4].requestId != t[k + 11].requestId && t[k + 9] == Opened(s')
  {
    hide SeedAt, SeedReportedAt, RequestIdOf;
    SuffixesDiffer(runId);
    if experiment.SuppressCompletedResponse? || HasSeedCheck(experiment) {
      SeedIsSent(t, k + 3, t[k].session, SeedIdOf(runId, experiment));
    }
  }

  /** Event i is the close of session s whose process is the given one, its end observed in full. */
  predicate EndedAt(t: seq<Event>, i: nat, s: nat, process: Process) {
    && i < |t| && t[i] == Closed(s, Some(process))
    && process.confirmed && process.closeObserved && process.exitObserved && !process.stdioDetached
  }

  /**
   The old process of a proven experiment that restarts ended before the new session was opened, and the fault names
   it; after a disconnect it did so neither by itself nor because its input ended.
   */
  lemma OldProcessOfProven(t: seq<Event>, k: nat, scenario: Scenario, runId: string, experiment: ExperimentName,
                           fault: Fault, attempts: seq<Attempt>)
    requires Proven(t, k, scenario, runId, experiment, fault, attempts)
    ensures experiment.RpcIdReuse? || experiment.RestartAfterSuppressedResponse? ==>
              && (fault.ReuseFault? || fault.RestartFault?)
              && EndedAt(t, k + 10, t[k].session, fault.oldProcess) && t[k + 11].Opened?
    ensures experiment.DisconnectAfterRequestWriteAccepted? ==>
              && fault.DisconnectFault? && EndedAt(t, k + 8, t[k].session, fault.oldProcess) && t[k + 9].Opened?
              && fault.oldProcess.termination in {ByDisconnect, ByKill, ByTerminate}
  {
    hide SeedAt, SeedReportedAt, RequestIdOf, RetryAt, CutOffAt;
  }

  /** The request ids a fault names. */
  function IdsOfFault(fault: Fault): set<string> {
    match fault
    case NotProven(_) => {}
    case SuppressedFault(seedId) => {seedId}
    case RetryFault(firstId, retryId) => {firstId, retryId}
    case ReuseFault(_, reusedId) => {reusedId}
    case RestartFault(firstId, _, retryId) => {firstId, retryId}
    case ParallelFault(firstId, secondId) => {firstId, secondId}
    case CancelFault(_, progressToken, requestId) => {progressToken, requestId}
    case DisconnectFault(firstId, _, _, retryId, _) => {firstId, retryId}
  }

  lemma FaultIdsAreOwn(t: seq<Event>, b: nat, s: nat, s': nat, runId: string, experiment: ExperimentName, fault: Fault,
                       attempts: seq<Attempt>, oracle: Oracle)
    requires || FaultAt(t, b, s, s', runId, experiment, fault, attempts, oracle)
             || ClaimedAt(t, b, s, runId, experiment, fault, attempts, oracle)
    ensures forall id :: id in IdsOfFault(fault) ==> OwnId(id, runId)
  {
    hide SeededAt, SeedAt, SeedReportedAt, RetryAt, RestartAt, RestartClaimedAt, CutOffAt, BothAt, ReportedAt, OwnId,
      RequestIdOf, RetryMadeAt;
    OwnIdsOfStrategies(runId);
  }

  /**
   All ids a sound result reports are those of its own run, so results of different runs share none, and every attempt
   is reported in the role it has in its experiment.
   */
  lemma IdsAreOwn(t: seq<Event>, k: nat, n: nat, scenario: Scenario, result: ExperimentResult)
    requires k <= n <= |t| && Sound(t, k, n, scenario, result)
    ensures forall i :: 0 <= i < |result.attempts| ==>
              && OwnId(result.attempts[i].requestId, result.runId)
              && result.attempts[i].role == RoleOf(result.experiment, i)
    ensures forall id :: id in IdsOfFault(result.fault) ==> OwnId(id, result.runId)
  {
    hide OwnId, BrokenIn, CleanupSound, SeedViolatedAt, JudgedAs, FaultAt, ClaimedAt;
    var u, oracle := t[..n], scenario.oracle;
    if !result.fault.NotProven? {
      var s' := if result.conclusion.Inconclusive? then 0 else u[k + LengthOf(result.experiment) - 1].session;
      FaultIdsAreOwn(u, k + 3, u[k].session, s', result.runId, result.experiment, result.fault, result.attempts,
                     oracle);
    }
  }

  lemma ResultsShareNoIds(t: seq<Event>, cuts: seq<nat>, scenario: Scenario, suite: SuiteResult, i: nat, j: nat)
    requires SuiteSound(t, cuts, scenario, suite) && i < |suite.results| && j < |suite.results|
    requires suite.results[i].runId != suite.results[j].runId
    ensures var one, other := suite.results[i], suite.results[j];
            && (forall a, b :: 0 <= a < |one.attempts| && 0 <= b < |other.attempts| ==>
                  one.attempts[a].requestId != other.attempts[b].requestId)
            && IdsOfFault(one.fault) !! IdsOfFault(other.fault)
  {
    hide Sound, OwnId, MayStart;
    var one, other := suite.results[i], suite.results[j];
    assert ResultAt(t, cuts, scenario, suite.results, i) && ResultAt(t, cuts, scenario, suite.results, j);
    IdsAreOwn(t, cuts[i], cuts[i + 1], scenario, one);
    IdsAreOwn(t, cuts[j], cuts[j + 1], scenario, other);
    forall id | OwnId(id, one.runId)
      ensures !OwnId(id, other.runId)
    {
      if OwnId(id, other.runId) {
        OwnIdNamesRun(id, one.runId, other.runId);
      }
    }
  }

  // ---------------------------------------------------------------- what the history decides

  /** The history shows the experiment's fault, and there is a value to judge its effect by. */
  ghost predicate Judgeable(t: seq<Event>, k: nat, scenario: Scenario, runId: string, experiment: ExperimentName) {
    && ExpectedValue(scenario.oracle, experiment).Some?
    && exists fault, attempts :: Proven(t, k, scenario, runId, experiment, fault, attempts)
  }

  predicate SeedVerdict(conclusion: Conclusion) {
    conclusion.Violation? && conclusion.at.SeedEffect?
  }

  lemma RetryIsUnique(t: seq<Event>, k: nat, s: nat, id: string, one: seq<Attempt>, other: seq<Attempt>)
    requires RetryAt(t, k, s, id, one) && RetryAt(t, k, s, id, other)
    ensures |one| == 2 == |other| && one[1] == other[1]
  {
  }

  lemma SeedIsUnique(t: seq<Event>, b: nat, s: nat, id: string, one: seq<Attempt>, other: seq<Attempt>, oracle: Oracle)
    requires SeededAt(t, b, s, id, one, oracle) && SeededAt(t, b, s, id, other, oracle)
    ensures |one| > 0 && |other| > 0 && one[0] == other[0]
  {
  }

  /** There is only one fault, and one list of attempts, that a history proves. */
  lemma FaultIsUnique(t: seq<Event>, b: nat, s: nat, s': nat, runId: string, experiment: ExperimentName,
                      oneFault: Fault, one: seq<Attempt>, otherFault: Fault, other: seq<Attempt>, oracle: Oracle)
    requires FaultAt(t, b, s, s', runId, experiment, oneFault, one, oracle)
    requires FaultAt(t, b, s, s', runId, experiment, otherFault, other, oracle)
    ensures oneFault == otherFault && one == other
  {
    hide SeededAt, RetryAt, RequestIdOf;
    var retryId := RequestIdOf(runId, if experiment.RpcIdReuse? then "reused" else "retry");
    if HasSeedCheck(experiment) {
      SeedIsUnique(t, b, s, SeedIdOf(runId, experiment), one, other, oracle);
      RetryIsUnique(t, if experiment.RetryNewId? then b + 7 else b + 10, s', retryId, one, other);
    } else if experiment.DisconnectAfterRequestWriteAccepted? {
      RetryIsUnique(t, b + 8, s', retryId, one, other);
    }
  }

  /** A seed call that misbehaved leaves nothing to be proven, and the other way round. */
  lemma SeedViolationIsNotProven(t: seq<Event>, k: nat, scenario: Scenario, runId: string, experiment: ExperimentName,
                                 fault: Fault, attempts: seq<Attempt>)
    requires SeedViolatedAt(t, k, runId, experiment, scenario.oracle)
    ensures !Proven(t, k, scenario, runId, experiment, fault, attempts)
  {
    hide SeedAt, RestartAt, RetryAt, SeedReportedAt;
  }

  /**
   Where the history proves a fault, that is the reported one, and the result is judged by the final probe: it is
   neither inconclusive nor a verdict on the seed call.
   */
  lemma ProvenIsJudged(t: seq<Event>, k: nat, n: nat, scenario: Scenario, result: ExperimentResult, fault: Fault,
                       attempts: seq<Attempt>)
    requires k <= n <= |t| && Sound(t, k, n, scenario, result)
    requires Proven(t[..n], k, scenario, result.runId, result.experiment, fault, attempts)
    requires ExpectedValue(scenario.oracle, result.experiment).Some?
    ensures !result.conclusion.Inconclusive? && !SeedVerdict(result.conclusion)
    ensures result.fault == fault && result.attempts == attempts && SoundlyJudged(t[..n], k, scenario, result)
  {
    hide FaultAt, BrokenIn, SeedViolatedAt, JudgedAs;
    var u, last := t[..n], k + LengthOf(result.experiment) - 1;
    ProvenIsNotBroken(u, k, scenario, result.runId, result.experiment, fault, attempts);
    if SeedVerdict(result.conclusion) {
      SeedViolationIsNotProven(u, k, scenario, result.runId, result.experiment, fault, attempts);
    } else {
      FaultIsUnique(u, k + 3, u[k].session, u[last].session, result.runId, result.experiment, fault, attempts,
                    result.fault, result.attempts, scenario.oracle);
    }
  }

  /**
   The verdict is what the history says and nothing else: inconclusive exactly if the script broke, and in the phase in
   which it did; a violation by the seed call exactly if that was seen to misbehave; and judged by the final effect
   exactly if the fault is proven.
   */
  lemma VerdictIsExact(t: seq<Event>, k: nat, n: nat, scenario: Scenario, result: ExperimentResult)
    requires k <= n <= |t| && Sound(t, k, n, scenario, result)
    ensures result.conclusion.Inconclusive? <==>
            Broken(t[..n], k, result.runId, result.experiment, scenario.oracle)
    ensures result.conclusion.Inconclusive? ==>
              forall phase :: BrokenIn(t[..n], k, result.runId, result.experiment, scenario.oracle, phase)
                              <==> phase == result.conclusion.phase
    ensures SeedVerdict(result.conclusion) <==>
            SeedViolatedAt(t[..n], k, result.runId, result.experiment, scenario.oracle)
    ensures !result.conclusion.Inconclusive? && !SeedVerdict(result.conclusion) <==>
            Judgeable(t[..n], k, scenario, result.runId, result.experiment)
  {
    hide Proven, BrokenIn, SeedViolatedAt, JudgedAs, SeedViolationReported;
    var u := t[..n];
    if SeedViolatedAt(u, k, result.runId, result.experiment, scenario.oracle) {
      SeedViolationIsNotBroken(u, k, result.runId, result.experiment, scenario.oracle);
      if SoundlyJudged(u, k, scenario, result) {
        SeedViolationIsNotProven(u, k, scenario, result.runId, result.experiment, result.fault, result.attempts);
      }
    }
    if Judgeable(u, k, scenario, result.runId, result.experiment) {
      var fault, attempts :| Proven(u, k, scenario, result.runId, result.experiment, fault, attempts);
      ProvenIsJudged(t, k, n, scenario, result, fault, attempts);
    }
    forall phase | BrokenIn(u, k, result.runId, result.experiment, scenario.oracle, phase)
                   && result.conclusion.Inconclusive?
      ensures phase == result.conclusion.phase
    {
      PhaseIsUnique(u, k, result.runId, result.experiment, scenario.oracle, phase, result.conclusion.phase);
    }
    if SoundlyJudged(u, k, scenario, result) {
      ProvenIsNotBroken(u, k, scenario, result.runId, result.experiment, result.fault, result.attempts);
    }
  }

  /** Two sound results for the same stretch of history differ at most in the reason for being inconclusive. */
  lemma HistoryDecides(t: seq<Event>, k: nat, n: nat, scenario: Scenario, one: ExperimentResult,
                       other: ExperimentResult)
    requires k <= n <= |t| && Sound(t, k, n, scenario, one) && Sound(t, k, n, scenario, other)
    requires one.experiment == other.experiment && one.runId == other.runId
    ensures || one.conclusion == other.conclusion
            || (&& one.conclusion.Inconclusive? && other.conclusion.Inconclusive?
                && one.conclusion.phase == other.conclusion.phase)
    ensures !one.conclusion.Inconclusive? ==>
              && one.fault == other.fault && one.attempts == other.attempts && one.baseline == other.baseline
              && one.seed == other.seed && one.boundary == other.boundary && one.final == other.final
  {
    hide Proven, BrokenIn, SeedViolatedAt;
    VerdictIsExact(t, k, n, scenario, one);
    VerdictIsExact(t, k, n, scenario, other);
    if !one.conclusion.Inconclusive? && !SeedVerdict(one.conclusion) {
      ProvenIsJudged(t, k, n, scenario, other, one.fault, one.attempts);
    }
  }

  /** A pass, and a violation of the final effect, rest on the fault of their own experiment; no other does. */
  lemma ProvenFaultBehindEffect(t: seq<Event>, k: nat, n: nat, scenario: Scenario, result: ExperimentResult)
    requires k <= n <= |t| && Sound(t, k, n, scenario, result) && !result.conclusion.Inconclusive?
    ensures KindOf(result.fault) == (if SeedVerdict(result.conclusion) then None else Some(result.experiment))
  {
    hide FaultAt, Reports, OwnAttempts, TallyOf;
    if !SeedVerdict(result.conclusion) {
      var u, last := t[..n], k + LengthOf(result.experiment) - 1;
      FaultNamesExperiment(u, k + 3, u[k].session, u[last].session, result.runId, result.experiment, result.fault,
                           result.attempts, scenario.oracle);
    }
  }

  // ---------------------------------------------------------------- the calls of an experiment are reported

  /** The outcome of a call was learned. */
  predicate EndsCall(e: Event) {
    e.Classified? || (e.EndedEarly? && e.early.Some?)
  }

  function EndOf(e: Event): Completion
    requires EndsCall(e)
  {
    if e.Classified? then e.completion else e.early.value
  }

  /** The attempt reports the call that the event ended. */
  predicate Ended(e: Event, id: string, completion: Completion) {
    EndsCall(e) && e.requestId == id && EndOf(e) == completion
  }

  lemma {:induction false} CallsAreEnds(t: seq<Event>)
    ensures var calls, ends := TallyOf(t).calls, Filter(t, EndsCall);
            && |calls| == |ends|
            && forall i :: 0 <= i < |calls| ==> Ended(ends[i], calls[i].requestId, calls[i].completion)
  {
    if t != [] {
      CallsAreEnds(t[..|t| - 1]);
    }
  }

  lemma {:induction false} FilterSplits<T>(s: seq<T>, keep: T -> bool, k: nat)
    requires k <= |s|
    ensures Filter(s, keep) == Filter(s[..k], keep) + Filter(s[k..], keep)
  {
    if k == |s| {
      assert s[..k] == s;
    } else {
      var n := |s| - 1;
      FilterSplits(s[..n], keep, k);
      assert s[..n][..k] == s[..k] && s[..n][k..] == s[k..][..n - k];
    }
  }

  lemma ReportedAreEnds(calls: seq<Call>, earlier: seq<Call>, attempts: seq<Attempt>, before: seq<Event>,
                        ends: seq<Event>)
    requires Reports(calls, earlier, attempts) && |earlier| == |before| && |calls| == |before + ends|
    requires forall i :: 0 <= i < |calls| ==> Ended((before + ends)[i], calls[i].requestId, calls[i].completion)
    ensures |attempts| == |ends|
    ensures forall i :: 0 <= i < |ends| ==> Ended(ends[i], attempts[i].requestId, attempts[i].completion)
  {
    hide Ended;
    forall i | 0 <= i < |ends|
      ensures Ended(ends[i], attempts[i].requestId, attempts[i].completion)
    {
      assert (before + ends)[|before| + i] == ends[i];
      assert calls[|earlier| + i] == CallOf(attempts[i]);
    }
  }

  /**
   Whatever its conclusion, a result has one attempt for each call of its stretch of the history that was seen to end,
   in the order in which they ended, and it reports the id and the completion of that call.
   */
  lemma AttemptsAreCalls(t: seq<Event>, k: nat, n: nat, scenario: Scenario, result: ExperimentResult)
    requires k <= n <= |t| && Sound(t, k, n, scenario, result)
    ensures var ends := Filter(t[k..n], EndsCall);
            && |result.attempts| == |ends|
            && forall i :: 0 <= i < |ends| ==>
                 Ended(ends[i], result.attempts[i].requestId, result.attempts[i].completion)
  {
    var u, earlier, ends := t[..n], TallyOf(t[..k]).calls, Filter(t[k..n], EndsCall);
    assert Reports(TallyOf(u).calls, earlier, result.attempts);
    hide Sound, TallyOf, Filter, Ended, Reports, CallOf;
    CallsAreEnds(u);
    CallsAreEnds(t[..k]);
    FilterSplits(u, EndsCall, k);
    assert u[..k] == t[..k] && u[k..] == t[k..n];
    ReportedAreEnds(TallyOf(u).calls, earlier, result.attempts, Filter(t[..k], EndsCall), ends);
  }

  /** The probe after the seed call does not show the one effect it must have. */
  predicate SeedProbeDiffers(t: seq<Event>, k: nat, n: nat, experiment: ExperimentName, oracle: Oracle) {
    && HasSeedCheck(experiment) && k + 10 <= n <= |t|
    && t[k + 9].Settled? && t[k + 9].probe.value != oracle.once
  }

  /**
   A violation does not always come from a proven experiment.  It does not exactly if the experiment checks its seed
   call and the probe that does so shows another value than the seed call's one effect.
   */
  lemma UnprovenViolation(t: seq<Event>, k: nat, n: nat, scenario: Scenario, result: ExperimentResult)
    requires k <= n <= |t| && Sound(t, k, n, scenario, result) && !result.conclusion.Inconclusive?
    ensures KindOf(result.fault).None? <==> SeedProbeDiffers(t, k, n, result.experiment, scenario.oracle)
    ensures SeedProbeDiffers(t, k, n, result.experiment, scenario.oracle) ==>
              && result.fault == NotProven(UnexpectedOutcome)
              && result.conclusion == Violation(scenario.oracle.once, t[k + 9].probe.value, SeedEffect)
  {
    hide SeedAt, RestartAt, RetryAt, SeedReportedAt, JudgedAs;
    ProvenFaultBehindEffect(t, k, n, scenario, result);
  }

  // A target that applies the withheld call twice: the seed probe finds 2 where 1 is the one effect.

  const TWICE_ORACLE := Oracle(0, 1, None)
  const TWICE_ID := RequestIdOf("run", "seed")
  const TWICE_PROCESS := Process(true, true, true, false, ByTerminate)
  const TWICE_CALLS: seq<Event> := [
    ResetCalled(0, Success(true)), Settled(0, Probe(0, 0)),
    Armed(0, TWICE_ID, false), Began(0, TWICE_ID), ResponseSuppressed(TWICE_ID), WriteAccepted(TWICE_ID, Receipt(2, 1)),
    CancelWritten(TWICE_ID, Receipt(2, 2)), Classified(TWICE_ID, Unknown(AbortedReason)), Settled(0, Probe(2, 1)),
    ResetCalled(0, Success(true)), Settled(0, Probe(0, 2))]
  const TWICE_HISTORY := [Opened(0)] + TWICE_CALLS + [Closed(0, Some(TWICE_PROCESS))]
  const TWICE_RESULT := ExperimentResult(
    [Attempt(Unknown(AbortedReason), SeedAttempt, TWICE_ID, Some(Receipt(2, 1)))], Some(Probe(0, 0)), None,
    Clean(TWICE_PROCESS), Violation(1, 2, SeedEffect), RetryNewId, NotProven(UnexpectedOutcome), None, "run",
    Some(Probe(2, 1)))

  /** Events that leave the live session s as it is. */
  predicate Quiet(e: Event, s: nat) {
    && !e.Opened? && !e.OpenRefused? && !e.Closed? && !e.TriggerFailed? && !e.AbortSeen?
    && (SessionOf(e).Some? ==> SessionOf(e) == Some(s))
  }

  lemma {:induction false} SpawnQuiet(trace: seq<Event>, quiet: seq<Event>, s: nat)
    requires SpawnOf(trace).live == Some(s) && forall i :: 0 <= i < |quiet| ==> Quiet(quiet[i], s)
    ensures SpawnOf(trace + quiet) == SpawnOf(trace)
  {
    hide SpawnOf;
    if quiet == [] {
      assert trace + quiet == trace;
    } else {
      var n := |quiet| - 1;
      SpawnQuiet(trace, quiet[..n], s);
      SpawnAppend(trace + quiet[..n], quiet[n]);
      assert trace + quiet == trace + quiet[..n] + [quiet[n]];
    }
  }

  lemma FirstOpening()
    ensures SpawnOf([Opened(0)]) == Spawn(Some(0), 1, false, None, false, true)
  {
    SpawnAppend([], Opened(0));
    assert [] + [Opened(0)] == [Opened(0)];
  }

  lemma TwiceIsQuiet()
    ensures forall i :: 0 <= i < |TWICE_CALLS| ==> Quiet(TWICE_CALLS[i], 0)
  {
  }

  /** The history of that target is one that spawns safely. */
  lemma TwiceIsSafe()
    ensures SpawnOf(TWICE_HISTORY) == Spawn(None, 1, false, None, false, true)
  {
    hide SpawnOf, Quiet;
    FirstOpening();
    TwiceIsQuiet();
    SpawnQuiet([Opened(0)], TWICE_CALLS, 0);
    SpawnAppend([Opened(0)] + TWICE_CALLS, Closed(0, Some(TWICE_PROCESS)));
  }

  /** Events that end no call and speak of no write. */
  predicate Silent(e: Event) {
    !e.WriteAccepted? && !e.WriteUnknown? && !e.EndedEarly? && !e.Classified?
  }

  lemma {:induction false} TallySilent(trace: seq<Event>, silent: seq<Event>)
    requires forall i :: 0 <= i < |silent| ==> Silent(silent[i])
    ensures TallyOf(trace + silent) == TallyOf(trace)
  {
    hide TallyOf;
    if silent == [] {
      assert trace + silent == trace;
    } else {
      var n := |silent| - 1;
      TallySilent(trace, silent[..n]);
      TallyAppend(trace + silent[..n], silent[n]);
      assert trace + silent == trace + silent[..n] + [silent[n]];
    }
  }

  /** A history with one write and, two events later, one end of a call. */
  lemma OneCallIsTold(h: seq<Event>, id: string, completion: Completion, receipt: Receipt)
    requires |h| > 8 && h[6] == WriteAccepted(id, receipt) && h[8] == Classified(id, completion)
    requires forall i :: 0 <= i < |h| && i != 6 && i != 8 ==> Silent(h[i])
    ensures TallyOf(h).calls == [Call(id, completion, Some(receipt))]
  {
    var start: seq<Event> := [];
    assert TallyOf(start) == Tally(None, []);
    hide TallyOf, Silent;
    assert start + h[..6] == h[..6];
    TallySilent(start, h[..6]);
    assert h[..6] + [h[6]] == h[..7];
    TallyAppend(h[..6], h[6]);
    assert h[..7] + h[7..8] == h[..8];
    TallySilent(h[..7], h[7..8]);
    assert h[..8] + [h[8]] == h[..9];
    TallyAppend(h[..8], h[8]);
    assert h[..9] + h[9..] == h;
    TallySilent(h[..9], h[9..]);
  }

  lemma TwiceIsSilent()
    ensures |TWICE_HISTORY| == 13 && TWICE_HISTORY[6] == WriteAccepted(TWICE_ID, Receipt(2, 1))
    ensures TWICE_HISTORY[8] == Classified(TWICE_ID, Unknown(AbortedReason))
    ensures forall i :: 0 <= i < |TWICE_HISTORY| && i != 6 && i != 8 ==> Silent(TWICE_HISTORY[i])
  {
  }

  lemma TwiceIsReported()
    ensures Reports(TallyOf(TWICE_HISTORY).calls, TallyOf(TWICE_HISTORY[..0]).calls, TWICE_RESULT.attempts)
  {
    TwiceIsSilent();
    OneCallIsTold(TWICE_HISTORY, TWICE_ID, Unknown(AbortedReason), Receipt(2, 1));
    assert TallyOf(TWICE_HISTORY[..0]).calls == [];
    hide TallyOf;
  }

  /** The witness: a sound result that is a violation, of an experiment whose fault is not proven. */
  lemma ViolationWithoutFault(scenario: Scenario)
    requires scenario.oracle == TWICE_ORACLE
    ensures SpawnOf(TWICE_HISTORY).safe && SpawnOf(TWICE_HISTORY).live.None?
    ensures Sound(TWICE_HISTORY, 0, |TWICE_HISTORY|, scenario, TWICE_RESULT)
    ensures TWICE_RESULT.conclusion.Violation? && KindOf(TWICE_RESULT.fault).None?
  {
    TwiceIsSafe();
    TwiceIsReported();
    hide SpawnOf, TallyOf, Reports;
    OwnIdsOfStrategies("run");
    hide OwnId;
    assert TWICE_HISTORY[..|TWICE_HISTORY|] == TWICE_HISTORY;
  }

  lemma SeedNeedsNoReset(t: seq<Event>, b: nat, s: nat, id: string, i: nat)
    requires SeedAt(t, b, s, id) && b <= i < b + 6
    ensures !t[i].ResetCalled?
  {
  }

  lemma RestartNeedsNoReset(t: seq<Event>, b: nat, s: nat, s': nat, process: Process, oracle: Oracle, i: nat)
    requires RestartAt(t, b, s, s', process, oracle) && b <= i < b + 3
    ensures !t[i].ResetCalled?
  {
  }

  /** Between the baseline and the final probe of a proven experiment the target was never reset. */
  lemma NoResetWhileProving(t: seq<Event>, k: nat, scenario: Scenario, runId: string, experiment: ExperimentName,
                            fault: Fault, attempts: seq<Attempt>, i: nat)
    requires Proven(t, k, scenario, runId, experiment, fault, attempts)
    requires k + 2 <= i < k + LengthOf(experiment)
    ensures !t[i].ResetCalled?
  {
    hide SeedAt, RestartAt, RequestIdOf, SeedReportedAt;
    var b, s, s' := k + 3, t[k].session, t[k + LengthOf(experiment) - 1].session;
    if b <= i < b + 6 && experiment.SuppressCompletedResponse? {
      SeedNeedsNoReset(t, b, s, RequestIdOf(runId, "seed"), i);
    } else if b <= i < b + 6 && HasSeedCheck(experiment) {
      SeedNeedsNoReset(t, b, s, SeedIdOf(runId, experiment), i);
    } else if b + 7 <= i < b + 10 && (experiment.RpcIdReuse? || experiment.RestartAfterSuppressedResponse?) {
      RestartNeedsNoReset(t, b + 7, s, s', fault.oldProcess, scenario.oracle, i);
    } else if b + 5 <= i < b + 8 && experiment.DisconnectAfterRequestWriteAccepted? {
      RestartNeedsNoReset(t, b + 5, s, s', fault.oldProcess, scenario.oracle, i);
    }
  }

  /** The durable probe of a clean pass under external persistence comes without any reset since the baseline. */
  lemma NoResetBeforeRecheck(t: seq<Event>, k: nat, n: nat, scenario: Scenario, result: ExperimentResult, i: nat)
    requires k <= n <= |t| && Sound(t, k, n, scenario, result)
    requires result.conclusion.Pass? && scenario.persistence.External? && result.cleanup.Clean?
    requires k + 2 <= i <= k + LengthOf(result.experiment) + 2
    ensures i < |t| && !t[i].ResetCalled?
  {
    hide FaultAt;
    if i < k + LengthOf(result.experiment) {
      NoResetWhileProving(t[..n], k, scenario, result.runId, result.experiment, result.fault, result.attempts, i);
    }
  }

  /**
   A clean pass under external persistence rests on a probe in a session that was opened only after every
   earlier session was confirmed to have terminated, with no reset since the baseline; that probe is the
   reported one and shows the expected value.
   */
  lemma RecheckIsIndependent(t: seq<Event>, k: nat, n: nat, scenario: Scenario, result: ExperimentResult)
    requires k <= n <= |t| && Sound(t, k, n, scenario, result) && SpawnOf(t).safe
    requires result.conclusion.Pass? && scenario.persistence.External? && result.cleanup.Clean?
    ensures var probe := k + LengthOf(result.experiment) + 2;
            && probe < n && result.final.Some?
            && t[probe - 1].Opened? && t[probe] == Settled(t[probe - 1].session, result.final.value)
            && result.final.value.value == result.conclusion.expected
            && (forall i :: k + 2 <= i < probe ==> !t[i].ResetCalled?)
            && (forall i :: 0 <= i < probe - 1 && t[i].Opened? ==> ConfirmedBetween(t, i, probe - 1))
  {
    hide Proven, SpawnOf;
    var probe := k + LengthOf(result.experiment) + 2;
    forall i | k + 2 <= i < probe
      ensures !t[i].ResetCalled?
    {
      NoResetBeforeRecheck(t, k, n, scenario, result, i);
    }
    forall i | 0 <= i < probe - 1 && t[i].Opened?
      ensures ConfirmedBetween(t, i, probe - 1)
    {
      OpenedAfterConfirmation(t, i, probe - 1);
    }
  }
}
