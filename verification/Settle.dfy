/**
 The settling oracle: it samples a probe until the value has been stable for long enough, and in
 full-window mode only a fresh read at the boundary may confirm the result.

 The environment is a script: for every round of the loop, the clock readings and what the read and the
 sleep did.  A script is any finite beginning of a run, so what is proved of all scripts holds of all runs.
 Clock readings are real numbers.
 */
module Settle {
  import opened Common

  const MAX_RETAINED_SAMPLES: nat := 256

  datatype Options = Options(
    intervalMs: nat, observeUntilDeadline: bool, requestTimeoutMs: nat, stableSamples: nat, timeoutMs: nat)
  {
    predicate Valid() {
      && 1 <= intervalMs <= MAX_SAFE_INTEGER && 1 <= requestTimeoutMs <= MAX_SAFE_INTEGER
      && 1 <= stableSamples <= MAX_SAFE_INTEGER && 1 <= timeoutMs <= MAX_SAFE_INTEGER
    }
  }

  datatype Sample = Sample(startedOffsetMs: real, completedOffsetMs: real, sequence: nat, value: int)

  /** How a read ended; `NotRead` means that the abort signal was set before it was begun. */
  datatype ReadOutcome = Value(value: int) | ReadTimedOut | ReadAborted | ReadFailed | NotRead

  /** How a sleep ended; `NotSlept` means that the abort signal was set before it was begun. */
  datatype SleepOutcome = Slept | SleepTimedOut | SleepAborted | SleepFailed | NotSlept

  /**
   One round of the loop: the clock at its head, before the read, after it, before the sleep, and when a
   timeout is reported; and how the read and the sleep ended, if they were begun.
   */
  datatype Round = Round(
    startedAt: real,
    readCheckedAt: real,
    read: ReadOutcome,
    completedAt: real,
    sleepCheckedAt: real,
    sleep: SleepOutcome,
    reportedAt: real)

  datatype ProbeEvidence = ProbeEvidence(
    droppedSamples: nat,
    elapsedMs: real,
    lastStreak: nat,
    lastValue: Option<int>,
    longestStreak: nat,
    samples: seq<Sample>,
    totalSamples: nat,
    transitions: nat)

  /** `Unfinished` means that the script ended first. */
  datatype Verdict =
    | Stable(value: int, evidence: ProbeEvidence)
    | TimedOut(evidence: ProbeEvidence)
    | Aborted
    | InvalidOptions
    | InvalidTime
    | InvalidValue
    | ReaderFailed
    | SleeperFailed
    | Unfinished

  // ---------------------------------------------------------------- definitions on the full history

  /** Length of the run of equal values at the end. */
  function Streak(history: seq<Sample>): nat {
    var n := |history|;
    if n == 0 then 0
    else if n == 1 || history[n - 2].value != history[n - 1].value then 1
    else Streak(history[..n - 1]) + 1
  }

  /** Length of the longest run of equal values. */
  function LongestStreak(history: seq<Sample>): nat {
    if history == [] then 0
    else
      var before := LongestStreak(history[..|history| - 1]);
      if before < Streak(history) then Streak(history) else before
  }

  /** Number of neighbours with different values. */
  function Transitions(history: seq<Sample>): nat {
    var n := |history|;
    if n < 2 then 0
    else Transitions(history[..n - 1]) + if history[n - 2].value != history[n - 1].value then 1 else 0
  }

  /** The last k values exist and all equal the given one. */
  predicate EndsWith(history: seq<Sample>, k: nat, value: int) {
    k <= |history| && forall i :: |history| - k <= i < |history| ==> history[i].value == value
  }

  /** The streak is exactly the number of equal values at the end. */
  lemma {:induction false} StreakMeaning(history: seq<Sample>, k: nat)
    requires history != []
    ensures 1 <= Streak(history) <= |history|
    ensures EndsWith(history, k, history[|history| - 1].value) <==> k <= Streak(history)
  {
    var n := |history|;
    if n > 1 && history[n - 2].value == history[n - 1].value {
      StreakMeaning(history[..n - 1], if k > 0 then k - 1 else 0);
    }
  }

  /** A history is cut by its transitions into runs no longer than the longest one. */
  lemma {:induction false} TotalIsBounded(history: seq<Sample>)
    ensures Streak(history) <= LongestStreak(history)
    ensures |history| <= LongestStreak(history) * Transitions(history) + Streak(history)
    ensures |history| <= LongestStreak(history) * (Transitions(history) + 1)
  {
    if history != [] {
      var before := history[..|history| - 1];
      TotalIsBounded(before);
      MultiplyUp(LongestStreak(before), LongestStreak(history), Transitions(before));
      assert |history| > 1 ==> before[|before| - 1] == history[|history| - 2];
      assert LongestStreak(history) * (Transitions(before) + 1)
             == LongestStreak(history) * Transitions(before) + LongestStreak(history);
    }
  }

  lemma MultiplyUp(a: nat, b: nat, t: nat)
    requires a <= b
    ensures a * t <= b * t
  {
  }

  /** The evidence is what its definitions say of the history. */
  predicate Describes(evidence: ProbeEvidence, history: seq<Sample>) {
    && evidence.totalSamples == |history|
    && evidence.lastStreak == Streak(history)
    && evidence.lastValue == (if history == [] then None else Some(history[|history| - 1].value))
    && evidence.longestStreak == LongestStreak(history)
    && evidence.transitions == Transitions(history)
    && evidence.samples == Last(history, MAX_RETAINED_SAMPLES)
    && evidence.droppedSamples + |evidence.samples| == |history|
  }

  /** What one more sample does to the definitions. */
  lemma OneMoreSample(history: seq<Sample>, sample: Sample)
    ensures var after := history + [sample];
            var same := history != [] && history[|history| - 1].value == sample.value;
            var streak := if same then Streak(history) + 1 else 1;
            && Streak(after) == streak
            && LongestStreak(after) == (if LongestStreak(history) < streak then streak else LongestStreak(history))
            && Transitions(after) == Transitions(history) + (if history != [] && !same then 1 else 0)
  {
    var after := history + [sample];
    assert after[..|after| - 1] == history;
  }

  /** The retained samples after one more. */
  lemma OneMoreRetained(history: seq<Sample>, sample: Sample)
    ensures var grown := Last(history, MAX_RETAINED_SAMPLES) + [sample];
            Last(history + [sample], MAX_RETAINED_SAMPLES)
            == if |grown| <= MAX_RETAINED_SAMPLES then grown else grown[1..]
  {
  }

  class MutableEvidence {
    var droppedSamples: nat
    var lastStreak: nat
    var lastValue: Option<int>
    var longestStreak: nat
    var samples: seq<Sample>
    var totalSamples: nat
    var transitions: nat
    /** Every sample recorded so far. */
    ghost var history: seq<Sample>

    function Snapshot(elapsedMs: real): ProbeEvidence
      reads this
    {
      ProbeEvidence(droppedSamples, elapsedMs, lastStreak, lastValue, longestStreak, samples, totalSamples, transitions)
    }

    ghost predicate Valid()
      reads this
    {
      Describes(Snapshot(0.0), history)
    }

    constructor ()
      ensures Valid() && history == []
    {
      droppedSamples, lastStreak, lastValue, longestStreak, samples := 0, 0, None, 0, [];
      totalSamples, transitions, history := 0, 0, [];
    }

    method Record(sample: Sample)
      requires Valid()
      modifies this
      ensures Valid() && history == old(history) + [sample]
    {
      hide Streak, LongestStreak, Transitions, Last;
      OneMoreSample(history, sample);
      OneMoreRetained(history, sample);
      totalSamples := totalSamples + 1;
      if lastValue.None? {
        lastStreak := 1;
      } else if lastValue.value == sample.value {
        lastStreak := lastStreak + 1;
      } else {
        transitions := transitions + 1;
        lastStreak := 1;
      }
      lastValue := Some(sample.value);
      longestStreak := if longestStreak < lastStreak then lastStreak else longestStreak;
      samples := samples + [sample];
      if |samples| > MAX_RETAINED_SAMPLES {
        samples := samples[1..];
        droppedSamples := droppedSamples + 1;
      }
      history := history + [sample];
    }
  }

  // ---------------------------------------------------------------- one round of the loop

  /** A read the loop made: when its round started, its boundary, and the timeout the reader was given. */
  datatype ReadCall = ReadCall(startedOffsetMs: real, limitOffsetMs: real, timeoutMs: int)

  datatype Progress = Done(verdict: Verdict) | Continue(observed: real)

  function MinReal(a: real, b: real): real {
    if a <= b then a else b
  }

  function Deadline(options: Options, start: real): real {
    start + options.timeoutMs as real
  }

  /** This round is the confirmation at the boundary. */
  predicate IsConfirmation(options: Options, start: real, round: Round) {
    options.observeUntilDeadline && round.startedAt >= Deadline(options, start)
  }

  /** A read before the boundary is capped at it; the confirmation has a full request timeout. */
  function ReadLimit(options: Options, start: real, round: Round): real {
    var requestDeadline := round.startedAt + options.requestTimeoutMs as real;
    if IsConfirmation(options, start, round) then requestDeadline
    else MinReal(requestDeadline, Deadline(options, start))
  }

  /** The least whole number of milliseconds, at least one, that covers the span. */
  function WholeMs(span: real): (ms: int)
    ensures ms >= 1 && ms as real >= span && (ms == 1 || (ms - 1) as real < span)
  {
    var ceiling := -(-span).Floor;
    if ceiling < 1 then 1 else ceiling
  }

  function ReadCallOf(options: Options, start: real, round: Round): ReadCall {
    var limit := ReadLimit(options, start, round);
    ReadCall(round.startedAt - start, limit - start, WholeMs(limit - round.startedAt))
  }

  /** The round gets as far as its read: in time, not aborted, and on a clock that did not go back. */
  predicate ReadIsMade(options: Options, start: real, observed: real, round: Round) {
    && observed <= round.startedAt && (options.observeUntilDeadline || round.startedAt < Deadline(options, start))
    && !round.read.NotRead? && round.startedAt <= round.readCheckedAt < ReadLimit(options, start, round)
  }

  /** The read could not begin before its boundary, or ran into it. */
  predicate ReadIsMissed(options: Options, start: real, observed: real, round: Round) {
    && observed <= round.startedAt && (options.observeUntilDeadline || round.startedAt < Deadline(options, start))
    && !round.read.NotRead? && round.startedAt <= round.readCheckedAt
    && (round.readCheckedAt >= ReadLimit(options, start, round) || round.read.ReadTimedOut?)
  }

  predicate IsSafeInteger(value: int) {
    -MAX_SAFE_INTEGER <= value <= MAX_SAFE_INTEGER
  }

  /** The round's read gave a usable value, and in time. */
  predicate IsUsable(options: Options, start: real, observed: real, round: Round) {
    && ReadIsMade(options, start, observed, round) && round.read.Value? && IsSafeInteger(round.read.value)
    && round.readCheckedAt <= round.completedAt
    && (options.observeUntilDeadline || round.completedAt < Deadline(options, start))
  }

  /** Unless the sample made enough equal ones, a sleep follows. */
  predicate SleepIsDue(options: Options, start: real, observed: real, round: Round) {
    && IsUsable(options, start, observed, round) && !IsConfirmation(options, start, round)
    && round.completedAt < Deadline(options, start)
  }

  /** The sleep could not begin before the boundary, or ran into it. */
  predicate SleepIsMissed(options: Options, start: real, round: Round) {
    && !round.sleep.NotSlept? && round.completedAt <= round.sleepCheckedAt
    && (round.sleepCheckedAt >= Deadline(options, start) || round.sleep.SleepTimedOut?)
  }

  /** The last clock reading of a round that the loop goes on from. */
  function Seen(options: Options, start: real, observed: real, round: Round): real {
    if !IsUsable(options, start, observed, round) then round.readCheckedAt
    else if round.completedAt >= Deadline(options, start) then round.completedAt
    else round.sleepCheckedAt
  }

  /** How long the loop sleeps after a round. */
  function SleepMs(options: Options, start: real, round: Round): real {
    MinReal(options.intervalMs as real, Deadline(options, start) - round.completedAt)
  }

  /** A sleep is begun: not aborted, before the boundary, and on a clock that did not go back. */
  predicate SleepIsMade(options: Options, start: real, round: Round) {
    !round.sleep.NotSlept? && round.completedAt <= round.sleepCheckedAt < Deadline(options, start)
  }

  function SampleOf(start: real, round: Round, sequence: nat): Sample
    requires round.read.Value?
  {
    Sample(round.startedAt - start, round.completedAt - start, sequence, round.read.value)
  }

  /** Without full-window mode the loop goes on only as long as no run of equal samples was long enough. */
  predicate NotYetStable(options: Options, history: seq<Sample>) {
    !options.observeUntilDeadline ==> LongestStreak(history) < options.stableSamples
  }

  /** What every verdict says about the history it was reached on. */
  ghost predicate VerdictOk(options: Options, verdict: Verdict, history: seq<Sample>) {
    match verdict
    case Stable(value, evidence) =>
      && Describes(evidence, history)
      && history != [] && history[|history| - 1].value == value
      && EndsWith(history, options.stableSamples, value)
      && NotYetStable(options, history[..|history| - 1])
      && (options.observeUntilDeadline ==> history[|history| - 1].startedOffsetMs >= options.timeoutMs as real)
    case TimedOut(evidence) =>
      && Describes(evidence, history) && NotYetStable(options, history)
      && (options.observeUntilDeadline && history != []
          && history[|history| - 1].startedOffsetMs >= options.timeoutMs as real ==>
            !EndsWith(history, options.stableSamples, history[|history| - 1].value))
    case _ => true
  }

  /** The clock went back within the round. */
  predicate GoesBack(round: Round) {
    || round.readCheckedAt < round.startedAt || round.completedAt < round.readCheckedAt
    || round.sleepCheckedAt < round.completedAt
    || round.reportedAt < round.startedAt || round.reportedAt < round.readCheckedAt
    || round.reportedAt < round.sleepCheckedAt
  }

  /** A boundary was reached, or a read or sleep ran into it. */
  predicate ReachesBoundary(options: Options, start: real, round: Round) {
    var deadline := Deadline(options, start);
    || round.startedAt >= deadline || round.readCheckedAt >= ReadLimit(options, start, round)
    || round.completedAt >= deadline || round.sleepCheckedAt >= deadline
    || round.read.ReadTimedOut? || round.sleep.SleepTimedOut?
  }

  /** What happened in the last round that makes the loop end with this verdict. */
  predicate CausedBy(options: Options, start: real, round: Round, verdict: Verdict) {
    match verdict
    case Stable(value, _) => round.read == Value(value)
    case TimedOut(_) => ReachesBoundary(options, start, round)
    case Aborted => round.read.NotRead? || round.read.ReadAborted? || round.sleep.NotSlept? || round.sleep.SleepAborted?
    case InvalidValue => round.read.Value? && !(-MAX_SAFE_INTEGER <= round.read.value <= MAX_SAFE_INTEGER)
    case ReaderFailed => round.read.ReadFailed?
    case SleeperFailed => round.sleep.SleepFailed?
    case InvalidTime => true
    case _ => false
  }

  /** After a round that left `history`, the loop goes on. */
  predicate GoesOn(options: Options, start: real, observed: real, round: Round, history: seq<Sample>) {
    || (&& options.observeUntilDeadline && !IsConfirmation(options, start, round)
        && (|| ReadIsMissed(options, start, observed, round)
            || (IsUsable(options, start, observed, round) && round.completedAt >= Deadline(options, start))))
    || (&& SleepIsDue(options, start, observed, round) && NotYetStable(options, history)
        && if SleepIsMissed(options, start, round) then options.observeUntilDeadline
           else SleepIsMade(options, start, round) && round.sleep.Slept?)
  }

  /** The clock is seen to go back: at one of the readings the round gets to. */
  predicate SeenGoingBack(options: Options, start: real, observed: real, round: Round, history: seq<Sample>) {
    var deadline := Deadline(options, start);
    if round.startedAt < observed then true
    else if !options.observeUntilDeadline && round.startedAt >= deadline then round.reportedAt < round.startedAt
    else if round.read.NotRead? then false
    else if round.readCheckedAt < round.startedAt then true
    else if ReadIsMissed(options, start, observed, round) then
      && (options.observeUntilDeadline ==> IsConfirmation(options, start, round))
      && round.reportedAt < round.readCheckedAt
    else if !round.read.Value? || !IsSafeInteger(round.read.value) then false
    else if round.completedAt < round.readCheckedAt then true
    else
      && SleepIsDue(options, start, observed, round) && NotYetStable(options, history) && !round.sleep.NotSlept?
      && (|| round.sleepCheckedAt < round.completedAt
          || (&& !options.observeUntilDeadline && SleepIsMissed(options, start, round)
              && round.reportedAt < round.sleepCheckedAt))
  }

  /** The abort signal was set before the read or the sleep, or during one of them. */
  predicate IsAborted(options: Options, start: real, observed: real, round: Round, history: seq<Sample>) {
    var waits := SleepIsDue(options, start, observed, round) && NotYetStable(options, history);
    || (&& observed <= round.startedAt && (options.observeUntilDeadline || round.startedAt < Deadline(options, start))
        && round.read.NotRead?)
    || (ReadIsMade(options, start, observed, round) && round.read.ReadAborted?)
    || (waits && round.sleep.NotSlept?)
    || (waits && SleepIsMade(options, start, round) && round.sleep.SleepAborted?)
  }

  /** Enough equal samples at the end, the last of them from this round, and at the boundary in full-window mode. */
  predicate Settles(options: Options, start: real, observed: real, round: Round, history: seq<Sample>) {
    && IsUsable(options, start, observed, round)
    && EndsWith(history, options.stableSamples, round.read.value)
    && (options.observeUntilDeadline ==> IsConfirmation(options, start, round))
  }

  /** Each way to end a round has exactly its conditions; what is left is a timeout. */
  predicate EndsAs(options: Options, start: real, observed: real, round: Round, history: seq<Sample>,
                   verdict: Verdict)
  {
    && (verdict.Stable? <==> Settles(options, start, observed, round, history))
    && (verdict.Aborted? <==> IsAborted(options, start, observed, round, history))
    && (verdict.ReaderFailed? <==> ReadIsMade(options, start, observed, round) && round.read.ReadFailed?)
    && (verdict.InvalidValue? <==>
          ReadIsMade(options, start, observed, round) && round.read.Value? && !IsSafeInteger(round.read.value))
    && (verdict.SleeperFailed? <==>
          && SleepIsDue(options, start, observed, round) && NotYetStable(options, history)
          && SleepIsMade(options, start, round) && round.sleep.SleepFailed?)
    && (verdict.InvalidTime? <==> SeenGoingBack(options, start, observed, round, history))
    && !verdict.InvalidOptions? && !verdict.Unfinished?
    && (verdict.Stable? ==> verdict.evidence.elapsedMs == round.completedAt - start)
    && (verdict.TimedOut? ==>
          verdict.evidence.elapsedMs
          == (if IsLate(options, start, observed, round) then round.completedAt else round.reportedAt) - start)
  }

  /** A usable value that came too late, or was the last one: the timeout is dated by its completion. */
  predicate IsLate(options: Options, start: real, observed: real, round: Round) {
    && ReadIsMade(options, start, observed, round) && round.read.Value? && IsSafeInteger(round.read.value)
    && (IsConfirmation(options, start, round)
        || (!options.observeUntilDeadline && round.completedAt >= Deadline(options, start)))
  }

  /** Without full-window mode nothing that completes at or after the deadline is recorded. */
  predicate InTime(options: Options, sample: Sample) {
    && sample.startedOffsetMs <= sample.completedOffsetMs
    && (!options.observeUntilDeadline ==> sample.completedOffsetMs < options.timeoutMs as real)
  }

  /** Every sample was started before the boundary. */
  predicate StartedBefore(options: Options, history: seq<Sample>) {
    forall i :: 0 <= i < |history| ==> history[i].startedOffsetMs < options.timeoutMs as real
  }

  /** What one round adds to the history: nothing, or the sample it read. */
  predicate Extends(options: Options, start: real, round: Round, before: seq<Sample>, after: seq<Sample>) {
    || after == before
    || (&& round.read.Value? && after == before + [SampleOf(start, round, |before| + 1)]
        && InTime(options, after[|before|]))
  }

  /** The streak decides whether the loop has enough equal samples, and if not, it never had. */
  lemma SampleDecides(options: Options, before: seq<Sample>, sample: Sample)
    requires NotYetStable(options, before)
    ensures var after := before + [sample];
            && after[..|before|] == before
            && (EndsWith(after, options.stableSamples, sample.value) <==> options.stableSamples <= Streak(after))
            && (NotYetStable(options, after) <==> options.observeUntilDeadline || Streak(after) < options.stableSamples)
  {
    hide Streak, LongestStreak;
    OneMoreSample(before, sample);
    StreakMeaning(before + [sample], options.stableSamples);
  }

  /** What one round does: exactly a usable value is recorded, and it goes on or ends under exactly its conditions. */
  ghost predicate RoundDoes(options: Options, start: real, observed: real, round: Round, before: seq<Sample>,
                            after: seq<Sample>, calls: seq<ReadCall>, progress: Progress)
  {
    && Extends(options, start, round, before, after)
    && after == before + (if IsUsable(options, start, observed, round) then [SampleOf(start, round, |before| + 1)]
                          else [])
    && calls == (if ReadIsMade(options, start, observed, round) then [ReadCallOf(options, start, round)] else [])
    && match progress
       case Done(verdict) =>
         && VerdictOk(options, verdict, after) && CausedBy(options, start, round, verdict)
         && EndsAs(options, start, observed, round, after, verdict)
         && (!verdict.Stable? ==> NotYetStable(options, after))
       case Continue(last) =>
         && GoesOn(options, start, observed, round, after) && NotYetStable(options, after)
         && last == Seen(options, start, observed, round) >= observed && round.startedAt < Deadline(options, start)
  }

  method ReportTimeout(evidence: MutableEvidence, start: real, observed: real, round: Round) returns (verdict: Verdict)
    requires evidence.Valid()
    ensures if round.reportedAt < observed then verdict == InvalidTime
            else && verdict.TimedOut? && Describes(verdict.evidence, evidence.history)
                 && verdict.evidence.elapsedMs == if round.reportedAt < start then 0.0 else round.reportedAt - start
  {
    if round.reportedAt < observed {
      return InvalidTime;
    }
    var elapsed := round.reportedAt - start;
    verdict := TimedOut(evidence.Snapshot(if elapsed < 0.0 then 0.0 else elapsed));
  }

  method RunRound(options: Options, start: real, observed: real, evidence: MutableEvidence, round: Round)
    returns (progress: Progress, calls: seq<ReadCall>, sleeps: seq<real>)
    requires evidence.Valid() && start <= observed && options.Valid()
    requires StartedBefore(options, evidence.history) && NotYetStable(options, evidence.history)
    modifies evidence
    ensures evidence.Valid()
    ensures RoundDoes(options, start, observed, round, old(evidence.history), evidence.history, calls, progress)
    ensures progress == Done(InvalidTime) ==> round.startedAt < observed || GoesBack(round)
    ensures progress.Continue? <==> GoesOn(options, start, observed, round, evidence.history)
    ensures sleeps == if && SleepIsDue(options, start, observed, round) && NotYetStable(options, evidence.history)
                         && SleepIsMade(options, start, round)
                      then [SleepMs(options, start, round)] else []
  {
    hide EndsWith, Streak, LongestStreak, Transitions, NotYetStable, Last;
    calls, sleeps := [], [];
    var deadline := Deadline(options, start);
    if round.startedAt < observed {
      return Done(InvalidTime), calls, sleeps;
    }
    var isFinalConfirmation := options.observeUntilDeadline && round.startedAt >= deadline;
    if !options.observeUntilDeadline && round.startedAt >= deadline {
      var verdict := ReportTimeout(evidence, start, round.startedAt, round);
      return Done(verdict), calls, sleeps;
    }
    var limit := ReadLimit(options, start, round);
    if round.read.NotRead? {
      return Done(Aborted), calls, sleeps;
    }
    if round.readCheckedAt < round.startedAt {
      return Done(InvalidTime), calls, sleeps;
    }
    if round.readCheckedAt < limit {
      calls := [ReadCall(round.startedAt - start, limit - start, WholeMs(limit - round.startedAt))];
      if round.read.ReadAborted? {
        return Done(Aborted), calls, sleeps;
      }
    }
    if round.readCheckedAt >= limit || round.read.ReadTimedOut? {
      if options.observeUntilDeadline && !isFinalConfirmation {
        return Continue(round.readCheckedAt), calls, sleeps;
      }
      var verdict := ReportTimeout(evidence, start, round.readCheckedAt, round);
      return Done(verdict), calls, sleeps;
    }
    if round.read.ReadFailed? {
      return Done(ReaderFailed), calls, sleeps;
    }
    if !(-MAX_SAFE_INTEGER <= round.read.value <= MAX_SAFE_INTEGER) {
      return Done(InvalidValue), calls, sleeps;
    }
    if round.completedAt < round.readCheckedAt {
      return Done(InvalidTime), calls, sleeps;
    }
    if !options.observeUntilDeadline && round.completedAt >= deadline {
      return Done(TimedOut(evidence.Snapshot(round.completedAt - start))), calls, sleeps;
    }
    progress, sleeps := RecordAndWait(options, start, observed, evidence, round, isFinalConfirmation);
  }

  /** The rest of a round whose read gave a usable value. */
  method RecordAndWait(options: Options, start: real, ghost observed: real, evidence: MutableEvidence, round: Round,
                       isFinalConfirmation: bool)
    returns (progress: Progress, sleeps: seq<real>)
    requires evidence.Valid() && options.Valid() && start <= observed && IsUsable(options, start, observed, round)
    requires isFinalConfirmation == IsConfirmation(options, start, round)
    requires NotYetStable(options, evidence.history)
    modifies evidence
    ensures evidence.Valid()
    ensures evidence.history == old(evidence.history) + [SampleOf(start, round, |old(evidence.history)| + 1)]
    ensures progress.Done? ==> VerdictOk(options, progress.verdict, evidence.history)
    ensures progress.Done? ==> CausedBy(options, start, round, progress.verdict)
    ensures progress.Done? ==> EndsAs(options, start, observed, round, evidence.history, progress.verdict)
    ensures progress == Done(InvalidTime) ==> GoesBack(round)
    ensures progress.Continue? <==> GoesOn(options, start, observed, round, evidence.history)
    ensures progress.Continue? ==> progress.observed == Seen(options, start, observed, round) >= round.completedAt
    ensures !(progress.Done? && progress.verdict.Stable?) ==> NotYetStable(options, evidence.history)
    ensures sleeps == if && SleepIsDue(options, start, observed, round) && NotYetStable(options, evidence.history)
                         && SleepIsMade(options, start, round)
                      then [SleepMs(options, start, round)] else []
  {
    hide EndsWith, Streak, LongestStreak, Transitions, NotYetStable, Last;
    sleeps := [];
    var deadline := Deadline(options, start);
    ghost var before := evidence.history;
    SampleDecides(options, before, SampleOf(start, round, |before| + 1));
    evidence.Record(SampleOf(start, round, evidence.totalSamples + 1));
    if evidence.lastStreak >= options.stableSamples && (!options.observeUntilDeadline || isFinalConfirmation) {
      return Done(Stable(round.read.value, evidence.Snapshot(round.completedAt - start))), sleeps;
    }
    if isFinalConfirmation {
      return Done(TimedOut(evidence.Snapshot(round.completedAt - start))), sleeps;
    }
    if options.observeUntilDeadline && round.completedAt >= deadline {
      return Continue(round.completedAt), sleeps;
    }
    if round.sleep.NotSlept? {
      return Done(Aborted), sleeps;
    }
    if round.sleepCheckedAt < round.completedAt {
      return Done(InvalidTime), sleeps;
    }
    if round.sleepCheckedAt < deadline {
      sleeps := [if options.intervalMs as real <= deadline - round.completedAt then options.intervalMs as real
                 else deadline - round.completedAt];
      if round.sleep.SleepAborted? {
        return Done(Aborted), sleeps;
      }
    }
    if round.sleepCheckedAt >= deadline || round.sleep.SleepTimedOut? {
      if options.observeUntilDeadline {
        return Continue(round.sleepCheckedAt), sleeps;
      }
      var verdict := ReportTimeout(evidence, start, round.sleepCheckedAt, round);
      return Done(verdict), sleeps;
    }
    if round.sleep.SleepFailed? {
      return Done(SleeperFailed), sleeps;
    }
    progress := Continue(round.sleepCheckedAt);
  }

  // ---------------------------------------------------------------- an idealised clock

  /** The time an idealised clock has reached after a round that goes on to the next. */
  function ResumeAt(options: Options, start: real, round: Round): real {
    var deadline, limit := Deadline(options, start), ReadLimit(options, start, round);
    if round.readCheckedAt >= limit then round.readCheckedAt
    else if round.read.ReadTimedOut? then limit
    else if round.completedAt >= deadline then round.completedAt
    else if round.sleepCheckedAt >= deadline then round.sleepCheckedAt
    else if round.sleep.SleepTimedOut? then deadline
    else round.sleepCheckedAt + SleepMs(options, start, round)
  }

  /** The clock is monotone, a sleep takes at least its length, and what times out reaches its deadline. */
  predicate Ideal(options: Options, start: real, rounds: seq<Round>) {
    && (forall i :: 0 <= i < |rounds| ==>
          start <= rounds[i].startedAt <= rounds[i].readCheckedAt <= rounds[i].completedAt <= rounds[i].sleepCheckedAt)
    && (forall i :: 0 < i < |rounds| ==> rounds[i].startedAt >= ResumeAt(options, start, rounds[i - 1]))
  }

  /** The least a round before the boundary takes. */
  function StepMs(options: Options): nat {
    if options.intervalMs <= options.requestTimeoutMs then options.intervalMs else options.requestTimeoutMs
  }

  /** Rounds before the boundary: the timeout divided by the step, rounded up. */
  function RoundsBeforeBoundary(options: Options): (n: nat)
    requires options.Valid()
    ensures (n - 1) * StepMs(options) < options.timeoutMs <= n * StepMs(options)
  {
    (options.timeoutMs + StepMs(options) - 1) / StepMs(options)
  }

  /** Every round before the boundary advances the clock by a step or reaches the boundary. */
  lemma RoundAdvances(options: Options, start: real, round: Round)
    requires options.Valid()
    requires start <= round.startedAt <= round.readCheckedAt <= round.completedAt <= round.sleepCheckedAt
    requires round.startedAt < Deadline(options, start)
    ensures ResumeAt(options, start, round)
            >= MinReal(round.startedAt + StepMs(options) as real, Deadline(options, start))
  {
  }

  lemma AddStep(start: real, i: nat, step: nat)
    ensures start + ((i + 1) * step) as real == start + (i * step) as real + step as real
  {
    assert (i + 1) * step == i * step + step;
  }

  lemma {:induction false} ClockAdvances(options: Options, start: real, rounds: seq<Round>, i: nat)
    requires options.Valid() && Ideal(options, start, rounds) && i < |rounds|
    requires forall j :: 0 <= j < i ==> rounds[j].startedAt < Deadline(options, start)
    ensures rounds[i].startedAt >= MinReal(start + (i * StepMs(options)) as real, Deadline(options, start))
  {
    if i > 0 {
      ClockAdvances(options, start, rounds, i - 1);
      RoundAdvances(options, start, rounds[i - 1]);
      AddStep(start, i - 1, StepMs(options));
    }
  }

  /** Under an idealised clock only so many rounds start before the boundary. */
  lemma RoundsAreBounded(options: Options, start: real, rounds: seq<Round>, n: nat)
    requires options.Valid() && Ideal(options, start, rounds) && n <= |rounds|
    requires forall i :: 0 <= i < n ==> rounds[i].startedAt < Deadline(options, start)
    ensures n <= RoundsBeforeBoundary(options)
  {
    if n > RoundsBeforeBoundary(options) {
      ClockAdvances(options, start, rounds, RoundsBeforeBoundary(options));
    }
  }

  // ---------------------------------------------------------------- the loop

  /** Everything a settle did, for the given beginning of a run. */
  datatype Outcome = Outcome(verdict: Verdict, calls: seq<ReadCall>, rounds: nat)

  /** The samples are numbered on, and those that came too late are not among them. */
  predicate Recorded(options: Options, history: seq<Sample>) {
    forall i :: 0 <= i < |history| ==> InTime(options, history[i]) && history[i].sequence == i + 1
  }

  /** The first n rounds start before the boundary. */
  predicate RoundsBefore(options: Options, start: real, rounds: seq<Round>, n: nat)
    requires n <= |rounds|
  {
    forall i :: 0 <= i < n ==> rounds[i].startedAt < Deadline(options, start)
  }

  /** The first n reads start before the boundary. */
  predicate CallsBefore(options: Options, calls: seq<ReadCall>, n: int)
    requires n <= |calls|
  {
    forall i :: 0 <= i < n ==> calls[i].startedOffsetMs < options.timeoutMs as real
  }

  /** A read that starts before the boundary is given no time beyond it, any other only in full-window mode. */
  predicate CallsCapped(options: Options, calls: seq<ReadCall>) {
    forall i :: 0 <= i < |calls| ==>
      && calls[i].limitOffsetMs <= calls[i].startedOffsetMs + options.requestTimeoutMs as real
      && (calls[i].startedOffsetMs < options.timeoutMs as real ==> calls[i].limitOffsetMs <= options.timeoutMs as real)
      && (calls[i].startedOffsetMs >= options.timeoutMs as real ==> options.observeUntilDeadline)
  }

  lemma RecordedOn(options: Options, start: real, round: Round, before: seq<Sample>, after: seq<Sample>)
    requires Recorded(options, before) && StartedBefore(options, before)
    requires Extends(options, start, round, before, after)
    ensures Recorded(options, after) && (round.startedAt < Deadline(options, start) ==> StartedBefore(options, after))
  {
  }

  lemma CappedOn(options: Options, start: real, observed: real, round: Round, calls: seq<ReadCall>)
    requires options.Valid() && ReadIsMade(options, start, observed, round) && CallsCapped(options, calls)
    requires CallsBefore(options, calls, |calls|)
    ensures var after := calls + [ReadCallOf(options, start, round)];
            && CallsCapped(options, after) && CallsBefore(options, after, |calls|)
            && (round.startedAt < Deadline(options, start) ==> CallsBefore(options, after, |after|))
  {
  }

  /** The last clock reading before round n. */
  function ObservedBefore(options: Options, start: real, rounds: seq<Round>, n: nat): real
    requires n <= |rounds|
  {
    if n == 0 then start
    else Seen(options, start, ObservedBefore(options, start, rounds, n - 1), rounds[n - 1])
  }

  /** The samples of the usable ones among the first n rounds. */
  function Samples(options: Options, start: real, rounds: seq<Round>, n: nat): seq<Sample>
    requires n <= |rounds|
  {
    if n == 0 then []
    else
      var before := Samples(options, start, rounds, n - 1);
      if IsUsable(options, start, ObservedBefore(options, start, rounds, n - 1), rounds[n - 1])
      then before + [SampleOf(start, rounds[n - 1], |before| + 1)] else before
  }

  /** The loop goes on after each of the first n rounds. */
  predicate GoesOnFor(options: Options, start: real, rounds: seq<Round>, n: nat)
    requires n <= |rounds|
  {
    forall i :: 0 <= i < n ==>
      GoesOn(options, start, ObservedBefore(options, start, rounds, i), rounds[i],
             Samples(options, start, rounds, i + 1))
  }

  /** The verdict is that of the last round, with the samples recorded by then. */
  predicate LastEndsAs(options: Options, start: real, rounds: seq<Round>, n: nat, verdict: Verdict)
    requires 0 < n <= |rounds|
  {
    EndsAs(options, start, ObservedBefore(options, start, rounds, n - 1), rounds[n - 1],
           Samples(options, start, rounds, n), verdict)
  }

  lemma FirstRound(options: Options, start: real, rounds: seq<Round>)
    ensures ObservedBefore(options, start, rounds, 0) == start && Samples(options, start, rounds, 0) == []
    ensures GoesOnFor(options, start, rounds, 0)
  {
  }

  /** One more round. */
  lemma NextRound(options: Options, start: real, rounds: seq<Round>, n: nat)
    requires n < |rounds|
    ensures var observed, before := ObservedBefore(options, start, rounds, n), Samples(options, start, rounds, n);
            && ObservedBefore(options, start, rounds, n + 1) == Seen(options, start, observed, rounds[n])
            && Samples(options, start, rounds, n + 1)
               == before + (if IsUsable(options, start, observed, rounds[n])
                            then [SampleOf(start, rounds[n], |before| + 1)] else [])
            && (GoesOnFor(options, start, rounds, n)
                && GoesOn(options, start, observed, rounds[n], Samples(options, start, rounds, n + 1)) ==>
                  GoesOnFor(options, start, rounds, n + 1))
  {
    hide GoesOn, Seen;
  }

  /** A run of equal samples at the end is a run. */
  lemma StableIsARun(options: Options, history: seq<Sample>, value: int)
    requires options.stableSamples >= 1 && EndsWith(history, options.stableSamples, value)
    ensures LongestStreak(history) >= options.stableSamples
  {
    hide Streak, LongestStreak;
    StreakMeaning(history, options.stableSamples);
    TotalIsBounded(history);
  }

  /** The last of the first n rounds read a usable value at the boundary, the last of enough equal ones. */
  predicate ConfirmedAtBoundary(options: Options, start: real, rounds: seq<Round>, n: nat, history: seq<Sample>)
    requires n <= |rounds|
  {
    && n > 0 && rounds[n - 1].startedAt >= start + options.timeoutMs as real
    && IsUsable(options, start, ObservedBefore(options, start, rounds, n - 1), rounds[n - 1])
    && options.stableSamples <= |history|
    && forall i :: |history| - options.stableSamples <= i < |history| ==> history[i].value == rounds[n - 1].read.value
  }

  /** What makes a round's value usable, in spans of time, on a clock that does not go back. */
  lemma UsableOnTime(options: Options, start: real, observed: real, round: Round)
    requires observed <= round.startedAt <= round.readCheckedAt <= round.completedAt
    ensures IsUsable(options, start, observed, round)
            <==> && round.read.Value? && -9007199254740991 <= round.read.value <= 9007199254740991
                 && round.readCheckedAt - round.startedAt < options.requestTimeoutMs as real
                 && if options.observeUntilDeadline
                    then round.startedAt - start >= options.timeoutMs as real
                         || round.readCheckedAt - start < options.timeoutMs as real
                    else round.completedAt - start < options.timeoutMs as real
  {
  }

  /** When a round goes on to the next, on such a clock: the window is still open, or a sleep ended as it should. */
  lemma GoesOnOnTime(options: Options, start: real, observed: real, round: Round, history: seq<Sample>)
    requires observed <= round.startedAt <= round.readCheckedAt <= round.completedAt <= round.sleepCheckedAt
    requires round.read.Value? && -9007199254740991 <= round.read.value <= 9007199254740991 && round.sleep.Slept?
    ensures var limit := options.timeoutMs as real;
            GoesOn(options, start, observed, round, history)
            <==> if options.observeUntilDeadline then round.startedAt - start < limit
                 else && round.readCheckedAt - round.startedAt < options.requestTimeoutMs as real
                      && round.sleepCheckedAt - start < limit
                      && LongestStreak(history) < options.stableSamples
  {
    hide LongestStreak;
  }

  /** The loop after `used` rounds that all went on. */
  ghost predicate LoopOk(options: Options, start: real, rounds: seq<Round>, used: nat, observed: real,
                         history: seq<Sample>, calls: seq<ReadCall>)
  {
    && used <= |rounds| && start <= observed == ObservedBefore(options, start, rounds, used)
    && history == Samples(options, start, rounds, used) && GoesOnFor(options, start, rounds, used)
    && RoundsBefore(options, start, rounds, used) && NotYetStable(options, history)
    && Recorded(options, history) && StartedBefore(options, history)
    && |history| <= |calls| <= used
    && CallsBefore(options, calls, |calls|) && CallsCapped(options, calls)
  }

  /** The loop when it is over: ended by its last round, or because the script ended. */
  ghost predicate OutcomeOk(options: Options, start: real, rounds: seq<Round>, outcome: Outcome,
                            history: seq<Sample>)
  {
    && outcome.rounds <= |rounds| && history == Samples(options, start, rounds, outcome.rounds)
    && VerdictOk(options, outcome.verdict, history) && Recorded(options, history)
    && (!outcome.verdict.Stable? ==> NotYetStable(options, history))
    && |history| <= |outcome.calls| <= outcome.rounds
    && CallsBefore(options, outcome.calls, |outcome.calls| - 1) && CallsCapped(options, outcome.calls)
    && if outcome.verdict.Unfinished? then
         && outcome.rounds == |rounds| && RoundsBefore(options, start, rounds, |rounds|)
         && GoesOnFor(options, start, rounds, |rounds|)
       else
         && outcome.rounds > 0 && RoundsBefore(options, start, rounds, outcome.rounds - 1)
         && GoesOnFor(options, start, rounds, outcome.rounds - 1)
         && LastEndsAs(options, start, rounds, outcome.rounds, outcome.verdict)
         && CausedBy(options, start, rounds[outcome.rounds - 1], outcome.verdict)
  }

  /** Under an idealised clock only so many reads are made, and the loop ends. */
  lemma IdealLoopEnds(options: Options, start: real, rounds: seq<Round>, outcome: Outcome, history: seq<Sample>)
    requires options.Valid() && OutcomeOk(options, start, rounds, outcome, history) && Ideal(options, start, rounds)
    ensures |outcome.calls| <= RoundsBeforeBoundary(options) + 1
    ensures |rounds| > RoundsBeforeBoundary(options) ==> !outcome.verdict.Unfinished?
  {
    hide VerdictOk, Recorded, CausedBy, CallsBefore, CallsCapped, Ideal, GoesOnFor, LastEndsAs, Samples, NotYetStable;
    RoundsAreBounded(options, start, rounds, if outcome.verdict.Unfinished? then |rounds| else outcome.rounds - 1);
  }

  /** What the way a loop ended says about stability. */
  lemma StableExactly(options: Options, start: real, rounds: seq<Round>, outcome: Outcome, history: seq<Sample>)
    requires options.Valid() && OutcomeOk(options, start, rounds, outcome, history)
    ensures outcome.rounds <= |rounds|
    ensures !options.observeUntilDeadline ==>
              (outcome.verdict.Stable? <==> LongestStreak(history) >= options.stableSamples)
    ensures options.observeUntilDeadline ==>
              (outcome.verdict.Stable? <==> ConfirmedAtBoundary(options, start, rounds, outcome.rounds, history))
  {
    hide Samples, ObservedBefore, LongestStreak, IsAborted, SeenGoingBack, Recorded, CausedBy, CallsBefore, CallsCapped,
      GoesOnFor, VerdictOk;
    if outcome.verdict.Stable? {
      StableIsARun(options, history, rounds[outcome.rounds - 1].read.value);
    }
  }

  /** Before the first round nothing is recorded and nothing read. */
  lemma NothingRecorded(options: Options)
    ensures VerdictOk(options, InvalidOptions, []) && VerdictOk(options, Aborted, []) && Recorded(options, [])
    ensures CallsBefore(options, [], -1) && CallsCapped(options, [])
  {
  }

  /** `history` is every sample the loop recorded, of which the evidence of a verdict is a summary. */
  method SettleProbe(options: Options, abortedAtEntry: bool, start: real, rounds: seq<Round>)
    returns (outcome: Outcome, ghost history: seq<Sample>)
    ensures outcome.rounds <= |rounds|
    ensures !options.Valid() ==> outcome == Outcome(InvalidOptions, [], 0) && history == []
    ensures options.Valid() <==>
              && 1 <= options.intervalMs <= 9007199254740991 && 1 <= options.requestTimeoutMs <= 9007199254740991
              && 1 <= options.stableSamples <= 9007199254740991 && 1 <= options.timeoutMs <= 9007199254740991
    ensures options.Valid() && abortedAtEntry ==> outcome == Outcome(Aborted, [], 0) && history == []
    ensures VerdictOk(options, outcome.verdict, history) && Recorded(options, history)
    // The history is exactly the usable samples of the rounds made; the loop goes on until a round ends it.
    ensures options.Valid() && !abortedAtEntry ==> history == Samples(options, start, rounds, outcome.rounds)
    ensures options.Valid() && !abortedAtEntry ==>
              if outcome.verdict.Unfinished? then GoesOnFor(options, start, rounds, |rounds|)
              else && outcome.rounds > 0 && GoesOnFor(options, start, rounds, outcome.rounds - 1)
                   && LastEndsAs(options, start, rounds, outcome.rounds, outcome.verdict)
    // Stable: without full-window mode as soon as there is a run of enough equal samples; in full-window mode exactly
    // if the read at the boundary gave a usable value and is the last of enough equal ones.
    ensures options.Valid() && !abortedAtEntry && !options.observeUntilDeadline ==>
              (outcome.verdict.Stable? <==> LongestStreak(history) >= options.stableSamples)
    ensures options.Valid() && !abortedAtEntry && options.observeUntilDeadline ==>
              (outcome.verdict.Stable? <==> ConfirmedAtBoundary(options, start, rounds, outcome.rounds, history))
    // A verdict has its cause in the last round; without full-window mode the first stable run ends the loop.
    ensures options.Valid() && !abortedAtEntry && !outcome.verdict.Unfinished? ==>
              outcome.rounds > 0 && CausedBy(options, start, rounds[outcome.rounds - 1], outcome.verdict)
    ensures options.Valid() && outcome.verdict.Unfinished? ==>
              && outcome.rounds == |rounds| && RoundsBefore(options, start, rounds, |rounds|)
              && NotYetStable(options, history)
    // Only the last round can be a confirmation at the boundary, and only in full-window mode.
    ensures outcome.rounds > 0 ==> RoundsBefore(options, start, rounds, outcome.rounds - 1)
    ensures |history| <= |outcome.calls| <= outcome.rounds
    ensures CallsBefore(options, outcome.calls, |outcome.calls| - 1) && CallsCapped(options, outcome.calls)
    // Under an idealised clock the loop ends, after a bounded number of reads.
    ensures options.Valid() && Ideal(options, start, rounds) ==>
              && |outcome.calls| <= RoundsBeforeBoundary(options) + 1
              && (|rounds| > RoundsBeforeBoundary(options) ==> !outcome.verdict.Unfinished?)
  {
    hide VerdictOk, Recorded, CausedBy, CallsBefore, CallsCapped, Ideal, GoesOnFor, LastEndsAs, Samples,
      ObservedBefore, LongestStreak, ConfirmedAtBoundary, NotYetStable, RoundsBeforeBoundary;
    NothingRecorded(options);
    if !options.Valid() {
      return Outcome(InvalidOptions, [], 0), [];
    }
    if abortedAtEntry {
      return Outcome(Aborted, [], 0), [];
    }
    outcome, history := RunRounds(options, start, rounds);
    StableExactly(options, start, rounds, outcome, history);
    if Ideal(options, start, rounds) {
      IdealLoopEnds(options, start, rounds, outcome, history);
    }
  }

  /** One more read call. */
  lemma CallsGrow(options: Options, start: real, observed: real, round: Round, calls: seq<ReadCall>,
                  more: seq<ReadCall>)
    requires options.Valid() && CallsCapped(options, calls) && CallsBefore(options, calls, |calls|)
    requires more == if ReadIsMade(options, start, observed, round) then [ReadCallOf(options, start, round)] else []
    ensures CallsCapped(options, calls + more) && CallsBefore(options, calls + more, |calls + more| - 1)
    ensures round.startedAt < Deadline(options, start) ==> CallsBefore(options, calls + more, |calls + more|)
  {
    hide CallsCapped, ReadCallOf;
    if more != [] {
      CappedOn(options, start, observed, round, calls);
    } else {
      assert calls + more == calls;
    }
  }

  lemma LoopBegins(options: Options, start: real, rounds: seq<Round>)
    requires options.Valid()
    ensures LoopOk(options, start, rounds, 0, start, [], [])
  {
  }

  lemma LoopRunsOut(options: Options, start: real, rounds: seq<Round>, observed: real, history: seq<Sample>,
                    calls: seq<ReadCall>)
    requires LoopOk(options, start, rounds, |rounds|, observed, history, calls)
    ensures OutcomeOk(options, start, rounds, Outcome(Unfinished, calls, |rounds|), history)
  {
    hide NotYetStable, Samples, ObservedBefore, GoesOnFor, Recorded, CallsCapped;
  }

  lemma LoopContinues(options: Options, start: real, rounds: seq<Round>, used: nat, observed: real,
                      before: seq<Sample>, calls: seq<ReadCall>, after: seq<Sample>, more: seq<ReadCall>, last: real)
    requires options.Valid() && LoopOk(options, start, rounds, used, observed, before, calls) && used < |rounds|
    requires RoundDoes(options, start, observed, rounds[used], before, after, more, Continue(last))
    ensures LoopOk(options, start, rounds, used + 1, last, after, calls + more)
  {
    hide Extends, NotYetStable, Recorded, StartedBefore, CallsBefore, CallsCapped, ReadCallOf, GoesOn, GoesOnFor,
      Samples, ObservedBefore, Seen;
    NextRound(options, start, rounds, used);
    RecordedOn(options, start, rounds[used], before, after);
    CallsGrow(options, start, observed, rounds[used], calls, more);
  }

  lemma LoopEnds(options: Options, start: real, rounds: seq<Round>, used: nat, observed: real,
                 before: seq<Sample>, calls: seq<ReadCall>, after: seq<Sample>, more: seq<ReadCall>, verdict: Verdict)
    requires options.Valid() && LoopOk(options, start, rounds, used, observed, before, calls) && used < |rounds|
    requires RoundDoes(options, start, observed, rounds[used], before, after, more, Done(verdict))
    ensures OutcomeOk(options, start, rounds, Outcome(verdict, calls + more, used + 1), after)
  {
    hide Extends, NotYetStable, Recorded, StartedBefore, CallsBefore, CallsCapped, ReadCallOf, GoesOnFor,
      Samples, ObservedBefore, VerdictOk, CausedBy, Settles, IsAborted, SeenGoingBack;
    NextRound(options, start, rounds, used);
    RecordedOn(options, start, rounds[used], before, after);
    CallsGrow(options, start, observed, rounds[used], calls, more);
  }

  /** The loop. */
  method RunRounds(options: Options, start: real, rounds: seq<Round>)
    returns (outcome: Outcome, ghost history: seq<Sample>)
    requires options.Valid()
    ensures OutcomeOk(options, start, rounds, outcome, history)
  {
    var evidence := new MutableEvidence();
    var calls: seq<ReadCall>, observed, used := [], start, 0;
    hide VerdictOk, Describes, NotYetStable, RoundDoes, Samples, ObservedBefore, GoesOnFor, RoundsBefore, Recorded,
      StartedBefore, CallsBefore, CallsCapped, GoesBack, SleepIsDue, SleepIsMade, SleepMs, GoesOn;
    LoopBegins(options, start, rounds);
    while used < |rounds|
      invariant evidence.Valid() && fresh(evidence)
      invariant LoopOk(options, start, rounds, used, observed, evidence.history, calls)
    {
      ghost var before := evidence.history;
      var progress, more, _ := RunRound(options, start, observed, evidence, rounds[used]);
      match progress
      case Done(verdict) =>
        LoopEnds(options, start, rounds, used, observed, before, calls, evidence.history, more, verdict);
        return Outcome(verdict, calls + more, used + 1), evidence.history;
      case Continue(last) =>
        LoopContinues(options, start, rounds, used, observed, before, calls, evidence.history, more, last);
        observed, calls, used := last, calls + more, used + 1;
    }
    LoopRunsOut(options, start, rounds, observed, evidence.history, calls);
    outcome, history := Outcome(Unfinished, calls, used), evidence.history;
  }
}
