/**
 What a supervised run must report, stated on the answers that the kernel and the clock
 give to it and without reference to how the supervisor computes it: one ordered log of
 verdicts, of which the first that is not OK is the exit status.
 */
module Verdicts {
  import opened Measures
  import opened ExecutionResults

  datatype Settings = Settings(
    realTimeLimit: Option<nat>,
    userTimeLimit: Option<nat>,
    systemTimeLimit: Option<nat>,
    userSystemTimeLimit: Option<nat>,
    instructionCountLimit: Option<I64>,
    memoryLimitKibibytes: Option<nat>)

  datatype Feature = PERF | TIME_MEASUREMENT | MEMORY_MEASUREMENT

  datatype Kind = Perf | Time | Memory | Ptrace

  /** The listeners that `spawn` creates, in its order. */
  function ListenersFor(features: set<Feature>): (kinds: seq<Kind>)
    ensures Distinct(kinds)
    ensures Perf in kinds <==> PERF in features
    ensures Time in kinds <==> TIME_MEASUREMENT in features
    ensures Memory in kinds <==> MEMORY_MEASUREMENT in features
    ensures Ptrace in kinds <==> MEMORY_MEASUREMENT in features
  {
    (if PERF in features then [Perf] else []) +
    (if TIME_MEASUREMENT in features then [Time] else []) +
    (if MEMORY_MEASUREMENT in features then [Memory, Ptrace] else [])
  }

  predicate Distinct(kinds: seq<Kind>) {
    forall i, j :: 0 <= i < j < |kinds| ==> kinds[i] != kinds[j]
  }

  type IoError = int

  datatype Answer<+T> = Ok(value: T) | Err(error: IoError)

  type Count = x: int | 0 <= x < 0x8000_0000_0000_0000

  /** Clock ticks that a process has spent in user mode and in the kernel. */
  datatype Ticks = Ticks(user: U64, system: U64)

  /** Everything a listener may read in one call: the instruction counter, the tick counts of
      the process, the clock, whether the pipe has reached end of file, and VmPeak. */
  datatype Sample = Sample(
    counter: Answer<Count>,
    ticks: Answer<Ticks>,
    now: nat,
    pipeClosed: bool,
    vmPeak: Option<nat>)

  datatype WaitAnswer =
    | ChildExited(status: int)
    | ChildSignaled(signal: int)
    | ChildStopped // a stop, a ptrace event or a continue
    | Interrupted
    | WaitFailed(error: IoError)

  /** The answers one round of the supervision loop gets. `events[l]` is the outcome of the
      listener's `on_execute_event`, `childError` the error the child has left behind. */
  datatype Round = Round(
    samples: seq<Sample>,
    killError: Option<IoError>,
    wait: WaitAnswer,
    childError: Option<IoError>,
    events: seq<Option<IoError>>)

  /** The answers a whole run gets. */
  datatype Script = Script(
    ticksPerSecond: U64,
    errorBefore: Option<IoError>,
    starts: seq<Answer<nat>>, // the parent hooks, each with the clock it may read
    rounds: seq<Round>,
    finals: seq<Sample>,
    errorAfter: Option<IoError>)

  predicate Ends(wait: WaitAnswer) {
    !wait.ChildStopped? && !wait.Interrupted?
  }

  /** The script answers every call of a run of these listeners that reaches its end. */
  predicate Answers(script: Script, kinds: seq<Kind>) {
    && script.ticksPerSecond > 0
    && |script.starts| == |script.finals| == |kinds|
    && (forall l :: 0 <= l < |kinds| && kinds[l] == Time ==> script.starts[l].Ok?) // reading the clock cannot fail
    && script.rounds != []
    && (forall r :: 0 <= r < |script.rounds| ==>
          |script.rounds[r].samples| == |kinds| && |script.rounds[r].events| == |kinds|)
    && (forall r :: 0 <= r < |script.rounds| ==> Ends(script.rounds[r].wait) == (r == |script.rounds| - 1))
  }

  // ----- What each listener finds in its samples -----

  function Over(value: int, limit: Option<int>): bool {
    limit.Some? && value > limit.value
  }

  function Elapsed(start: nat, now: nat): nat {
    if now >= start then now - start else 0
  }

  function TickNanos(ticks: U64, ticksPerSecond: U64): nat
    requires ticksPerSecond > 0
  {
    TickMicros(ticks, ticksPerSecond) * 1_000
  }

  datatype TimeUsage = TimeUsage(wall: nat, user: nat, system: nat)

  function Usage(sample: Sample, start: nat, ticksPerSecond: U64): TimeUsage
    requires ticksPerSecond > 0 && sample.ticks.Ok?
  {
    TimeUsage(
      Elapsed(start, sample.now),
      TickNanos(sample.ticks.value.user, ticksPerSecond),
      TickNanos(sample.ticks.value.system, ticksPerSecond))
  }

  function TimeViolation(settings: Settings, usage: TimeUsage): ExitStatus {
    if Over(usage.wall, settings.realTimeLimit) then TLE("real time limit exceeded")
    else if Over(usage.user, settings.userTimeLimit) then TLE("user time limit exceeded")
    else if Over(usage.system, settings.systemTimeLimit) then TLE("system time limit exceeded")
    else if Over(usage.user + usage.system, settings.userSystemTimeLimit) then TLE("user+system time limit exceeded")
    else OK
  }

  predicate TimeLimitSet(settings: Settings) {
    || settings.realTimeLimit.Some?
    || settings.userTimeLimit.Some?
    || settings.systemTimeLimit.Some?
    || settings.userSystemTimeLimit.Some?
  }

  function PerfViolation(settings: Settings, instructions: int): ExitStatus {
    if Over(instructions, settings.instructionCountLimit) then TLE("time limit exceeded") else OK
  }

  function MemoryViolation(settings: Settings, peak: int): ExitStatus {
    if Over(peak, settings.memoryLimitKibibytes) then MLE("memory limit exceeded") else OK
  }

  /** The greatest VmPeak among the samples taken once the pipe has closed; 0 if none. */
  function PeakOf(samples: seq<Sample>): (peak: nat) {
    if samples == [] then 0
    else
      var before, last := PeakOf(samples[..|samples| - 1]), samples[|samples| - 1];
      var value := if last.pipeClosed then last.vmPeak.GetOr(0) else 0;
      if value > before then value else before
  }

  lemma {:induction false} PeakIsMaximum(samples: seq<Sample>)
    ensures forall i :: 0 <= i < |samples| && samples[i].pipeClosed && samples[i].vmPeak.Some? ==>
              samples[i].vmPeak.value <= PeakOf(samples)
    ensures PeakOf(samples) == 0 ||
            exists i :: 0 <= i < |samples| && samples[i].pipeClosed && samples[i].vmPeak == Some(PeakOf(samples))
  {
    if samples != [] {
      var init := samples[..|samples| - 1];
      PeakIsMaximum(init);
      assert forall i :: 0 <= i < |init| ==> init[i] == samples[i];
      if PeakOf(samples) > 0 && PeakOf(init) != PeakOf(samples) {
        assert samples[|samples| - 1].vmPeak == Some(PeakOf(samples));
      }
    }
  }

  lemma {:induction false} PeakNeverDecreases(samples: seq<Sample>, m: nat, n: nat)
    requires m <= n <= |samples|
    ensures PeakOf(samples[..m]) <= PeakOf(samples[..n])
    decreases n
  {
    if m < n {
      PeakNeverDecreases(samples, m, n - 1);
      assert samples[..n][..n - 1] == samples[..n - 1];
    }
  }

  /** The samples of listener l in the first r rounds. */
  function History(script: Script, kinds: seq<Kind>, l: nat, r: nat): (h: seq<Sample>)
    requires Answers(script, kinds) && l < |kinds| && r <= |script.rounds|
  {
    seq(r, q requires 0 <= q < r => script.rounds[q].samples[l])
  }

  /** What listener l finds when it is woken in round r, if its reading succeeds. */
  function WakeupEntry(settings: Settings, kinds: seq<Kind>, script: Script, l: nat, r: nat): ExitStatus
    requires Answers(script, kinds) && l < |kinds| && r < |script.rounds|
  {
    var sample := script.rounds[r].samples[l];
    match kinds[l]
    case Perf => if sample.counter.Ok? then PerfViolation(settings, sample.counter.value) else OK
    case Time =>
      if sample.ticks.Ok?
      then TimeViolation(settings, Usage(sample, script.starts[l].value, script.ticksPerSecond))
      else OK
    case Memory =>
      if sample.pipeClosed then MemoryViolation(settings, PeakOf(History(script, kinds, l, r + 1))) else OK
    case Ptrace => OK
  }

  /** What listener l finds after the child has ended. */
  function FinalEntry(settings: Settings, kinds: seq<Kind>, script: Script, l: nat): ExitStatus
    requires Answers(script, kinds) && l < |kinds|
  {
    var sample := script.finals[l];
    match kinds[l]
    case Perf => if sample.counter.Ok? then PerfViolation(settings, sample.counter.value) else OK
    case Time =>
      if sample.ticks.Ok?
      then TimeViolation(settings, Usage(sample, script.starts[l].value, script.ticksPerSecond))
      else OK
    case Memory => MemoryViolation(settings, PeakOf(History(script, kinds, l, |script.rounds|)))
    case Ptrace => OK
  }

  /** The listener wants to be woken periodically. */
  predicate RequiresTimeout(settings: Settings, kind: Kind) {
    match kind
    case Perf => settings.instructionCountLimit.Some?
    case Time => TimeLimitSet(settings)
    case Memory => settings.memoryLimitKibibytes.Some?
    case Ptrace => false
  }

  /** The run asks for periodic wakeups. */
  predicate Periodic(settings: Settings, kinds: seq<Kind>) {
    exists l :: 0 <= l < |kinds| && RequiresTimeout(settings, kinds[l])
  }

  // ----- The errors that end a run early -----

  function WakeupError(settings: Settings, kind: Kind, sample: Sample): Option<IoError> {
    match kind
    case Perf =>
      if settings.instructionCountLimit.Some? && sample.counter.Err? then Some(sample.counter.error) else None
    case Time => if TimeLimitSet(settings) && sample.ticks.Err? then Some(sample.ticks.error) else None
    case Memory => None
    case Ptrace => None
  }

  function FinalError(kind: Kind, sample: Sample): Option<IoError> {
    match kind
    case Perf => if sample.counter.Err? then Some(sample.counter.error) else None
    case Time => if sample.ticks.Err? then Some(sample.ticks.error) else None
    case Memory => None
    case Ptrace => None
  }

  /** Some listener votes Kill in round r. */
  predicate SomeKill(settings: Settings, kinds: seq<Kind>, script: Script, r: nat)
    requires Answers(script, kinds) && r < |script.rounds|
  {
    exists l :: 0 <= l < |kinds| && WakeupEntry(settings, kinds, script, l, r) != OK
  }

  predicate RoundErrorFree(settings: Settings, kinds: seq<Kind>, script: Script, r: nat)
    requires Answers(script, kinds) && r < |script.rounds|
  {
    var round := script.rounds[r];
    && (forall l :: 0 <= l < |kinds| ==> WakeupError(settings, kinds[l], round.samples[l]).None?)
    && (SomeKill(settings, kinds, script, r) ==> round.killError.None?)
    && !round.wait.WaitFailed?
    && (!round.wait.Interrupted? ==>
          round.childError.None? && forall l :: 0 <= l < |kinds| ==> round.events[l].None?)
  }

  /** No call of the run fails. */
  predicate ErrorFree(settings: Settings, kinds: seq<Kind>, script: Script)
    requires Answers(script, kinds)
  {
    && script.errorBefore.None?
    && (forall l :: 0 <= l < |kinds| ==> script.starts[l].Ok?)
    && (forall r :: 0 <= r < |script.rounds| ==> RoundErrorFree(settings, kinds, script, r))
    && (forall l :: 0 <= l < |kinds| ==> FinalError(kinds[l], script.finals[l]).None?)
    && script.errorAfter.None?
  }

  /** The first error among the outcomes of a row of calls, of which the caller makes no more
      after one has failed. */
  function FirstError(outcomes: seq<Option<IoError>>): Option<IoError> {
    if outcomes == [] then None
    else if outcomes[0].Some? then outcomes[0]
    else FirstError(outcomes[1..])
  }

  /** How many of the calls succeed before one fails. */
  function SucceedFirst(outcomes: seq<Option<IoError>>): (n: nat)
    ensures n <= |outcomes| && (n < |outcomes| ==> outcomes[n].Some?)
  {
    if outcomes == [] || outcomes[0].Some? then 0 else 1 + SucceedFirst(outcomes[1..])
  }

  function OrElse(first: Option<IoError>, second: Option<IoError>): Option<IoError> {
    if first.Some? then first else second
  }

  function StartErrors(script: Script): seq<Option<IoError>> {
    seq(|script.starts|, l requires 0 <= l < |script.starts| =>
      if script.starts[l].Ok? then None else Some(script.starts[l].error))
  }

  function WakeupErrors(settings: Settings, kinds: seq<Kind>, script: Script, r: nat): seq<Option<IoError>>
    requires Answers(script, kinds) && r < |script.rounds|
  {
    seq(|kinds|, l requires 0 <= l < |kinds| => WakeupError(settings, kinds[l], script.rounds[r].samples[l]))
  }

  function FinalErrors(kinds: seq<Kind>, script: Script): seq<Option<IoError>>
    requires Answers(script, kinds)
  {
    seq(|kinds|, l requires 0 <= l < |kinds| => FinalError(kinds[l], script.finals[l]))
  }

  function WaitError(round: Round): Option<IoError> {
    if round.wait.WaitFailed? then Some(round.wait.error)
    else if round.wait.Interrupted? then None
    else OrElse(round.childError, FirstError(round.events))
  }

  function RoundError(settings: Settings, kinds: seq<Kind>, script: Script, r: nat): Option<IoError>
    requires Answers(script, kinds) && r < |script.rounds|
  {
    OrElse(FirstError(WakeupErrors(settings, kinds, script, r)),
           OrElse(if SomeKill(settings, kinds, script, r) then script.rounds[r].killError else None,
                  WaitError(script.rounds[r])))
  }

  /** The error with which the loop ends, from round r on. */
  function LoopError(settings: Settings, kinds: seq<Kind>, script: Script, r: nat): Option<IoError>
    requires Answers(script, kinds) && r <= |script.rounds|
    decreases |script.rounds| - r
  {
    if r == |script.rounds| then None
    else OrElse(RoundError(settings, kinds, script, r), LoopError(settings, kinds, script, r + 1))
  }

  /** The error that a run returns: that of the first call that fails. */
  function RunError(settings: Settings, kinds: seq<Kind>, script: Script): Option<IoError>
    requires Answers(script, kinds)
  {
    OrElse(script.errorBefore,
           OrElse(FirstError(StartErrors(script)),
                  OrElse(LoopError(settings, kinds, script, 0),
                         OrElse(FirstError(FinalErrors(kinds, script)), script.errorAfter))))
  }

  lemma {:induction false} FirstErrorMeaning(outcomes: seq<Option<IoError>>)
    ensures FirstError(outcomes).None? <==> forall i :: 0 <= i < |outcomes| ==> outcomes[i].None?
    ensures var n := SucceedFirst(outcomes);
            FirstError(outcomes) == if n < |outcomes| then outcomes[n] else None
  {
    if outcomes != [] {
      FirstErrorMeaning(outcomes[1..]);
      assert forall i :: 1 <= i < |outcomes| ==> outcomes[i] == outcomes[1..][i - 1];
    }
  }

  lemma {:induction false} FailsAt(outcomes: seq<Option<IoError>>, i: nat)
    requires i < |outcomes| && outcomes[i].Some? && forall m :: 0 <= m < i ==> outcomes[m].None?
    ensures FirstError(outcomes) == outcomes[i] && SucceedFirst(outcomes) == i
  {
    if i > 0 {
      FailsAt(outcomes[1..], i - 1);
    }
  }

  lemma AllSucceed(outcomes: seq<Option<IoError>>)
    requires forall m :: 0 <= m < |outcomes| ==> outcomes[m].None?
    ensures FirstError(outcomes).None? && SucceedFirst(outcomes) == |outcomes|
  {
    FirstErrorMeaning(outcomes);
  }

  lemma RoundErrorMeaning(settings: Settings, kinds: seq<Kind>, script: Script, r: nat)
    requires Answers(script, kinds) && r < |script.rounds|
    ensures RoundError(settings, kinds, script, r).None? <==> RoundErrorFree(settings, kinds, script, r)
  {
    FirstErrorMeaning(WakeupErrors(settings, kinds, script, r));
    FirstErrorMeaning(script.rounds[r].events);
    assert forall l :: 0 <= l < |kinds| ==>
      WakeupErrors(settings, kinds, script, r)[l] == WakeupError(settings, kinds[l], script.rounds[r].samples[l]);
  }

  lemma {:induction false} LoopErrorMeaning(settings: Settings, kinds: seq<Kind>, script: Script, r: nat)
    requires Answers(script, kinds) && r <= |script.rounds|
    ensures LoopError(settings, kinds, script, r).None? <==>
            forall q :: r <= q < |script.rounds| ==> RoundErrorFree(settings, kinds, script, q)
    decreases |script.rounds| - r
  {
    if r < |script.rounds| {
      LoopErrorMeaning(settings, kinds, script, r + 1);
      RoundErrorMeaning(settings, kinds, script, r);
    }
  }

  /** A run returns no error exactly when none of its calls fails. */
  lemma RunErrorMeaning(settings: Settings, kinds: seq<Kind>, script: Script)
    requires Answers(script, kinds)
    ensures RunError(settings, kinds, script).None? <==> ErrorFree(settings, kinds, script)
  {
    FirstErrorMeaning(StartErrors(script));
    LoopErrorMeaning(settings, kinds, script, 0);
    FirstErrorMeaning(FinalErrors(kinds, script));
    assert forall l :: 0 <= l < |kinds| ==> StartErrors(script)[l].None? == script.starts[l].Ok?;
    assert forall l :: 0 <= l < |kinds| ==> FinalErrors(kinds, script)[l] == FinalError(kinds[l], script.finals[l]);
  }

  // ----- The log and the report -----

  function RoundLog(settings: Settings, kinds: seq<Kind>, script: Script, r: nat, upto: nat): seq<ExitStatus>
    requires Answers(script, kinds) && r < |script.rounds| && upto <= |kinds|
  {
    seq(upto, l requires 0 <= l < upto => WakeupEntry(settings, kinds, script, l, r))
  }

  function WakeupLog(settings: Settings, kinds: seq<Kind>, script: Script, r: nat): seq<ExitStatus>
    requires Answers(script, kinds) && r <= |script.rounds|
  {
    if r == 0 then []
    else WakeupLog(settings, kinds, script, r - 1) + RoundLog(settings, kinds, script, r - 1, |kinds|)
  }

  /** The log when listener `upto` of round r is about to be woken. */
  function LogAt(settings: Settings, kinds: seq<Kind>, script: Script, r: nat, upto: nat): seq<ExitStatus>
    requires Answers(script, kinds) && r < |script.rounds| && upto <= |kinds|
  {
    WakeupLog(settings, kinds, script, r) + RoundLog(settings, kinds, script, r, upto)
  }

  lemma LogNext(settings: Settings, kinds: seq<Kind>, script: Script, r: nat, i: nat)
    requires Answers(script, kinds) && r < |script.rounds| && i < |kinds|
    ensures FirstNonOk(LogAt(settings, kinds, script, r, i + 1)) ==
            Sticky(FirstNonOk(LogAt(settings, kinds, script, r, i)), WakeupEntry(settings, kinds, script, i, r))
  {
    var entry := WakeupEntry(settings, kinds, script, i, r);
    assert LogAt(settings, kinds, script, r, i + 1) == LogAt(settings, kinds, script, r, i) + [entry];
    FirstNonOkNext(LogAt(settings, kinds, script, r, i), entry);
  }

  lemma LogNextRound(settings: Settings, kinds: seq<Kind>, script: Script, r: nat)
    requires Answers(script, kinds) && r < |script.rounds|
    ensures LogAt(settings, kinds, script, r, 0) == WakeupLog(settings, kinds, script, r)
    ensures LogAt(settings, kinds, script, r, |kinds|) == WakeupLog(settings, kinds, script, r + 1)
  {}

  lemma HistoryNext(script: Script, kinds: seq<Kind>, l: nat, r: nat)
    requires Answers(script, kinds) && l < |kinds| && r < |script.rounds|
    ensures History(script, kinds, l, r + 1) == History(script, kinds, l, r) + [script.rounds[r].samples[l]]
  {}

  function FinalLog(settings: Settings, kinds: seq<Kind>, script: Script, upto: nat): seq<ExitStatus>
    requires Answers(script, kinds) && upto <= |kinds|
  {
    seq(upto, l requires 0 <= l < upto => FinalEntry(settings, kinds, script, l))
  }

  function Reason(wait: WaitAnswer): ExitReason {
    match wait
    case ChildExited(status) => Exited(status)
    case ChildSignaled(signal) => Killed(signal)
    case _ => Exited(0)
  }

  function LastWait(script: Script): WaitAnswer
    requires script.rounds != []
  {
    script.rounds[|script.rounds| - 1].wait
  }

  /** The place of a listener of the given kind, if there is one. */
  function Find(kinds: seq<Kind>, kind: Kind): (l: Option<nat>)
    ensures l.Some? ==> l.value < |kinds| && kinds[l.value] == kind
    ensures l.None? ==> kind !in kinds
  {
    if kinds == [] then None
    else if kinds[|kinds| - 1] == kind then Some(|kinds| - 1)
    else Find(kinds[..|kinds| - 1], kind)
  }

  lemma {:induction false} FindAt(kinds: seq<Kind>, l: nat)
    requires l < |kinds| && Distinct(kinds)
    ensures Find(kinds, kinds[l]) == Some(l)
  {
    if l < |kinds| - 1 {
      FindAt(kinds[..|kinds| - 1], l);
    }
  }

  /** The ordered log of a run, as far as the first `upto` checks after its end: the wakeups
      round by round and listener by listener, then how the child ended, then those checks. */
  function RunLogAt(settings: Settings, kinds: seq<Kind>, script: Script, upto: nat): seq<ExitStatus>
    requires Answers(script, kinds) && upto <= |kinds|
  {
    WakeupLog(settings, kinds, script, |script.rounds|) +
    [ReasonStatus(Reason(LastWait(script)))] +
    FinalLog(settings, kinds, script, upto)
  }

  lemma RunLogNext(settings: Settings, kinds: seq<Kind>, script: Script, i: nat)
    requires Answers(script, kinds) && i < |kinds|
    ensures FirstNonOk(RunLogAt(settings, kinds, script, i + 1)) ==
            Sticky(FirstNonOk(RunLogAt(settings, kinds, script, i)), FinalEntry(settings, kinds, script, i))
  {
    var entry := FinalEntry(settings, kinds, script, i);
    assert RunLogAt(settings, kinds, script, i + 1) == RunLogAt(settings, kinds, script, i) + [entry];
    FirstNonOkNext(RunLogAt(settings, kinds, script, i), entry);
  }

  lemma RunLogStart(settings: Settings, kinds: seq<Kind>, script: Script)
    requires Answers(script, kinds)
    ensures FirstNonOk(RunLogAt(settings, kinds, script, 0)) ==
            Sticky(FirstNonOk(WakeupLog(settings, kinds, script, |script.rounds|)),
                   ReasonStatus(Reason(LastWait(script))))
  {
    var log, entry := WakeupLog(settings, kinds, script, |script.rounds|), ReasonStatus(Reason(LastWait(script)));
    assert RunLogAt(settings, kinds, script, 0) == log + [entry];
    FirstNonOkNext(log, entry);
  }

  /** The reading of listener l after the end, if it is of the given kind and succeeded. */
  function FinalUsage(kinds: seq<Kind>, script: Script, l: Option<nat>): Option<TimeUsage>
    requires Answers(script, kinds) && (l.Some? ==> l.value < |kinds|)
  {
    if l.Some? && script.finals[l.value].ticks.Ok? && script.starts[l.value].Ok?
    then Some(Usage(script.finals[l.value], script.starts[l.value].value, script.ticksPerSecond))
    else None
  }

  function FinalCount(kinds: seq<Kind>, script: Script, l: Option<nat>): Option<Count>
    requires Answers(script, kinds) && (l.Some? ==> l.value < |kinds|)
  {
    if l.Some? && script.finals[l.value].counter.Ok? then Some(script.finals[l.value].counter.value) else None
  }

  function FinalPeak(kinds: seq<Kind>, script: Script, l: Option<nat>): Option<nat>
    requires Answers(script, kinds) && (l.Some? ==> l.value < |kinds|)
  {
    if l.Some? then Some(PeakOf(History(script, kinds, l.value, |script.rounds|))) else None
  }

  /** The report of a run whose first `upto` listeners have been read after its end. */
  function ReportAt(settings: Settings, kinds: seq<Kind>, script: Script, upto: nat): Report
    requires Answers(script, kinds) && upto <= |kinds|
  {
    var usage := FinalUsage(kinds, script, Find(kinds[..upto], Time));
    var count := FinalCount(kinds, script, Find(kinds[..upto], Perf));
    Report(
      FirstNonOk(RunLogAt(settings, kinds, script, upto)),
      Reason(LastWait(script)),
      if usage.Some? then Some(usage.value.wall) else None,
      if usage.Some? then Some(usage.value.user) else None,
      if usage.Some? then Some(usage.value.system) else None,
      count,
      if count.Some? then Some(MeasuredMillis(count.value) * 1_000_000) else None,
      FinalPeak(kinds, script, Find(kinds[..upto], Memory)))
  }

  lemma ReportStart(settings: Settings, kinds: seq<Kind>, script: Script)
    requires Answers(script, kinds)
    ensures ReportAt(settings, kinds, script, 0) ==
            Report(Sticky(FirstNonOk(WakeupLog(settings, kinds, script, |script.rounds|)),
                          ReasonStatus(Reason(LastWait(script)))),
                   Reason(LastWait(script)), None, None, None, None, None, None)
  {
    RunLogStart(settings, kinds, script);
  }

  /** What a run without errors must report. */
  function ReportOf(settings: Settings, kinds: seq<Kind>, script: Script): Report
    requires Answers(script, kinds)
  {
    ReportAt(settings, kinds, script, |kinds|)
  }

  // ----- The rounds of a run -----

  /** In round r the supervisor sends the kill signal: a listener has voted for it, nothing has
      failed before, and the call of kill does not fail either. */
  predicate SendsKill(settings: Settings, kinds: seq<Kind>, script: Script, r: nat)
    requires Answers(script, kinds) && r < |script.rounds|
  {
    && FirstError(WakeupErrors(settings, kinds, script, r)).None?
    && SomeKill(settings, kinds, script, r)
    && script.rounds[r].killError.None?
  }

  /** How many rounds a run that has come to round r begins in all. */
  function RoundsFrom(settings: Settings, kinds: seq<Kind>, script: Script, r: nat): (n: nat)
    requires Answers(script, kinds) && r <= |script.rounds|
    ensures r <= n <= |script.rounds|
    decreases |script.rounds| - r
  {
    if r == |script.rounds| then r
    else if RoundError(settings, kinds, script, r).Some? then r + 1
    else RoundsFrom(settings, kinds, script, r + 1)
  }

  predicate StartFails(script: Script) {
    script.errorBefore.Some? || FirstError(StartErrors(script)).Some?
  }

  function RoundsBegun(settings: Settings, kinds: seq<Kind>, script: Script): (n: nat)
    requires Answers(script, kinds)
    ensures n <= |script.rounds|
  {
    if StartFails(script) then 0 else RoundsFrom(settings, kinds, script, 0)
  }

  /** One entry for each round that is begun: whether the kill signal is sent in it. */
  predicate KillsOf(settings: Settings, kinds: seq<Kind>, script: Script, kills: seq<bool>)
    requires Answers(script, kinds)
  {
    && |kills| == RoundsBegun(settings, kinds, script)
    && forall r :: 0 <= r < |kills| ==> kills[r] == SendsKill(settings, kinds, script, r)
  }

  /** In a run without errors every round is begun, and the kill signal is sent wherever a
      listener votes for it. */
  lemma KillsWithoutErrors(settings: Settings, kinds: seq<Kind>, script: Script)
    requires Answers(script, kinds) && ErrorFree(settings, kinds, script)
    ensures RoundsBegun(settings, kinds, script) == |script.rounds|
    ensures forall r :: 0 <= r < |script.rounds| ==>
              SendsKill(settings, kinds, script, r) == SomeKill(settings, kinds, script, r)
  {
    forall r | 0 <= r < |script.rounds|
      ensures RoundError(settings, kinds, script, r).None?
      ensures SendsKill(settings, kinds, script, r) == SomeKill(settings, kinds, script, r)
    {
      RoundErrorMeaning(settings, kinds, script, r);
    }
    NoErrorBefore(settings, kinds, script, |script.rounds|);
    RunErrorMeaning(settings, kinds, script);
  }

  /** How the run will end is decided in round r or later, if the rounds before have no error. */
  lemma {:induction false} NoErrorBefore(settings: Settings, kinds: seq<Kind>, script: Script, r: nat)
    requires Answers(script, kinds) && r <= |script.rounds|
    requires forall q :: 0 <= q < r ==> RoundError(settings, kinds, script, q).None?
    ensures LoopError(settings, kinds, script, 0) == LoopError(settings, kinds, script, r)
    ensures LogReached(settings, kinds, script, 0) == LogReached(settings, kinds, script, r)
    ensures RoundsFrom(settings, kinds, script, 0) == RoundsFrom(settings, kinds, script, r)
  {
    if r > 0 {
      NoErrorBefore(settings, kinds, script, r - 1);
    }
  }

  /** Which threads are registered after thread t has run: an error in the supervision loop
      leaves t behind, in every other case it is gone again or was never added. */
  function RegisteredAfter(settings: Settings, kinds: seq<Kind>, script: Script, t: nat, before: set<nat>): set<nat>
    requires Answers(script, kinds)
  {
    if !Periodic(settings, kinds) || StartFails(script) then before
    else if LoopError(settings, kinds, script, 0).Some? then before + {t}
    else before - {t}
  }

  // ----- What is left of a run that fails -----

  /** The log of the wakeups, as far as the loop comes from round r on. */
  function LogReached(settings: Settings, kinds: seq<Kind>, script: Script, r: nat): seq<ExitStatus>
    requires Answers(script, kinds) && r <= |script.rounds|
    decreases |script.rounds| - r
  {
    if r == |script.rounds| then WakeupLog(settings, kinds, script, r)
    else if RoundError(settings, kinds, script, r).Some? then
      LogAt(settings, kinds, script, r, SucceedFirst(WakeupErrors(settings, kinds, script, r)))
    else LogReached(settings, kinds, script, r + 1)
  }

  /** What the execution result holds after a run, whether or not the run returns an error. */
  function ReportReached(settings: Settings, kinds: seq<Kind>, script: Script): Report
    requires Answers(script, kinds)
  {
    if StartFails(script) then EMPTY_REPORT
    else if LoopError(settings, kinds, script, 0).Some? then
      EMPTY_REPORT.(exitStatus := FirstNonOk(LogReached(settings, kinds, script, 0)))
    else ReportAt(settings, kinds, script, SucceedFirst(FinalErrors(kinds, script)))
  }

  /** After a run without errors that is the report of the whole log. */
  lemma ReportReachedAtEnd(settings: Settings, kinds: seq<Kind>, script: Script)
    requires Answers(script, kinds) && ErrorFree(settings, kinds, script)
    ensures ReportReached(settings, kinds, script) == ReportOf(settings, kinds, script)
  {
    RunErrorMeaning(settings, kinds, script);
    FirstErrorMeaning(FinalErrors(kinds, script));
  }
}
