/**
 What the specification of a run means in terms of the bare answers: counts, ticks, limits and
 errors, without the functions that Verdicts and the listeners share.
 */
module VerdictMeaning {
  import opened Measures
  import opened ExecutionResults
  import opened Verdicts
  import opened VerdictTheorems

  // ----- What the listeners object to -----

  predicate CountOver(settings: Settings, sample: Sample) {
    sample.counter.Ok? && settings.instructionCountLimit.Some? &&
    sample.counter.value > settings.instructionCountLimit.value
  }

  /** The nanoseconds that a tick count stands for: whole microseconds, of a product of 64 bits. */
  function Nanos(ticks: nat, ticksPerSecond: nat): nat
    requires ticksPerSecond > 0
  {
    ticks * 1_000_000 % 18_446_744_073_709_551_616 / ticksPerSecond * 1_000
  }

  /** While that product fits, they are the true time, less than a microsecond rounded down. */
  lemma NanosAreTime(ticks: nat, ticksPerSecond: nat)
    requires ticksPerSecond > 0 && ticks * 1_000_000 < 18_446_744_073_709_551_616
    ensures Nanos(ticks, ticksPerSecond) * ticksPerSecond <= ticks * 1_000_000_000 <
            (Nanos(ticks, ticksPerSecond) + 1_000) * ticksPerSecond
  {
    var x := ticks * 1_000_000;
    var q := x / ticksPerSecond;
    DivisionBounds(x, ticksPerSecond);
    assert Nanos(ticks, ticksPerSecond) == q * 1_000;
    assert q * 1_000 * ticksPerSecond == q * ticksPerSecond * 1_000;
    assert (q * 1_000 + 1_000) * ticksPerSecond == (q * ticksPerSecond + ticksPerSecond) * 1_000;
  }

  predicate WallOver(settings: Settings, sample: Sample, start: nat) {
    settings.realTimeLimit.Some? && sample.now > start + settings.realTimeLimit.value
  }

  predicate UserOver(settings: Settings, ticks: Ticks, ticksPerSecond: nat)
    requires ticksPerSecond > 0
  {
    settings.userTimeLimit.Some? && Nanos(ticks.user, ticksPerSecond) > settings.userTimeLimit.value
  }

  predicate SystemOver(settings: Settings, ticks: Ticks, ticksPerSecond: nat)
    requires ticksPerSecond > 0
  {
    settings.systemTimeLimit.Some? && Nanos(ticks.system, ticksPerSecond) > settings.systemTimeLimit.value
  }

  predicate SumOver(settings: Settings, ticks: Ticks, ticksPerSecond: nat)
    requires ticksPerSecond > 0
  {
    settings.userSystemTimeLimit.Some? &&
    Nanos(ticks.user, ticksPerSecond) + Nanos(ticks.system, ticksPerSecond) > settings.userSystemTimeLimit.value
  }

  function TimeObjection(settings: Settings, sample: Sample, start: nat, ticksPerSecond: nat): ExitStatus
    requires ticksPerSecond > 0
  {
    if sample.ticks.Err? then OK
    else if WallOver(settings, sample, start) then TLE("real time limit exceeded")
    else if UserOver(settings, sample.ticks.value, ticksPerSecond) then TLE("user time limit exceeded")
    else if SystemOver(settings, sample.ticks.value, ticksPerSecond) then TLE("system time limit exceeded")
    else if SumOver(settings, sample.ticks.value, ticksPerSecond) then TLE("user+system time limit exceeded")
    else OK
  }

  /** Some sample of listener l in the first n rounds, taken with the pipe at end of file, is
      beyond the memory limit. */
  predicate MemoryOver(settings: Settings, kinds: seq<Kind>, script: Script, l: nat, n: nat)
    requires Answers(script, kinds) && l < |kinds| && n <= |script.rounds|
  {
    exists r :: 0 <= r < n && SampleOver(settings, script.rounds[r].samples[l])
  }

  predicate SampleOver(settings: Settings, sample: Sample) {
    settings.memoryLimitKibibytes.Some? && sample.pipeClosed && sample.vmPeak.Some? &&
    sample.vmPeak.value > settings.memoryLimitKibibytes.value
  }

  /** What listener l objects to when it is woken in round r. */
  function WakeupObjection(settings: Settings, kinds: seq<Kind>, script: Script, l: nat, r: nat): ExitStatus
    requires Answers(script, kinds) && l < |kinds| && r < |script.rounds|
  {
    var sample := script.rounds[r].samples[l];
    match kinds[l]
    case Perf => if CountOver(settings, sample) then TLE("time limit exceeded") else OK
    case Time => TimeObjection(settings, sample, script.starts[l].value, script.ticksPerSecond)
    case Memory =>
      if sample.pipeClosed && MemoryOver(settings, kinds, script, l, r + 1) then MLE("memory limit exceeded") else OK
    case Ptrace => OK
  }

  /** What it objects to after the child has ended. */
  function FinalObjection(settings: Settings, kinds: seq<Kind>, script: Script, l: nat): ExitStatus
    requires Answers(script, kinds) && l < |kinds|
  {
    var sample := script.finals[l];
    match kinds[l]
    case Perf => if CountOver(settings, sample) then TLE("time limit exceeded") else OK
    case Time => TimeObjection(settings, sample, script.starts[l].value, script.ticksPerSecond)
    case Memory =>
      if MemoryOver(settings, kinds, script, l, |script.rounds|) then MLE("memory limit exceeded") else OK
    case Ptrace => OK
  }

  lemma {:induction false} PeakOver(settings: Settings, samples: seq<Sample>)
    ensures settings.memoryLimitKibibytes.Some? && PeakOf(samples) > settings.memoryLimitKibibytes.value <==>
            exists i :: 0 <= i < |samples| && SampleOver(settings, samples[i])
  {
    if samples != [] {
      var init := samples[..|samples| - 1];
      PeakOver(settings, init);
      assert forall i :: 0 <= i < |init| ==> init[i] == samples[i];
      assert SampleOver(settings, samples[|samples| - 1]) ==>
          exists i :: 0 <= i < |samples| && SampleOver(settings, samples[i]);
    }
  }

  lemma MemoryOverByPeak(settings: Settings, kinds: seq<Kind>, script: Script, l: nat, n: nat)
    requires Answers(script, kinds) && l < |kinds| && n <= |script.rounds|
    ensures MemoryOver(settings, kinds, script, l, n) <==>
            MemoryViolation(settings, PeakOf(History(script, kinds, l, n))) == MLE("memory limit exceeded")
    ensures !MemoryOver(settings, kinds, script, l, n) <==>
            MemoryViolation(settings, PeakOf(History(script, kinds, l, n))) == OK
  {
    var samples := History(script, kinds, l, n);
    PeakOver(settings, samples);
    assert forall r :: 0 <= r < n ==> samples[r] == script.rounds[r].samples[l];
  }

  lemma TimeObjectionFound(settings: Settings, sample: Sample, start: nat, ticksPerSecond: U64)
    requires ticksPerSecond > 0 && sample.ticks.Ok?
    ensures TimeViolation(settings, Usage(sample, start, ticksPerSecond)) ==
            TimeObjection(settings, sample, start, ticksPerSecond)
  {}

  /** The log entries of a wakeup are these objections ... */
  lemma WakeupMeaning(settings: Settings, kinds: seq<Kind>, script: Script, l: nat, r: nat)
    requires Answers(script, kinds) && l < |kinds| && r < |script.rounds|
    ensures WakeupEntry(settings, kinds, script, l, r) == WakeupObjection(settings, kinds, script, l, r)
  {
    var sample := script.rounds[r].samples[l];
    if kinds[l] == Time && sample.ticks.Ok? {
      TimeObjectionFound(settings, sample, script.starts[l].value, script.ticksPerSecond);
    }
    MemoryOverByPeak(settings, kinds, script, l, r + 1);
  }

  /** ... and so are those of the final readings. */
  lemma FinalMeaning(settings: Settings, kinds: seq<Kind>, script: Script, l: nat)
    requires Answers(script, kinds) && l < |kinds|
    ensures FinalEntry(settings, kinds, script, l) == FinalObjection(settings, kinds, script, l)
  {
    if kinds[l] == Time && script.finals[l].ticks.Ok? {
      TimeObjectionFound(settings, script.finals[l], script.starts[l].value, script.ticksPerSecond);
    }
    MemoryOverByPeak(settings, kinds, script, l, |script.rounds|);
  }

  /** A listener votes Kill in exactly the rounds in which one of them objects. */
  lemma KillMeaning(settings: Settings, kinds: seq<Kind>, script: Script, r: nat)
    requires Answers(script, kinds) && r < |script.rounds|
    ensures SomeKill(settings, kinds, script, r) <==>
            exists l :: 0 <= l < |kinds| && WakeupObjection(settings, kinds, script, l, r) != OK
  {
    forall l | 0 <= l < |kinds|
      ensures WakeupEntry(settings, kinds, script, l, r) == WakeupObjection(settings, kinds, script, l, r)
    {
      WakeupMeaning(settings, kinds, script, l, r);
    }
  }

  // ----- The status -----

  lemma {:induction false} FirstNonOkAt(log: seq<ExitStatus>, i: nat)
    requires i < |log| && log[i] != OK && forall j :: 0 <= j < i ==> log[j] == OK
    ensures FirstNonOk(log) == log[i]
  {
    if i > 0 {
      FirstNonOkAt(log[1..], i - 1);
    }
  }

  predicate QuietBefore(settings: Settings, kinds: seq<Kind>, script: Script, r: nat)
    requires Answers(script, kinds) && r <= |script.rounds|
  {
    forall q, l :: 0 <= q < r && 0 <= l < |kinds| ==> WakeupObjection(settings, kinds, script, l, q) == OK
  }

  lemma QuietLog(settings: Settings, kinds: seq<Kind>, script: Script, r: nat)
    requires Answers(script, kinds) && r <= |script.rounds| && QuietBefore(settings, kinds, script, r)
    ensures FirstNonOk(WakeupLog(settings, kinds, script, r)) == OK
  {
    WakeupStatus(settings, kinds, script, r);
    forall q | 0 <= q < r
      ensures !SomeKill(settings, kinds, script, q)
    {
      KillMeaning(settings, kinds, script, q);
    }
  }

  lemma {:induction false} FirstObjectionInLog(settings: Settings, kinds: seq<Kind>, script: Script, l: nat, r: nat,
                                               n: nat)
    requires Answers(script, kinds) && l < |kinds| && r < n <= |script.rounds|
    requires QuietBefore(settings, kinds, script, r)
    requires forall m :: 0 <= m < l ==> WakeupObjection(settings, kinds, script, m, r) == OK
    requires WakeupObjection(settings, kinds, script, l, r) != OK
    ensures FirstNonOk(WakeupLog(settings, kinds, script, n)) == WakeupObjection(settings, kinds, script, l, r)
    decreases n
  {
    var round := RoundLog(settings, kinds, script, n - 1, |kinds|);
    FirstNonOkConcat(WakeupLog(settings, kinds, script, n - 1), round);
    if n == r + 1 {
      QuietLog(settings, kinds, script, r);
      forall m | 0 <= m <= l
        ensures round[m] == WakeupObjection(settings, kinds, script, m, r)
      {
        WakeupMeaning(settings, kinds, script, m, r);
      }
      FirstNonOkAt(round, l);
    } else {
      FirstObjectionInLog(settings, kinds, script, l, r, n - 1);
    }
  }

  /** The first objection of all, round by round and within a round in the order of the
      listeners, is the status of the run, whatever comes later. */
  lemma FirstObjectionIsStatus(settings: Settings, kinds: seq<Kind>, script: Script, l: nat, r: nat)
    requires Answers(script, kinds) && l < |kinds| && r < |script.rounds|
    requires QuietBefore(settings, kinds, script, r)
    requires forall m :: 0 <= m < l ==> WakeupObjection(settings, kinds, script, m, r) == OK
    requires WakeupObjection(settings, kinds, script, l, r) != OK
    ensures ReportOf(settings, kinds, script).exitStatus == WakeupObjection(settings, kinds, script, l, r)
  {
    FirstObjectionInLog(settings, kinds, script, l, r, |script.rounds|);
    StatusInParts(settings, kinds, script);
  }

  /** Without an objection during the run, the end of the child decides: its exit code or the
      signal that killed it are reported, and are an error unless the code is 0. */
  lemma EndIsReported(settings: Settings, kinds: seq<Kind>, script: Script)
    requires Answers(script, kinds)
    ensures var report, wait := ReportOf(settings, kinds, script), script.rounds[|script.rounds| - 1].wait;
            var quiet := QuietBefore(settings, kinds, script, |script.rounds|);
            match wait
            case ChildExited(code) =>
              && report.exitReason == Exited(code)
              && (quiet && code != 0 ==>
                    report.exitStatus == RE("runtime error: return value " + Decimal(code)))
            case ChildSignaled(signal) =>
              && report.exitReason == Killed(signal) && report.exitStatus != OK
              && (quiet ==> report.exitStatus == RE("runtime error: killed by signal " + Decimal(signal)))
            case _ => true
  {
    StatusInParts(settings, kinds, script);
    if QuietBefore(settings, kinds, script, |script.rounds|) {
      QuietLog(settings, kinds, script, |script.rounds|);
    }
  }

  /** If the child has exited with 0 as well, the first objection of the final readings does. */
  lemma FinalObjectionIsStatus(settings: Settings, kinds: seq<Kind>, script: Script, l: nat)
    requires Answers(script, kinds) && l < |kinds| && ExitedCleanly(script)
    requires QuietBefore(settings, kinds, script, |script.rounds|)
    requires forall m :: 0 <= m < l ==> FinalObjection(settings, kinds, script, m) == OK
    requires FinalObjection(settings, kinds, script, l) != OK
    ensures ReportOf(settings, kinds, script).exitStatus == FinalObjection(settings, kinds, script, l)
  {
    QuietLog(settings, kinds, script, |script.rounds|);
    StatusInParts(settings, kinds, script);
    var log := FinalLog(settings, kinds, script, |kinds|);
    forall m | 0 <= m <= l
      ensures log[m] == FinalObjection(settings, kinds, script, m)
    {
      FinalMeaning(settings, kinds, script, m);
    }
    FirstNonOkAt(log, l);
  }

  // ----- The figures -----

  /** After a run without errors, the report has the last reading of each listener. */
  lemma ReportedFigures(settings: Settings, kinds: seq<Kind>, script: Script, l: nat)
    requires Answers(script, kinds) && ErrorFree(settings, kinds, script) && Distinct(kinds) && l < |kinds|
    ensures var report, sample := ReportOf(settings, kinds, script), script.finals[l];
            match kinds[l]
            case Perf =>
              && sample.counter.Ok? && report.instructionsUsed == Some(sample.counter.value)
              && report.measuredTime.Some?
              && (sample.counter.value <= 9_223_372_036_854_775 ==>
                    2 * report.measuredTime.value <= sample.counter.value < 2 * report.measuredTime.value + 2_000_000)
            case Time =>
              && sample.ticks.Ok?
              && report.realTime ==
                 Some(if sample.now < script.starts[l].value then 0 else sample.now - script.starts[l].value)
              && report.userTime == Some(Nanos(sample.ticks.value.user, script.ticksPerSecond))
              && report.systemTime == Some(Nanos(sample.ticks.value.system, script.ticksPerSecond))
            case _ => true
  {
    assert kinds[..|kinds|] == kinds;
    FindAt(kinds, l);
    assert FinalError(kinds[l], script.finals[l]).None?;
    if kinds[l] == Perf && script.finals[l].counter.value <= MAX_MEASURED {
      MeasuredInNanos(script.finals[l].counter.value);
    }
  }

  /** What no listener has measured is not reported. */
  lemma NothingElseReported(settings: Settings, kinds: seq<Kind>, script: Script)
    requires Answers(script, kinds)
    ensures var report := ReportOf(settings, kinds, script);
            && (Perf !in kinds ==> report.instructionsUsed.None? && report.measuredTime.None?)
            && (Time !in kinds ==> report.realTime.None? && report.userTime.None? && report.systemTime.None?)
            && (Memory !in kinds ==> report.memoryUsageKibibytes.None?)
  {
    assert kinds[..|kinds|] == kinds;
  }

  // ----- Wakeups -----

  /** A run asks for wakeups exactly if one of its listeners has a limit to enforce. */
  lemma WakeupsWanted(settings: Settings, kinds: seq<Kind>)
    ensures Periodic(settings, kinds) <==>
            || (Perf in kinds && settings.instructionCountLimit.Some?)
            || (Time in kinds && settings.realTimeLimit.Some?)
            || (Time in kinds && settings.userTimeLimit.Some?)
            || (Time in kinds && settings.systemTimeLimit.Some?)
            || (Time in kinds && settings.userSystemTimeLimit.Some?)
            || (Memory in kinds && settings.memoryLimitKibibytes.Some?)
  {
    forall l | 0 <= l < |kinds| && RequiresTimeout(settings, kinds[l])
      ensures kinds[l] in kinds
    {}
    forall kind | kind in kinds && RequiresTimeout(settings, kind)
      ensures Periodic(settings, kinds)
    {
      var l :| 0 <= l < |kinds| && kinds[l] == kind;
      assert RequiresTimeout(settings, kinds[l]);
    }
    assert Perf in kinds && settings.instructionCountLimit.Some? ==> RequiresTimeout(settings, Perf);
    assert Time in kinds && TimeLimitSet(settings) ==> RequiresTimeout(settings, Time);
    assert Memory in kinds && settings.memoryLimitKibibytes.Some? ==> RequiresTimeout(settings, Memory);
  }

  // ----- The calls of a run, in order -----

  predicate AnyTimeLimit(settings: Settings) {
    settings.realTimeLimit.Some? || settings.userTimeLimit.Some? || settings.systemTimeLimit.Some? ||
    settings.userSystemTimeLimit.Some?
  }

  function ErrorOf<T>(answer: Answer<T>): Option<IoError> {
    if answer.Err? then Some(answer.error) else None
  }

  function StartCalls(script: Script): seq<Option<IoError>> {
    seq(|script.starts|, l requires 0 <= l < |script.starts| => ErrorOf(script.starts[l]))
  }

  function WakeupCalls(settings: Settings, kinds: seq<Kind>, script: Script, r: nat): seq<Option<IoError>>
    requires Answers(script, kinds) && r < |script.rounds|
  {
    seq(|kinds|, l requires 0 <= l < |kinds| =>
      if kinds[l] == Perf && settings.instructionCountLimit.Some? then ErrorOf(script.rounds[r].samples[l].counter)
      else if kinds[l] == Time && AnyTimeLimit(settings) then ErrorOf(script.rounds[r].samples[l].ticks)
      else None)
  }

  function WaitCalls(round: Round): seq<Option<IoError>> {
    match round.wait
    case WaitFailed(e) => [Some(e)]
    case Interrupted => []
    case _ => [round.childError] + round.events
  }

  function RoundCalls(settings: Settings, kinds: seq<Kind>, script: Script, r: nat): seq<Option<IoError>>
    requires Answers(script, kinds) && r < |script.rounds|
  {
    WakeupCalls(settings, kinds, script, r) +
    (if exists l :: 0 <= l < |kinds| && WakeupObjection(settings, kinds, script, l, r) != OK
     then [script.rounds[r].killError] else []) +
    WaitCalls(script.rounds[r])
  }

  function LoopCalls(settings: Settings, kinds: seq<Kind>, script: Script, r: nat): seq<Option<IoError>>
    requires Answers(script, kinds) && r <= |script.rounds|
    decreases |script.rounds| - r
  {
    if r == |script.rounds| then []
    else RoundCalls(settings, kinds, script, r) + LoopCalls(settings, kinds, script, r + 1)
  }

  function FinalCalls(kinds: seq<Kind>, script: Script): seq<Option<IoError>>
    requires Answers(script, kinds)
  {
    seq(|kinds|, l requires 0 <= l < |kinds| =>
      if kinds[l] == Perf then ErrorOf(script.finals[l].counter)
      else if kinds[l] == Time then ErrorOf(script.finals[l].ticks)
      else None)
  }

  /** All calls of a run that could fail, in the order in which they are made. */
  function AllCalls(settings: Settings, kinds: seq<Kind>, script: Script): seq<Option<IoError>>
    requires Answers(script, kinds)
  {
    [script.errorBefore] + StartCalls(script) + LoopCalls(settings, kinds, script, 0) + FinalCalls(kinds, script) +
    [script.errorAfter]
  }

  lemma {:induction false} FirstErrorConcat(a: seq<Option<IoError>>, b: seq<Option<IoError>>)
    ensures FirstError(a + b) == OrElse(FirstError(a), FirstError(b))
  {
    if a == [] {
      assert a + b == b;
    } else {
      assert (a + b)[1..] == a[1..] + b;
      FirstErrorConcat(a[1..], b);
    }
  }

  lemma RoundErrorIsFirst(settings: Settings, kinds: seq<Kind>, script: Script, r: nat)
    requires Answers(script, kinds) && r < |script.rounds|
    ensures RoundError(settings, kinds, script, r) == FirstError(RoundCalls(settings, kinds, script, r))
  {
    var round := script.rounds[r];
    var kill := if exists l :: 0 <= l < |kinds| && WakeupObjection(settings, kinds, script, l, r) != OK
                then [round.killError] else [];
    assert WakeupCalls(settings, kinds, script, r) == WakeupErrors(settings, kinds, script, r);
    KillMeaning(settings, kinds, script, r);
    FirstErrorConcat(WakeupCalls(settings, kinds, script, r) + kill, WaitCalls(round));
    FirstErrorConcat(WakeupCalls(settings, kinds, script, r), kill);
    assert ([round.childError] + round.events)[1..] == round.events;
    assert WaitError(round) == FirstError(WaitCalls(round));
  }

  lemma {:induction false} LoopErrorIsFirst(settings: Settings, kinds: seq<Kind>, script: Script, r: nat)
    requires Answers(script, kinds) && r <= |script.rounds|
    ensures LoopError(settings, kinds, script, r) == FirstError(LoopCalls(settings, kinds, script, r))
    decreases |script.rounds| - r
  {
    if r < |script.rounds| {
      RoundErrorIsFirst(settings, kinds, script, r);
      LoopErrorIsFirst(settings, kinds, script, r + 1);
      FirstErrorConcat(RoundCalls(settings, kinds, script, r), LoopCalls(settings, kinds, script, r + 1));
    }
  }

  /** The error that a run returns is that of the first of its calls that fails. */
  lemma RunErrorIsFirst(settings: Settings, kinds: seq<Kind>, script: Script)
    requires Answers(script, kinds)
    ensures RunError(settings, kinds, script) == FirstError(AllCalls(settings, kinds, script))
  {
    var starts, loop := StartCalls(script), LoopCalls(settings, kinds, script, 0);
    var finals := FinalCalls(kinds, script);
    assert starts == StartErrors(script) && finals == FinalErrors(kinds, script);
    LoopErrorIsFirst(settings, kinds, script, 0);
    FirstErrorConcat([script.errorBefore] + starts + loop + finals, [script.errorAfter]);
    FirstErrorConcat([script.errorBefore] + starts + loop, finals);
    FirstErrorConcat([script.errorBefore] + starts, loop);
    FirstErrorConcat([script.errorBefore], starts);
  }

  /** And that is the one before which all have succeeded. */
  lemma FirstErrorIsFirst(outcomes: seq<Option<IoError>>, i: nat)
    requires i < |outcomes| && outcomes[i].Some? && forall m :: 0 <= m < i ==> outcomes[m].None?
    ensures FirstError(outcomes) == outcomes[i]
  {
    FailsAt(outcomes, i);
  }

  // ----- What is left of a run that fails -----

  lemma QuietIffLogOk(settings: Settings, kinds: seq<Kind>, script: Script, r: nat)
    requires Answers(script, kinds) && r <= |script.rounds|
    ensures QuietBefore(settings, kinds, script, r) <==> FirstNonOk(WakeupLog(settings, kinds, script, r)) == OK
  {
    WakeupStatus(settings, kinds, script, r);
    forall q, l | 0 <= q < r && 0 <= l < |kinds| && WakeupObjection(settings, kinds, script, l, q) != OK
      ensures SomeKillBefore(settings, kinds, script, r)
    {
      KillMeaning(settings, kinds, script, q);
      assert SomeKill(settings, kinds, script, q);
    }
    if QuietBefore(settings, kinds, script, r) {
      QuietLog(settings, kinds, script, r);
    }
  }

  /** A run that fails in round r, at the wakeup of listener n or (if n is the number of listeners)
      after it, has reported nothing but whether a listener had objected by then. */
  lemma FailedRunReport(settings: Settings, kinds: seq<Kind>, script: Script, r: nat, n: nat)
    requires Answers(script, kinds) && r < |script.rounds| && n <= |kinds| && !StartFails(script)
    requires forall q :: 0 <= q < r ==> RoundError(settings, kinds, script, q).None?
    requires RoundError(settings, kinds, script, r).Some?
    requires forall m :: 0 <= m < n ==> WakeupCalls(settings, kinds, script, r)[m].None?
    requires n < |kinds| ==> WakeupCalls(settings, kinds, script, r)[n].Some?
    ensures var report := ReportReached(settings, kinds, script);
            && report == Report(report.exitStatus, Exited(0), None, None, None, None, None, None)
            && (report.exitStatus == OK <==>
                && QuietBefore(settings, kinds, script, r)
                && forall m :: 0 <= m < n ==> WakeupObjection(settings, kinds, script, m, r) == OK)
  {
    NoErrorBefore(settings, kinds, script, r);
    assert WakeupCalls(settings, kinds, script, r) == WakeupErrors(settings, kinds, script, r);
    if n < |kinds| {
      FailsAt(WakeupErrors(settings, kinds, script, r), n);
    } else {
      AllSucceed(WakeupErrors(settings, kinds, script, r));
    }
    var round := RoundLog(settings, kinds, script, r, n);
    QuietIffLogOk(settings, kinds, script, r);
    FirstNonOkConcat(WakeupLog(settings, kinds, script, r), round);
    FirstNonOkMeaning(round);
    forall m | 0 <= m < n
      ensures round[m] == WakeupObjection(settings, kinds, script, m, r)
    {
      WakeupMeaning(settings, kinds, script, m, r);
    }
  }

  // ----- The order of the listeners -----

  function Rank(kind: Kind): nat {
    match kind
    case Perf => 0
    case Time => 1
    case Memory => 2
    case Ptrace => 3
  }

  /** `spawn` puts the listeners in the order of the features; where two object in the same
      round, instructions come before times, and times before memory. */
  lemma ListenersInOrder(features: set<Feature>)
    ensures var kinds := ListenersFor(features);
            forall i, j :: 0 <= i < j < |kinds| ==> Rank(kinds[i]) < Rank(kinds[j])
  {}
}
