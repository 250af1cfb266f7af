/**
 What the report of a run without errors means to the caller who set the limits.
 */
module VerdictTheorems {
  import opened Measures
  import opened ExecutionResults
  import opened Verdicts

  predicate Within(value: int, limit: Option<int>) {
    limit.Some? ==> value <= limit.value
  }

  predicate UsageWithin(settings: Settings, usage: TimeUsage) {
    && Within(usage.wall, settings.realTimeLimit)
    && Within(usage.user, settings.userTimeLimit)
    && Within(usage.system, settings.systemTimeLimit)
    && Within(usage.user + usage.system, settings.userSystemTimeLimit)
  }

  predicate CounterWithin(settings: Settings, sample: Sample) {
    sample.counter.Ok? ==> Within(sample.counter.value, settings.instructionCountLimit)
  }

  predicate TicksWithin(settings: Settings, script: Script, l: nat, sample: Sample)
    requires script.ticksPerSecond > 0 && l < |script.starts| && script.starts[l].Ok?
  {
    sample.ticks.Ok? ==> UsageWithin(settings, Usage(sample, script.starts[l].value, script.ticksPerSecond))
  }

  predicate PeakWithin(settings: Settings, sample: Sample) {
    sample.pipeClosed && sample.vmPeak.Some? ==> Within(sample.vmPeak.value, settings.memoryLimitKibibytes)
  }

  /** No sample that listener l has taken, during the run or after it, exceeds a limit. */
  predicate NothingExceeded(settings: Settings, kinds: seq<Kind>, script: Script, l: nat)
    requires Answers(script, kinds) && l < |kinds| && script.starts[l].Ok?
  {
    match kinds[l]
    case Perf =>
      && (forall r :: 0 <= r < |script.rounds| ==> CounterWithin(settings, script.rounds[r].samples[l]))
      && CounterWithin(settings, script.finals[l])
    case Time =>
      && (forall r :: 0 <= r < |script.rounds| ==> TicksWithin(settings, script, l, script.rounds[r].samples[l]))
      && TicksWithin(settings, script, l, script.finals[l])
    case Memory =>
      forall r :: 0 <= r < |script.rounds| ==> PeakWithin(settings, script.rounds[r].samples[l])
    case Ptrace => true
  }

  /** Some listener has voted Kill in one of the first n rounds. */
  predicate SomeKillBefore(settings: Settings, kinds: seq<Kind>, script: Script, n: nat)
    requires Answers(script, kinds) && n <= |script.rounds|
  {
    exists r :: 0 <= r < n && SomeKill(settings, kinds, script, r)
  }

  predicate SomeKillEver(settings: Settings, kinds: seq<Kind>, script: Script)
    requires Answers(script, kinds)
  {
    SomeKillBefore(settings, kinds, script, |script.rounds|)
  }

  lemma RoundStatus(settings: Settings, kinds: seq<Kind>, script: Script, r: nat)
    requires Answers(script, kinds) && r < |script.rounds|
    ensures var status := FirstNonOk(RoundLog(settings, kinds, script, r, |kinds|));
            && (status != OK <==> SomeKill(settings, kinds, script, r))
            && (status != OK ==> status.TLE? || status.MLE?)
  {
    var log := RoundLog(settings, kinds, script, r, |kinds|);
    FirstNonOkMeaning(log);
    assert forall l :: 0 <= l < |kinds| ==> log[l] == WakeupEntry(settings, kinds, script, l, r);
  }

  /** The wakeup part of the log carries a violation exactly when some round votes Kill, and
      such a violation is about time or memory. */
  lemma {:induction false} WakeupStatus(settings: Settings, kinds: seq<Kind>, script: Script, n: nat)
    requires Answers(script, kinds) && n <= |script.rounds|
    ensures var status := FirstNonOk(WakeupLog(settings, kinds, script, n));
            && (status != OK <==> SomeKillBefore(settings, kinds, script, n))
            && (status != OK ==> status.TLE? || status.MLE?)
  {
    if n > 0 {
      WakeupStatus(settings, kinds, script, n - 1);
      RoundStatus(settings, kinds, script, n - 1);
      FirstNonOkConcat(WakeupLog(settings, kinds, script, n - 1), RoundLog(settings, kinds, script, n - 1, |kinds|));
    }
  }

  lemma FinalStatus(settings: Settings, kinds: seq<Kind>, script: Script)
    requires Answers(script, kinds)
    ensures var status := FirstNonOk(FinalLog(settings, kinds, script, |kinds|));
            && (status == OK <==> forall l :: 0 <= l < |kinds| ==> FinalEntry(settings, kinds, script, l) == OK)
            && (status != OK ==> status.TLE? || status.MLE?)
  {
    var log := FinalLog(settings, kinds, script, |kinds|);
    FirstNonOkMeaning(log);
    assert forall l :: 0 <= l < |kinds| ==> log[l] == FinalEntry(settings, kinds, script, l);
  }

  /** The status of a run, read off its log in three parts. */
  lemma StatusInParts(settings: Settings, kinds: seq<Kind>, script: Script)
    requires Answers(script, kinds)
    ensures ReportOf(settings, kinds, script).exitStatus ==
            Sticky(FirstNonOk(WakeupLog(settings, kinds, script, |script.rounds|)),
                   Sticky(ReasonStatus(Reason(LastWait(script))),
                          FirstNonOk(FinalLog(settings, kinds, script, |kinds|))))
  {
    var reason := [ReasonStatus(Reason(LastWait(script)))];
    FirstNonOkConcat(WakeupLog(settings, kinds, script, |script.rounds|) + reason,
                     FinalLog(settings, kinds, script, |kinds|));
    RunLogStart(settings, kinds, script);
    assert WakeupLog(settings, kinds, script, |script.rounds|) + reason ==
           RunLogAt(settings, kinds, script, 0);
  }

  /** How the child ended, as the last wait has reported it. */
  predicate ExitedCleanly(script: Script)
    requires script.rounds != []
  {
    script.rounds[|script.rounds| - 1].wait == ChildExited(0)
  }

  /** A run in which some listener ever voted Kill ends as a time or memory violation, and a
      run is a runtime error exactly when the child failed by itself, without such a vote. */
  lemma KillIsNeverRuntimeError(settings: Settings, kinds: seq<Kind>, script: Script)
    requires Answers(script, kinds) && !LastWait(script).WaitFailed?
    ensures var status := ReportOf(settings, kinds, script).exitStatus;
            && (SomeKillEver(settings, kinds, script) ==> status.TLE? || status.MLE?)
            && (status.RE? <==> !ExitedCleanly(script) && !SomeKillEver(settings, kinds, script))
  {
    StatusInParts(settings, kinds, script);
    WakeupStatus(settings, kinds, script, |script.rounds|);
    FinalStatus(settings, kinds, script);
  }

  /** Neither at a wakeup nor after the end has listener l anything to object to. */
  predicate NothingFound(settings: Settings, kinds: seq<Kind>, script: Script, l: nat)
    requires Answers(script, kinds) && l < |kinds|
  {
    && FinalEntry(settings, kinds, script, l) == OK
    && forall r :: 0 <= r < |script.rounds| ==> WakeupEntry(settings, kinds, script, l, r) == OK
  }

  lemma NoKillMeaning(settings: Settings, kinds: seq<Kind>, script: Script)
    requires Answers(script, kinds)
    ensures !SomeKillEver(settings, kinds, script) <==>
            forall l, r :: 0 <= l < |kinds| && 0 <= r < |script.rounds| ==>
              WakeupEntry(settings, kinds, script, l, r) == OK
  {
    if !SomeKillEver(settings, kinds, script) {
      forall l, r | 0 <= l < |kinds| && 0 <= r < |script.rounds|
        ensures WakeupEntry(settings, kinds, script, l, r) == OK
      {
        assert !SomeKill(settings, kinds, script, r);
      }
    }
  }

  lemma EveryoneFoundNothing(settings: Settings, kinds: seq<Kind>, script: Script)
    requires Answers(script, kinds)
    ensures (forall l :: 0 <= l < |kinds| ==> NothingFound(settings, kinds, script, l)) <==>
            !SomeKillEver(settings, kinds, script) &&
            forall l :: 0 <= l < |kinds| ==> FinalEntry(settings, kinds, script, l) == OK
  {
    NoKillMeaning(settings, kinds, script);
    if forall l :: 0 <= l < |kinds| ==> NothingFound(settings, kinds, script, l) {
      forall l, r | 0 <= l < |kinds| && 0 <= r < |script.rounds|
        ensures WakeupEntry(settings, kinds, script, l, r) == OK
      {
        assert NothingFound(settings, kinds, script, l);
      }
      forall l | 0 <= l < |kinds|
        ensures FinalEntry(settings, kinds, script, l) == OK
      {
        assert NothingFound(settings, kinds, script, l);
      }
    }
  }

  lemma OkIffNothingFound(settings: Settings, kinds: seq<Kind>, script: Script)
    requires Answers(script, kinds)
    ensures ReportOf(settings, kinds, script).exitStatus == OK <==>
            Reason(LastWait(script)) == Exited(0) &&
            forall l :: 0 <= l < |kinds| ==> NothingFound(settings, kinds, script, l)
  {
    StatusInParts(settings, kinds, script);
    WakeupStatus(settings, kinds, script, |script.rounds|);
    FinalStatus(settings, kinds, script);
    EveryoneFoundNothing(settings, kinds, script);
  }

  lemma NothingFoundMeaning(settings: Settings, kinds: seq<Kind>, script: Script, l: nat)
    requires Answers(script, kinds) && l < |kinds| && script.starts[l].Ok?
    ensures NothingFound(settings, kinds, script, l) <==> NothingExceeded(settings, kinds, script, l)
  {
    if kinds[l] == Memory {
      MemoryFoundNothing(settings, kinds, script, l);
    } else {
      forall r | 0 <= r < |script.rounds|
        ensures kinds[l] == Perf ==> (WakeupEntry(settings, kinds, script, l, r) == OK <==>
                                      CounterWithin(settings, script.rounds[r].samples[l]))
        ensures kinds[l] == Time ==> (WakeupEntry(settings, kinds, script, l, r) == OK <==>
                                      TicksWithin(settings, script, l, script.rounds[r].samples[l]))
      {}
    }
  }

  lemma {:induction false} PeakWithinLimit(samples: seq<Sample>, settings: Settings)
    ensures Within(PeakOf(samples), settings.memoryLimitKibibytes) <==>
            forall i :: 0 <= i < |samples| ==> PeakWithin(settings, samples[i])
  {
    if samples != [] {
      var init := samples[..|samples| - 1];
      PeakWithinLimit(init, settings);
      assert forall i :: 0 <= i < |init| ==> init[i] == samples[i];
    }
  }

  lemma MemoryFoundNothing(settings: Settings, kinds: seq<Kind>, script: Script, l: nat)
    requires Answers(script, kinds) && l < |kinds| && script.starts[l].Ok? && kinds[l] == Memory
    ensures NothingFound(settings, kinds, script, l) <==> NothingExceeded(settings, kinds, script, l)
  {
    var all := History(script, kinds, l, |script.rounds|);
    PeakWithinLimit(all, settings);
    assert forall r :: 0 <= r < |script.rounds| ==> all[r] == script.rounds[r].samples[l];
    forall n | 0 <= n <= |script.rounds|
      ensures PeakOf(History(script, kinds, l, n)) <= PeakOf(all)
    {
      assert all[..n] == History(script, kinds, l, n) && all[..|all|] == all;
      PeakNeverDecreases(all, n, |all|);
    }
  }

  /** An OK run is exactly a run that exited with code 0 and in which no listener, at any
      wakeup or after the end, took a sample that exceeds a limit. */
  lemma OkIffNothingExceeded(settings: Settings, kinds: seq<Kind>, script: Script)
    requires Answers(script, kinds) && !LastWait(script).WaitFailed?
    requires forall l :: 0 <= l < |kinds| ==> script.starts[l].Ok?
    ensures ReportOf(settings, kinds, script).exitStatus == OK <==>
            ExitedCleanly(script) &&
            forall l :: 0 <= l < |kinds| ==> NothingExceeded(settings, kinds, script, l)
  {
    OkIffNothingFound(settings, kinds, script);
    forall l | 0 <= l < |kinds|
      ensures NothingFound(settings, kinds, script, l) <==> NothingExceeded(settings, kinds, script, l)
    {
      NothingFoundMeaning(settings, kinds, script, l);
    }
  }

  /** The figures of a report, each from the listener that produced it. */
  predicate FiguresWithin(settings: Settings, kinds: seq<Kind>, report: Report) {
    && (Perf in kinds ==>
          report.instructionsUsed.Some? && Within(report.instructionsUsed.value, settings.instructionCountLimit))
    && (Time in kinds ==>
          && report.realTime.Some? && report.userTime.Some? && report.systemTime.Some?
          && UsageWithin(settings, TimeUsage(report.realTime.value, report.userTime.value, report.systemTime.value)))
    && (Memory in kinds ==>
          report.memoryUsageKibibytes.Some? &&
          Within(report.memoryUsageKibibytes.value, settings.memoryLimitKibibytes))
  }

  /** Every figure that an OK run reports is within the limit that was set for it. */
  lemma OkRunReportsWithinLimits(settings: Settings, kinds: seq<Kind>, script: Script)
    requires Answers(script, kinds) && ErrorFree(settings, kinds, script)
    requires ReportOf(settings, kinds, script).exitStatus == OK
    ensures ReportOf(settings, kinds, script).exitReason == Exited(0)
    ensures FiguresWithin(settings, kinds, ReportOf(settings, kinds, script))
  {
    OkIffNothingFound(settings, kinds, script);
    assert kinds[..|kinds|] == kinds;
    var p, t, m := Find(kinds, Perf), Find(kinds, Time), Find(kinds, Memory);
    assert p.Some? ==> NothingFound(settings, kinds, script, p.value) && FinalError(Perf, script.finals[p.value]).None?;
    assert t.Some? ==> NothingFound(settings, kinds, script, t.value) && FinalError(Time, script.finals[t.value]).None?;
    assert m.Some? ==> NothingFound(settings, kinds, script, m.value);
  }

  /** With the instruction limit that `measured_time_limit` stores, an OK run also reports a
      measured time within the duration that the caller asked for, if that limit is at most
      MAX_MEASURED or the duration is beyond anything that can be reported. */
  lemma OkRunMeasuredTimeWithinLimit(settings: Settings, kinds: seq<Kind>, script: Script, duration: nat)
    requires Answers(script, kinds) && ErrorFree(settings, kinds, script)
    requires ReportOf(settings, kinds, script).exitStatus == OK
    requires Perf in kinds && settings.instructionCountLimit == Some(InstructionLimit(duration))
    requires InstructionLimit(duration) <= MAX_MEASURED || Millis(duration) >= TWO_64
    ensures var measured := ReportOf(settings, kinds, script).measuredTime;
            measured.Some? && measured.value <= duration
  {
    OkRunReportsWithinLimits(settings, kinds, script);
    if InstructionLimit(duration) <= MAX_MEASURED {
      MeasuredWithinLimit(ReportOf(settings, kinds, script).instructionsUsed.value, duration);
    }
  }

  /** A run of a child that has executed 9223372036854776 instructions when it exits. */
  function LongRun(): Script {
    var sample := Sample(Ok(9_223_372_036_854_776), Ok(Ticks(0, 0)), 0, false, None);
    Script(1, None, [Ok(0)], [Round([sample], None, ChildExited(0), None, [None])], [sample], None)
  }

  /** In every other case there is an OK run that reports more than the duration. */
  lemma OkRunMeasuredTimeBeyondLimit(settings: Settings, duration: nat)
    requires settings.instructionCountLimit == Some(InstructionLimit(duration))
    requires InstructionLimit(duration) > MAX_MEASURED && Millis(duration) < TWO_64
    ensures Answers(LongRun(), [Perf]) && ErrorFree(settings, [Perf], LongRun())
    ensures var report := ReportOf(settings, [Perf], LongRun());
            report.exitStatus == OK && report.measuredTime.Some? && report.measuredTime.value > duration
  {
    var script, kinds := LongRun(), [Perf];
    assert script.rounds[0].wait == ChildExited(0) && Answers(script, kinds);
    assert RoundErrorFree(settings, kinds, script, 0);
    assert NothingFound(settings, kinds, script, 0);
    OkIffNothingFound(settings, kinds, script);
    assert kinds[..1] == kinds;
    FindAt(kinds, 0);
    MeasuredWraps();
    if Millis(duration) >= TWO_64 - 4_611_686_018 {
      LimitNegative(duration);
    }
  }

  /** A run that asks for no periodic wakeups can never be voted to death. */
  lemma WithoutWakeupsNoKill(settings: Settings, kinds: seq<Kind>, script: Script)
    requires Answers(script, kinds) && !Periodic(settings, kinds)
    ensures !SomeKillEver(settings, kinds, script)
  {
    forall l, r | 0 <= l < |kinds| && 0 <= r < |script.rounds|
      ensures WakeupEntry(settings, kinds, script, l, r) == OK
    {
      assert !RequiresTimeout(settings, kinds[l]);
    }
  }

  lemma {:induction false} ClockAdvances(kinds: seq<Kind>, script: Script, l: nat, r: nat)
    requires Answers(script, kinds) && l < |kinds| && script.starts[l].Ok? && r < |script.rounds|
    requires script.rounds[0].samples[l].now >= script.starts[l].value
    requires forall q :: 0 < q <= r ==> script.rounds[q - 1].samples[l].now < script.rounds[q].samples[l].now
    ensures script.rounds[r].samples[l].now >= script.starts[l].value + r
  {
    if r > 0 {
      ClockAdvances(kinds, script, l, r - 1);
    }
  }

  /** If the clock moves on by at least one unit between wakeups, every round after the first
      `limit` ones votes Kill: the real-time limit cannot be outlived by any number of them. */
  lemma RealTimeLimitBites(settings: Settings, kinds: seq<Kind>, script: Script, l: nat, r: nat)
    requires Answers(script, kinds) && ErrorFree(settings, kinds, script)
    requires l < |kinds| && kinds[l] == Time && settings.realTimeLimit.Some?
    requires script.rounds[0].samples[l].now >= script.starts[l].value
    requires forall q :: 0 < q < |script.rounds| ==>
               script.rounds[q - 1].samples[l].now < script.rounds[q].samples[l].now
    requires settings.realTimeLimit.value < r < |script.rounds|
    ensures SomeKill(settings, kinds, script, r)
    ensures ReportOf(settings, kinds, script).exitStatus.TLE? || ReportOf(settings, kinds, script).exitStatus.MLE?
  {
    ClockAdvances(kinds, script, l, r);
    assert RoundErrorFree(settings, kinds, script, r);
    assert RoundErrorFree(settings, kinds, script, |script.rounds| - 1);
    assert WakeupEntry(settings, kinds, script, l, r) != OK;
    assert SomeKill(settings, kinds, script, r);
    assert SomeKillEver(settings, kinds, script);
    KillIsNeverRuntimeError(settings, kinds, script);
  }

  /** The reported peak is the greatest VmPeak among the samples of the memory listener that
      were taken once the pipe had closed, and 0 without such a sample. */
  lemma ReportedPeakIsMaximum(settings: Settings, kinds: seq<Kind>, script: Script, l: nat)
    requires Answers(script, kinds) && Distinct(kinds) && l < |kinds| && kinds[l] == Memory
    ensures var reported := ReportOf(settings, kinds, script).memoryUsageKibibytes;
            && reported.Some?
            && (forall r :: 0 <= r < |script.rounds| ==>
                  var sample := script.rounds[r].samples[l];
                  sample.pipeClosed && sample.vmPeak.Some? ==> sample.vmPeak.value <= reported.value)
            && (reported.value == 0 ||
                exists r :: 0 <= r < |script.rounds| && script.rounds[r].samples[l].pipeClosed &&
                            script.rounds[r].samples[l].vmPeak == Some(reported.value))
  {
    assert kinds[..|kinds|] == kinds;
    FindAt(kinds, l);
    var all := History(script, kinds, l, |script.rounds|);
    PeakIsMaximum(all);
    assert forall r :: 0 <= r < |script.rounds| ==> all[r] == script.rounds[r].samples[l];
  }

  /** If the memory listener never sees its pipe at end of file, it reports 0, and no memory
      limit, however small, is ever found to be exceeded. */
  lemma NeverAtEndOfFile(settings: Settings, kinds: seq<Kind>, script: Script, l: nat)
    requires Answers(script, kinds) && Distinct(kinds) && l < |kinds| && kinds[l] == Memory
    requires forall r :: 0 <= r < |script.rounds| ==> !script.rounds[r].samples[l].pipeClosed
    ensures ReportOf(settings, kinds, script).memoryUsageKibibytes == Some(0)
    ensures FinalEntry(settings, kinds, script, l) == OK
    ensures forall r :: 0 <= r < |script.rounds| ==> WakeupEntry(settings, kinds, script, l, r) == OK
  {
    assert kinds[..|kinds|] == kinds;
    FindAt(kinds, l);
    var all := History(script, kinds, l, |script.rounds|);
    PeakIsMaximum(all);
  }
}
