/**
 src/listener/: the objects that sample the child and vote on whether it may go on. What a
 system call would answer is passed in as a `Sample` or an `Answer`.
 */
module Listeners {
  import opened Measures
  import opened ExecutionResults
  import opened Verdicts

  datatype WakeupAction = Continue | Kill {
    function Combine(other: WakeupAction): WakeupAction {
      if this == Kill || other == Kill then Kill else Continue
    }
  }

  /** A listener votes Kill exactly when it has just found a violation. */
  function Vote(found: ExitStatus): WakeupAction {
    if found == OK then Continue else Kill
  }

  class PerfListener {
    var perfFd: Option<nat>

    constructor ()
      ensures perfFd == None
    {
      perfFd := None;
    }

    method OnPostCloneParent(answer: Answer<nat>) returns (error: Option<IoError>)
      modifies this
      ensures error == if answer.Ok? then None else Some(answer.error)
      ensures perfFd == if answer.Ok? then Some(answer.value) else old(perfFd)
    {
      if answer.Err? {
        return Some(answer.error);
      }
      perfFd := Some(answer.value);
      error := None;
    }

    method OnWakeup(settings: Settings, sample: Sample, data: ExecutionResult) returns (r: Answer<WakeupAction>)
      requires perfFd.Some?
      modifies data
      ensures WakeupError(settings, Perf, sample).Some? ==>
                r == Err(WakeupError(settings, Perf, sample).value) && data.View() == old(data.View())
      ensures WakeupError(settings, Perf, sample).None? ==>
                var found := if sample.counter.Ok? then PerfViolation(settings, sample.counter.value) else OK;
                && r == Ok(Vote(found))
                && data.View() == old(data.View()).(exitStatus := Sticky(old(data.exitStatus), found))
    {
      if settings.instructionCountLimit.Some? {
        if sample.counter.Err? {
          return Err(sample.counter.error);
        }
        if sample.counter.value > settings.instructionCountLimit.value {
          data.SetExitStatus(TLE("time limit exceeded"));
          return Ok(Kill);
        }
      }
      r := Ok(Continue);
    }

    method OnPostExecute(settings: Settings, sample: Sample, data: ExecutionResult) returns (error: Option<IoError>)
      requires perfFd.Some?
      modifies data
      ensures error == FinalError(Perf, sample)
      ensures error.Some? ==> data.View() == old(data.View())
      ensures error.None? ==>
                data.View() == old(data.View()).(
                  exitStatus := Sticky(old(data.exitStatus), PerfViolation(settings, sample.counter.value)),
                  instructionsUsed := Some(sample.counter.value),
                  measuredTime := Some(MeasuredMillis(sample.counter.value) * 1_000_000))
    {
      if sample.counter.Err? {
        return Some(sample.counter.error);
      }
      if settings.instructionCountLimit.Some? {
        if sample.counter.value > settings.instructionCountLimit.value {
          data.SetExitStatus(TLE("time limit exceeded"));
        }
      }
      data.SetInstructionsUsed(sample.counter.value);
      error := None;
    }
  }

  class TimeListener {
    var realTimeStart: Option<nat>
    var timeLimitSet: bool

    constructor ()
      ensures realTimeStart == None && !timeLimitSet
    {
      realTimeStart, timeLimitSet := None, false;
    }

    method OnPostCloneParent(settings: Settings, now: nat)
      modifies this
      ensures realTimeStart == Some(now) && timeLimitSet == TimeLimitSet(settings)
    {
      realTimeStart := Some(now);
      timeLimitSet :=
        settings.realTimeLimit.Some? ||
        settings.userTimeLimit.Some? ||
        settings.systemTimeLimit.Some? ||
        settings.userSystemTimeLimit.Some?;
    }

    method VerifyTimeUsage(settings: Settings, data: ExecutionResult, usage: TimeUsage) returns (r: WakeupAction)
      modifies data
      ensures r == Vote(TimeViolation(settings, usage))
      ensures data.View() == old(data.View()).(
                exitStatus := Sticky(old(data.exitStatus), TimeViolation(settings, usage)))
    {
      r := Kill;
      if settings.realTimeLimit.Some? && usage.wall > settings.realTimeLimit.value {
        data.SetExitStatus(TLE("real time limit exceeded"));
      } else if settings.userTimeLimit.Some? && usage.user > settings.userTimeLimit.value {
        data.SetExitStatus(TLE("user time limit exceeded"));
      } else if settings.systemTimeLimit.Some? && usage.system > settings.systemTimeLimit.value {
        data.SetExitStatus(TLE("system time limit exceeded"));
      } else if settings.userSystemTimeLimit.Some? &&
                usage.user + usage.system > settings.userSystemTimeLimit.value {
        data.SetExitStatus(TLE("user+system time limit exceeded"));
      } else {
        r := Continue;
      }
    }

    method OnWakeup(settings: Settings, sample: Sample, ticksPerSecond: U64, data: ExecutionResult)
      returns (r: Answer<WakeupAction>)
      requires realTimeStart.Some? && timeLimitSet == TimeLimitSet(settings) && ticksPerSecond > 0
      modifies data
      ensures WakeupError(settings, Time, sample).Some? ==>
                r == Err(WakeupError(settings, Time, sample).value) && data.View() == old(data.View())
      ensures WakeupError(settings, Time, sample).None? ==>
                var found := if sample.ticks.Ok?
                             then TimeViolation(settings, Usage(sample, realTimeStart.value, ticksPerSecond))
                             else OK;
                && r == Ok(Vote(found))
                && data.View() == old(data.View()).(exitStatus := Sticky(old(data.exitStatus), found))
    {
      if !timeLimitSet {
        return Ok(Continue);
      }
      if sample.ticks.Err? {
        return Err(sample.ticks.error);
      }
      var action := VerifyTimeUsage(settings, data, Usage(sample, realTimeStart.value, ticksPerSecond));
      r := Ok(action);
    }

    method OnPostExecute(settings: Settings, sample: Sample, ticksPerSecond: U64, data: ExecutionResult)
      returns (error: Option<IoError>)
      requires realTimeStart.Some? && timeLimitSet == TimeLimitSet(settings) && ticksPerSecond > 0
      modifies data
      ensures error == FinalError(Time, sample)
      ensures error.Some? ==> data.View() == old(data.View())
      ensures error.None? ==>
                var usage := Usage(sample, realTimeStart.value, ticksPerSecond);
                data.View() == old(data.View()).(
                  exitStatus := Sticky(old(data.exitStatus), TimeViolation(settings, usage)),
                  realTime := Some(usage.wall),
                  userTime := Some(usage.user),
                  systemTime := Some(usage.system))
    {
      if sample.ticks.Err? {
        return Some(sample.ticks.error);
      }
      var usage := Usage(sample, realTimeStart.value, ticksPerSecond);
      data.SetRealTime(usage.wall);
      data.SetUserTime(usage.user);
      data.SetSystemTime(usage.system);
      if timeLimitSet {
        var _ := VerifyTimeUsage(settings, data, usage);
      }
      error := None;
    }
  }

  class MemoryListener {
    var closedChildInParent: bool
    var peakMemoryKibibytes: nat
    ghost var childCloses: nat // how often this process has closed the write end of the pipe
    ghost var parentCloses: nat // and the read end

    constructor ()
      ensures !closedChildInParent && peakMemoryKibibytes == 0
      ensures EndsTracked()
    {
      closedChildInParent, peakMemoryKibibytes := false, 0;
      childCloses, parentCloses := 0, 0;
    }

    /** The flag says whether the write end is still to be closed; the read end always is. */
    ghost predicate EndsTracked()
      reads this
    {
      parentCloses == 0 && childCloses == if closedChildInParent then 1 else 0
    }

    method OnPostCloneParent(answer: Answer<nat>) returns (error: Option<IoError>)
      modifies this`closedChildInParent, this`childCloses
      ensures error == if answer.Ok? then None else Some(answer.error)
      ensures closedChildInParent == (old(closedChildInParent) || answer.Ok?)
      ensures old(EndsTracked() && !closedChildInParent) ==> EndsTracked()
    {
      if answer.Err? {
        return Some(answer.error);
      }
      childCloses := childCloses + 1;
      closedChildInParent := true;
      error := None;
    }

    method OnWakeup(settings: Settings, sample: Sample, data: ExecutionResult) returns (r: WakeupAction)
      modifies this`peakMemoryKibibytes, data
      ensures forall history :: old(peakMemoryKibibytes) == PeakOf(history) ==>
                peakMemoryKibibytes == PeakOf(history + [sample])
      ensures peakMemoryKibibytes >= old(peakMemoryKibibytes)
      ensures sample.pipeClosed && sample.vmPeak.Some? ==> peakMemoryKibibytes >= sample.vmPeak.value
      ensures peakMemoryKibibytes == old(peakMemoryKibibytes) ||
              (sample.pipeClosed && sample.vmPeak == Some(peakMemoryKibibytes))
      ensures var found := if sample.pipeClosed then MemoryViolation(settings, peakMemoryKibibytes) else OK;
              && r == Vote(found)
              && data.View() == old(data.View()).(exitStatus := Sticky(old(data.exitStatus), found))
    {
      r := Continue;
      ghost var before := peakMemoryKibibytes;
      if sample.pipeClosed {
        if sample.vmPeak.GetOr(0) > peakMemoryKibibytes {
          peakMemoryKibibytes := sample.vmPeak.GetOr(0);
        }
        if settings.memoryLimitKibibytes.Some? && peakMemoryKibibytes > settings.memoryLimitKibibytes.value {
          data.SetExitStatus(MLE("memory limit exceeded"));
          r := Kill;
        }
      }
      forall history | before == PeakOf(history)
        ensures peakMemoryKibibytes == PeakOf(history + [sample])
      {
        assert (history + [sample])[..|history|] == history;
      }
    }

    method OnPostExecute(settings: Settings, data: ExecutionResult)
      modifies data
      ensures data.View() == old(data.View()).(
                exitStatus := Sticky(old(data.exitStatus), MemoryViolation(settings, peakMemoryKibibytes)),
                memoryUsageKibibytes := Some(peakMemoryKibibytes))
    {
      data.SetMemoryUsageKibibytes(peakMemoryKibibytes);
      if settings.memoryLimitKibibytes.Some? && peakMemoryKibibytes > settings.memoryLimitKibibytes.value {
        data.SetExitStatus(MLE("memory limit exceeded"));
      }
    }

    /** Whether or not its parent hook was ever reached, a listener that goes out of existence
        has closed each end of its pipe exactly once. */
    method Drop()
      requires EndsTracked()
      modifies this
      ensures childCloses == 1 && parentCloses == 1
    {
      if !closedChildInParent {
        childCloses := childCloses + 1;
      }
      parentCloses := parentCloses + 1;
    }
  }
}
