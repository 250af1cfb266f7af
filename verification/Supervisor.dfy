/**
 The sequential half of src/process/child.rs: `ChildInternals::run`, driven by arbitrary
 answers from the kernel, against the log of Verdicts.
 */
module Supervision {
  import opened ExecutionResults
  import opened Verdicts
  import opened Listeners
  import opened Timeouts

  class ChildInternals {
    const settings: Settings
    const kinds: seq<Kind> // the context's list of listeners, in order
    const data: ExecutionResult
    const perf: PerfListener
    const time: TimeListener
    const memory: MemoryListener

    constructor (settings: Settings, features: set<Feature>)
      ensures this.settings == settings && kinds == ListenersFor(features)
      ensures Fresh()
      ensures fresh(data) && fresh(perf) && fresh(time) && fresh(memory)
    {
      this.settings, kinds := settings, ListenersFor(features);
      data := new ExecutionResult();
      perf := new PerfListener();
      time := new TimeListener();
      memory := new MemoryListener();
    }

    /** Nothing has been run yet. */
    ghost predicate Fresh()
      reads data, memory
    {
      && Distinct(kinds)
      && data.View() == EMPTY_REPORT
      && memory.peakMemoryKibibytes == 0 && !memory.closedChildInParent && memory.EndsTracked()
    }

    /** The listeners before position i have been started. */
    ghost predicate Started(script: Script, i: nat)
      requires Answers(script, kinds) && i <= |kinds|
      reads perf, time
    {
      && Distinct(kinds)
      && forall l :: 0 <= l < i ==>
           && script.starts[l].Ok?
           && (kinds[l] == Perf ==> perf.perfFd.Some?)
           && (kinds[l] == Time ==> time.realTimeStart == Some(script.starts[l].value) &&
                                    time.timeLimitSet == TimeLimitSet(settings))
    }

    /** The memory listener has seen r rounds, and one more if it comes before position i. */
    ghost predicate PeakTracked(script: Script, r: nat, i: nat)
      requires Answers(script, kinds) && r <= |script.rounds| && (i > 0 ==> r < |script.rounds|)
      reads memory
    {
      forall l :: 0 <= l < |kinds| && kinds[l] == Memory ==>
        memory.peakMemoryKibibytes == PeakOf(History(script, kinds, l, if l < i then r + 1 else r))
    }

    /** The report so far carries nothing but the first violation of the log. */
    ghost predicate Recorded(log: seq<ExitStatus>)
      reads data
    {
      data.View() == EMPTY_REPORT.(exitStatus := FirstNonOk(log))
    }

    /** The state of the run between rounds. */
    ghost predicate Watching(script: Script, r: nat)
      requires Answers(script, kinds) && r <= |script.rounds|
      reads data, perf, time, memory
    {
      && Started(script, |kinds|)
      && PeakTracked(script, r, 0)
      && Recorded(WakeupLog(settings, kinds, script, r))
    }

    /** The state of the run when it is about to wake listener i in round r. */
    ghost predicate Waking(script: Script, r: nat, i: nat)
      requires Answers(script, kinds) && r < |script.rounds| && i <= |kinds|
      reads data, perf, time, memory
    {
      && Started(script, |kinds|)
      && PeakTracked(script, r, i)
      && Recorded(LogAt(settings, kinds, script, r, i))
    }

    /** Each end of the memory listener's pipe is closed when it should be, if only the first i
        listeners have been started. */
    ghost predicate EndsKept(i: nat)
      requires i <= |kinds|
      reads memory
    {
      memory.EndsTracked() && (memory.closedChildInParent ==> exists l :: 0 <= l < i && kinds[l] == Memory)
    }

    method Start(script: Script) returns (error: Option<IoError>, requiresTimeout: bool)
      requires Answers(script, kinds) && Fresh()
      modifies perf, time, memory
      ensures error == FirstError(StartErrors(script))
      ensures memory.EndsTracked()
      ensures error.None? ==> Watching(script, 0)
      ensures error.None? ==> requiresTimeout == Periodic(settings, kinds)
    {
      requiresTimeout := false;
      ghost var outcomes := StartErrors(script);
      for i := 0 to |kinds|
        invariant memory.peakMemoryKibibytes == 0
        invariant Started(script, i) && EndsKept(i)
        invariant requiresTimeout == exists l :: 0 <= l < i && RequiresTimeout(settings, kinds[l])
      {
        error := StartOne(script, i);
        if error.Some? {
          FailsAt(outcomes, i);
          return;
        }
        requiresTimeout := requiresTimeout || RequiresTimeout(settings, kinds[i]);
      }
      AllSucceed(outcomes);
      error := None;
    }

    method StartOne(script: Script, i: nat) returns (error: Option<IoError>)
      requires Answers(script, kinds) && i < |kinds| && Started(script, i) && EndsKept(i)
      modifies perf, time, memory`closedChildInParent, memory`childCloses
      ensures error == StartErrors(script)[i]
      ensures memory.EndsTracked()
      ensures error.None? ==> Started(script, i + 1) && EndsKept(i + 1)
    {
      error := None;
      var answer := script.starts[i];
      match kinds[i] {
        case Perf => error := perf.OnPostCloneParent(answer);
        case Time =>
          time.OnPostCloneParent(settings, answer.value);
        case Memory => error := memory.OnPostCloneParent(answer);
        case Ptrace => error := if answer.Ok? then None else Some(answer.error);
      }
    }

    /** One of the first i listeners votes Kill in round r. */
    ghost predicate KillAmong(script: Script, r: nat, i: nat)
      requires Answers(script, kinds) && r < |script.rounds| && i <= |kinds|
    {
      exists l :: 0 <= l < i && WakeupEntry(settings, kinds, script, l, r) != OK
    }

    lemma KillAmongNext(script: Script, r: nat, i: nat)
      requires Answers(script, kinds) && r < |script.rounds| && i < |kinds|
      ensures KillAmong(script, r, i + 1) <==>
              KillAmong(script, r, i) || WakeupEntry(settings, kinds, script, i, r) != OK
    {}

    /** Wakes the listeners in order and combines their votes. */
    method WakeAll(script: Script, r: nat) returns (error: Option<IoError>, action: WakeupAction)
      requires Answers(script, kinds) && r < |script.rounds| && Watching(script, r)
      modifies data, memory`peakMemoryKibibytes
      ensures error == FirstError(WakeupErrors(settings, kinds, script, r))
      ensures error.Some? ==>
                Recorded(LogAt(settings, kinds, script, r, SucceedFirst(WakeupErrors(settings, kinds, script, r))))
      ensures error.None? ==> Watching(script, r + 1)
      ensures error.None? ==> (action == Kill <==> SomeKill(settings, kinds, script, r))
    {
      action := Continue;
      LogNextRound(settings, kinds, script, r);
      ghost var outcomes := WakeupErrors(settings, kinds, script, r);
      for i := 0 to |kinds|
        invariant Waking(script, r, i)
        invariant forall l :: 0 <= l < i ==> outcomes[l].None?
        invariant action == Kill <==> KillAmong(script, r, i)
      {
        var answer := WakeOne(script, r, i);
        if answer.Err? {
          FailsAt(outcomes, i);
          return Some(answer.error), action;
        }
        action := action.Combine(answer.value);
        KillAmongNext(script, r, i);
      }
      AllSucceed(outcomes);
      error := None;
    }

    method WakeOne(script: Script, r: nat, i: nat) returns (answer: Answer<WakeupAction>)
      requires Answers(script, kinds) && r < |script.rounds| && i < |kinds| && Waking(script, r, i)
      modifies data, memory`peakMemoryKibibytes
      ensures WakeupError(settings, kinds[i], script.rounds[r].samples[i]) ==
              if answer.Ok? then None else Some(answer.error)
      ensures answer.Ok? ==> answer.value == Vote(WakeupEntry(settings, kinds, script, i, r))
      ensures if answer.Ok? then Waking(script, r, i + 1) else Recorded(LogAt(settings, kinds, script, r, i))
    {
      var sample := script.rounds[r].samples[i];
      LogNext(settings, kinds, script, r, i);
      HistoryNext(script, kinds, i, r);
      match kinds[i] {
        case Perf => answer := perf.OnWakeup(settings, sample, data);
        case Time => answer := time.OnWakeup(settings, sample, script.ticksPerSecond, data);
        case Memory =>
          var action := memory.OnWakeup(settings, sample, data);
          answer := Ok(action);
        case Ptrace => answer := Ok(Continue);
      }
    }

    /** The child has ended and the first i listeners have been read for the last time. */
    ghost predicate Finishing(script: Script, i: nat)
      requires Answers(script, kinds) && i <= |kinds|
      reads data, perf, time, memory
    {
      && Started(script, |kinds|)
      && PeakTracked(script, |script.rounds|, 0)
      && data.View() == ReportAt(settings, kinds, script, i)
    }

    /** The state of the run after r rounds. */
    ghost predicate AfterRounds(script: Script, r: nat, ended: bool)
      requires Answers(script, kinds) && r <= |script.rounds|
      reads data, perf, time, memory
    {
      if ended then Finishing(script, 0) else Watching(script, r)
    }

    /** The body of the supervision loop. `killed` says whether it sent the kill signal,
        `ended` whether it leaves the loop. */
    method WatchRound(script: Script, r: nat) returns (error: Option<IoError>, killed: bool, ended: bool)
      requires Answers(script, kinds) && r < |script.rounds| && Watching(script, r)
      modifies data, memory`peakMemoryKibibytes
      ensures error == RoundError(settings, kinds, script, r)
      ensures error.Some? ==>
                Recorded(LogAt(settings, kinds, script, r, SucceedFirst(WakeupErrors(settings, kinds, script, r))))
      ensures killed == SendsKill(settings, kinds, script, r)
      ensures error.None? ==> ended == (r == |script.rounds| - 1) && AfterRounds(script, r + 1, ended)
    {
      killed, ended := false, false;
      var round := script.rounds[r];
      var action;
      error, action := WakeAll(script, r);
      if error.Some? {
        return;
      }
      FirstErrorMeaning(WakeupErrors(settings, kinds, script, r));
      LogNextRound(settings, kinds, script, r);
      if action == Kill {
        if round.killError.Some? {
          return round.killError, killed, ended;
        }
        killed := true;
      }
      error, ended := Wait(script, r);
    }

    /** Tells every listener, in order, what the wait has reported. */
    method Notify(round: Round) returns (error: Option<IoError>)
      requires |round.events| == |kinds|
      ensures error == FirstError(round.events)
    {
      for l := 0 to |kinds|
        invariant forall m :: 0 <= m < l ==> round.events[m].None?
      {
        if round.events[l].Some? {
          FailsAt(round.events, l);
          return round.events[l];
        }
      }
      AllSucceed(round.events);
      error := None;
    }

    /** Waits for the child and deals with what the wait reports. */
    method Wait(script: Script, r: nat) returns (error: Option<IoError>, ended: bool)
      requires Answers(script, kinds) && r < |script.rounds| && Watching(script, r + 1)
      modifies data
      ensures error == WaitError(script.rounds[r])
      ensures error.Some? ==> data.View() == old(data.View())
      ensures error.None? ==> ended == (r == |script.rounds| - 1)
      ensures error.None? && !ended ==> Watching(script, r + 1)
      ensures error.None? && ended ==> Finishing(script, 0)
    {
      error, ended := None, false;
      var round := script.rounds[r];
      if round.wait.Interrupted? {
        return;
      }
      if round.wait.WaitFailed? {
        return Some(round.wait.error), ended;
      }
      if round.childError.Some? {
        return round.childError, ended;
      }
      error := Notify(round);
      if error.Some? {
        return;
      }
      match round.wait {
        case ChildExited(status) =>
          data.SetExitReason(Exited(status));
          ended := true;
        case ChildSignaled(signal) =>
          data.SetExitReason(Killed(signal));
          ended := true;
        case ChildStopped =>
      }
      ReportStart(settings, kinds, script);
    }

    /** How the loop will end is decided in round r or later. */
    ghost predicate Undecided(script: Script, r: nat)
      requires Answers(script, kinds) && r <= |script.rounds|
    {
      && LoopError(settings, kinds, script, 0) == LoopError(settings, kinds, script, r)
      && LogReached(settings, kinds, script, 0) == LogReached(settings, kinds, script, r)
      && RoundsFrom(settings, kinds, script, 0) == RoundsFrom(settings, kinds, script, r)
    }

    lemma UndecidedNext(script: Script, r: nat)
      requires Answers(script, kinds) && r < |script.rounds| && Undecided(script, r)
      ensures if RoundError(settings, kinds, script, r).None? then Undecided(script, r + 1)
              else
                && LoopError(settings, kinds, script, 0) == RoundError(settings, kinds, script, r)
                && RoundsFrom(settings, kinds, script, 0) == r + 1
                && LogReached(settings, kinds, script, 0) ==
                   LogAt(settings, kinds, script, r, SucceedFirst(WakeupErrors(settings, kinds, script, r)))
    {}

    ghost predicate Called(script: Script, kills: seq<bool>)
      requires Answers(script, kinds) && |kills| <= |script.rounds|
    {
      forall r :: 0 <= r < |kills| ==> kills[r] == SendsKill(settings, kinds, script, r)
    }

    lemma CalledNext(script: Script, kills: seq<bool>, killed: bool)
      requires Answers(script, kinds) && |kills| < |script.rounds| && Called(script, kills)
      requires killed == SendsKill(settings, kinds, script, |kills|)
      ensures Called(script, kills + [killed])
    {}

    /** The supervision loop. `kills[r]` says whether round r sent the kill signal. */
    method Watch(script: Script) returns (error: Option<IoError>, kills: seq<bool>)
      requires Answers(script, kinds) && Watching(script, 0)
      modifies data, memory`peakMemoryKibibytes
      ensures error == LoopError(settings, kinds, script, 0)
      ensures |kills| == RoundsFrom(settings, kinds, script, 0) && Called(script, kills)
      ensures if error.None? then Finishing(script, 0) else Recorded(LogReached(settings, kinds, script, 0))
    {
      kills := [];
      var ended, r := false, 0;
      while !ended
        invariant r == |kills| <= |script.rounds| && ended == (r == |script.rounds|)
        invariant AfterRounds(script, r, ended)
        invariant Undecided(script, r)
        invariant Called(script, kills)
        decreases |script.rounds| - r
      {
        var killed;
        error, killed, ended := WatchRound(script, r);
        CalledNext(script, kills, killed);
        UndecidedNext(script, r);
        kills, r := kills + [killed], r + 1;
        if error.Some? {
          return;
        }
      }
      error := None;
    }

    method Finish(script: Script) returns (error: Option<IoError>)
      requires Answers(script, kinds) && Finishing(script, 0)
      modifies data
      ensures error == FirstError(FinalErrors(kinds, script))
      ensures data.View() == ReportAt(settings, kinds, script, SucceedFirst(FinalErrors(kinds, script)))
    {
      ghost var outcomes := FinalErrors(kinds, script);
      for i := 0 to |kinds|
        invariant Finishing(script, i)
        invariant forall l :: 0 <= l < i ==> outcomes[l].None?
      {
        error := FinishOne(script, i);
        if error.Some? {
          FailsAt(outcomes, i);
          return;
        }
      }
      AllSucceed(outcomes);
      error := None;
    }

    method FinishOne(script: Script, i: nat) returns (error: Option<IoError>)
      requires Answers(script, kinds) && i < |kinds| && Finishing(script, i)
      modifies data
      ensures error == FinalError(kinds[i], script.finals[i])
      ensures if error.None? then Finishing(script, i + 1) else Finishing(script, i)
    {
      error := None;
      RunLogNext(settings, kinds, script, i);
      assert kinds[..i + 1][..i] == kinds[..i];
      match kinds[i] {
        case Perf => error := perf.OnPostExecute(settings, script.finals[i], data);
        case Time => error := time.OnPostExecute(settings, script.finals[i], script.ticksPerSecond, data);
        case Memory => memory.OnPostExecute(settings, data);
        case Ptrace =>
      }
    }

    /** `ChildInternals::run`, called by thread t. */
    method Run(script: Script, threads: TimeoutThreads, t: nat) returns (error: Option<IoError>, kills: seq<bool>)
      requires Answers(script, kinds) && Fresh() && threads.Valid()
      modifies data, perf, time, memory, threads
      ensures error == RunError(settings, kinds, script)
      ensures data.View() == ReportReached(settings, kinds, script)
      ensures memory.EndsTracked()
      ensures KillsOf(settings, kinds, script, kills)
      ensures threads.Valid() && threads.registered == RegisteredAfter(settings, kinds, script, t, old(threads.registered))
    {
      kills := [];
      if script.errorBefore.Some? {
        return script.errorBefore, kills;
      }
      var requiresTimeout;
      error, requiresTimeout := Start(script);
      if error.Some? {
        return;
      }
      if requiresTimeout {
        threads.AddTimeoutThread(t);
      }
      error, kills := Watch(script);
      if error.Some? {
        return;
      }
      if requiresTimeout {
        var present := threads.RemoveTimeoutThread(t);
        assert present;
      }
      error := Finish(script);
      if error.Some? {
        return;
      }
      error := script.errorAfter;
    }
  }

  /** What the one call that runs the child returns. */
  function RunResult(settings: Settings, kinds: seq<Kind>, script: Script): Answer<Report>
    requires Answers(script, kinds)
  {
    var error := RunError(settings, kinds, script);
    if error.Some? then Err(error.value) else Ok(ReportOf(settings, kinds, script))
  }

  /** What is done with the pid of a child. */
  datatype PidUse = KillSignal | ReapingWait

  /** The JailedChild, whose calls of `run` follow one another: its lock is held throughout. */
  class JailedChild {
    const internals: ChildInternals
    var runError: Option<IoError>
    var reapable: bool
    var runOnce: bool
    ghost var pidUses: seq<PidUse> // besides those inside the body of the run

    constructor (settings: Settings, features: set<Feature>)
      ensures Valid() && !runOnce && pidUses == []
      ensures internals.settings == settings && internals.kinds == ListenersFor(features)
      ensures fresh(internals) && fresh(internals.data)
      ensures fresh(internals.perf) && fresh(internals.time) && fresh(internals.memory)
    {
      internals := new ChildInternals(settings, features);
      runError, reapable, runOnce := None, true, false;
      pidUses := [];
    }

    ghost predicate Valid()
      reads this, internals.data, internals.memory
    {
      && reapable == !runOnce
      && internals.memory.EndsTracked()
      && (!runOnce ==> runError.None? && internals.Fresh())
      && ReapedLast()
    }

    /** The child is reaped if and only if it has been run, and nobody uses its pid after that. */
    ghost predicate ReapedLast()
      reads this
    {
      forall i :: 0 <= i < |pidUses| ==> (pidUses[i] == ReapingWait <==> runOnce && i == |pidUses| - 1)
    }

    /** What a call of `run` returns once the child has been run. */
    ghost function NextResult(): Answer<Report>
      reads this, internals.data
    {
      if runError.Some? then Err(runError.value) else Ok(internals.data.View())
    }

    method RunSavingResult(script: Script, threads: TimeoutThreads, t: nat)
      requires Valid() && !runOnce && Answers(script, internals.kinds) && threads.Valid()
      modifies this, internals.data, internals.perf, internals.time, internals.memory, threads
      ensures NextResult() == RunResult(internals.settings, internals.kinds, script)
      ensures internals.data.View() == ReportReached(internals.settings, internals.kinds, script)
      ensures internals.memory.EndsTracked()
      ensures !reapable && !runOnce && pidUses == old(pidUses) + [KillSignal, ReapingWait]
      ensures threads.Valid() && threads.registered ==
              RegisteredAfter(internals.settings, internals.kinds, script, t, old(threads.registered))
    {
      RunErrorMeaning(internals.settings, internals.kinds, script);
      var error, _ := internals.Run(script, threads, t);
      if error.Some? {
        runError := error;
      } else {
        ReportReachedAtEnd(internals.settings, internals.kinds, script);
      }
      pidUses := pidUses + [KillSignal];
      reapable := false;
      pidUses := pidUses + [ReapingWait];
    }

    /** The first call runs the child; no later call does so again. The call after this one
        returns the same exactly if this one has no error to hand out, which the caller of the
        first call can tell from the calls that the run makes. */
    method Run(script: Script, threads: TimeoutThreads, t: nat) returns (result: Answer<Report>)
      requires Valid() && Answers(script, internals.kinds) && threads.Valid()
      modifies this, internals.data, internals.perf, internals.time, internals.memory, threads
      ensures Valid() && runOnce
      ensures result == if old(runOnce) then old(NextResult())
                        else RunResult(internals.settings, internals.kinds, script)
      ensures internals.data.View() == if old(runOnce) then old(internals.data.View())
                                       else ReportReached(internals.settings, internals.kinds, script)
      ensures NextResult() == Ok(internals.data.View())
      ensures NextResult() == result <==>
              if old(runOnce) then old(runError).None?
              else ErrorFree(internals.settings, internals.kinds, script)
      ensures pidUses == old(pidUses) + if old(runOnce) then [] else [KillSignal, ReapingWait]
      ensures threads.Valid()
      ensures threads.registered == if old(runOnce) then old(threads.registered)
                                    else RegisteredAfter(internals.settings, internals.kinds, script, t,
                                                         old(threads.registered))
    {
      RunErrorMeaning(internals.settings, internals.kinds, script);
      if !runOnce {
        RunSavingResult(script, threads, t);
        runOnce := true;
      }
      if runError.Some? {
        result := Err(runError.value);
        runError := None;
      } else {
        result := Ok(internals.data.View());
      }
    }

    /** Sends the kill signal, to which the kernel gives the answer, unless the child has been
        run already and its pid may be somebody else's. */
    method Kill(answer: Option<IoError>) returns (error: Option<IoError>)
      requires Valid()
      modifies this`pidUses
      ensures Valid()
      ensures pidUses == old(pidUses) + if runOnce then [] else [KillSignal]
      ensures error == if runOnce then None else answer
    {
      error := None;
      if reapable {
        pidUses := pidUses + [KillSignal];
        error := answer;
      }
    }

    /** When the handle goes out of existence, its memory listener has closed each end of its
        pipe exactly once, whatever calls came before. */
    method Drop()
      requires Valid()
      modifies internals.memory
      ensures internals.memory.childCloses == 1 && internals.memory.parentCloses == 1
    {
      internals.memory.Drop();
    }
  }

  /** A run that finds an error of the child before it starts. */
  const FAILING_SCRIPT :=
    Script(1, Some(1), [], [Round([], None, ChildExited(0), None, [])], [], None)

  lemma FailingScriptFails(settings: Settings)
    ensures Answers(FAILING_SCRIPT, [])
    ensures !ErrorFree(settings, [], FAILING_SCRIPT)
    ensures RunResult(settings, [], FAILING_SCRIPT) == Err(1)
    ensures ReportReached(settings, [], FAILING_SCRIPT) == EMPTY_REPORT
  {
    assert FAILING_SCRIPT.rounds[0].wait == ChildExited(0);
  }

  /** With that script the first call of `run` returns the error, and the second one the report
      of a child that has done nothing wrong. */
  method ErrorIsHandedOutOnce(settings: Settings) returns (first: Answer<Report>, second: Answer<Report>)
    ensures first == Err(1) && second == Ok(EMPTY_REPORT)
  {
    FailingScriptFails(settings);
    var threads := new TimeoutThreads();
    var child := new JailedChild(settings, {});
    first := child.Run(FAILING_SCRIPT, threads, 0);
    second := child.Run(FAILING_SCRIPT, threads, 0);
  }
}
