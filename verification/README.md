# Verification of perfjail

perfjail runs a program in a child process, measures it, and stops it when it exceeds a limit.
This project is a Dafny model of its two hardest parts, with proofs. `dafny verify dfyconfig.toml`
checks everything.

**The benchmark solver `tests/bud.cpp`.** Given an n × n grid of free and blocked cells, it finds
the greatest k for which one, or two disjoint, straight free segments of k cells fit. `Grid.dfy`
states the puzzle without the algorithm, `Counting.dfy` holds the counting argument, and `Bud.dfy`
is the program itself, loop by loop, on a mutable two-dimensional array and with 32-bit variables.

**The supervisor (`src/`).**

- `Measures.dfy` is the 64-bit arithmetic between instructions, milliseconds, clock ticks and limits.
- `ExecutionResult.dfy` and `Listeners.dfy` are the objects that the supervisor updates.
- `Verdict.dfy` says what a run must report and which error it must return. It is stated on the
  answers that the kernel and the clock give to the run (a `Script`), and does not mention how the
  supervisor works. The exit status is the first entry that is not OK of one ordered log.
- `Supervisor.dfy` is `JailedChild` and `ChildInternals` as classes, proved against `Verdict.dfy`
  for every list of listeners and every script. `VerdictTheorems.dfy` says what that means for
  whoever set the limits, and `VerdictMeaning.dfy` restates the specification on the bare answers
  (counts, ticks, limits, exit codes and errors), without any function that the classes share with it.
- `Protocol.dfy` is the concurrency of `child.rs` and `timeout.rs` as a transition system: any
  number of threads that call `run` and `kill` on any number of children, the children, and the
  ticker thread. `ProtocolInvariant.dfy` and `ProtocolSafety.dfy` prove its inductive invariant, and
  `ProtocolTheorems.dfy` draws the consequences for every reachable state and every run.
  `ProtocolMeaning.dfy` ties the history that the model keeps of a child to the steps taken.
- `Timeout.dfy` is `timeout.rs` as a class, and shows that each of its functions does, alone, what
  the steps of `Protocol.dfy` do one at a time.
- `Refinement.dfy` and `RefinementProof.dfy` join the two halves. They compare a whole run of
  `Protocol.dfy`, with everything that other threads and children do in it, with a script that tells
  the truth about each step of the thread that supervises one child, and show that this thread comes
  to the end that `Verdict.dfy` has for the script, as `Supervisor.dfy` does. `QuietRun.dfy` is one such
  run and script.
- `ProtocolRuns.dfy` holds two concrete runs in which something unexpected happens.

The step functions of `Protocol.dfy` follow the source as follows: `LockingStep` and the last case
of `CleanStep` are `src/process/child.rs:95-105`; `HookStep` and `HookOne` are `child.rs:158-164`
with the parent hooks of the four listeners; `AttachStep` is the rest of `ptrace.rs:33-42`;
`GateStep` is `child.rs:168`; `WatchStep` is `child.rs:170-224`; `FinishStep` is `child.rs:226-235`;
`CleanStep` is `child.rs:143-154`; `KillStep` is `child.rs:126-134`; `RegistryStep` is
`timeout.rs:14-48`; `TickStep` is `timeout.rs:19-26`; `ChildEventStep` is `jail.rs:557-576`,
`child.rs:277-307`, the barrier at `jail.rs:588`, and what the kernel does to a process; `AfterClone`
is the `clone` of `child.rs:252-258`, which copies every open descriptor into the new child. A step
is what a thread does between two points where another may interfere. Each step that uses the child's
pid goes through `UsePid` or `SendKill`, which record whether the child had been reaped by then.

Four properties that one would expect hold only under a condition.

- *The reported memory is the maximum of the VmPeak samples taken after exec, and the memory limit is
  enforced.* The listener samples only once its pipe is at end of file. `clone`
  (`src/process/child.rs:252-258`) copies descriptors, so a second child that is spawned before the
  first one's `run` holds the first one's pipe open while it waits at its own gate. After
  `a.spawn(); b.spawn(); a.run()` child `a` executes and ends without a single sample:
  `ExecutingUnseen` and `WholeRunUnseen` are that run, and `NeverAtEndOfFile` says what it reports.
  `ExecutingMemorySeenExactly` is the condition, for every run: while a child executes, its samples
  count if and only if every child cloned between the making of its memory listener and the success of
  that listener's parent hook has called exec or has ended.
- *The pid is never used after the child was reaped.* The ptrace listener's `waitpid`
  (`src/listener/ptrace.rs:37`) has no `WNOWAIT`, and reaps a child that was killed just before.
  `KillDuringAttachMisusesPid` is a run in which that happens. `PidMisusedExactly` is the condition, for
  every run: the pid is misused if and only if that wait has found the child dead, and so never
  without a ptrace listener.
- *`run` keeps its return value* (`src/process/child.rs:76-78`). The error is handed out once
  (`child.rs:100`), so a later call returns a report instead. `ErrorIsHandedOutOnce` shows it, with a
  second call that reports a child which has done nothing wrong. `JailedChild.Run` has the condition:
  the second call agrees with the first if and only if no call that the run makes fails.
- *An unflagged run reports a measured time within the measured time limit.* The report wraps for
  counts above (2^63 - 1) / 1000. `MeasuredWithinLimitIff` shows that it holds if and only if the
  stored instruction limit is at most that, which is a time limit of at most 4611686018 ms (as long as
  the limit itself does not wrap), or the time limit is at least 2^64 ms, which no report exceeds;
  `OkRunMeasuredTimeBeyondLimit` is a run that breaks every other limit.

## Model

| member | source | states |
|---|---|---|
| Bud.Possible | tests/bud.cpp:41-79 | `possible(k)` is true exactly if two free straight segments of k cells exist that share no cell, on every grid and for every k of at least 1, also a k greater than n |
| Bud.ScanHorizontally | tests/bud.cpp:42-60 | the horizontal scan answers exactly whether two horizontal segments fit; if it completes, it has counted every free horizontal segment once and left in V a difference array whose prefix sums are the coverage counts |
| Bud.ScanRow | tests/bud.cpp:47-59 | one row of the scan keeps the earliest segment and the count right, and changes no other row of V |
| Bud.VisitCell | tests/bud.cpp:50-58 | one cell of the scan either finds a real pair of disjoint segments or keeps everything the scan knows |
| Bud.MarkSegment | tests/bud.cpp:57 | the two updates of the difference array raise the coverage of exactly the cells of one more segment |
| Bud.PartialSums | tests/bud.cpp:62-63 | in place, each cell becomes the sum of its original row up to it |
| Bud.ScanVertically | tests/bud.cpp:65-76 | given the coverage counts, the vertical scan answers exactly whether two vertical segments, or one of each direction, fit |
| Bud.EarliestStep | tests/bud.cpp:53 | the lexicographic comparison with the running minimum succeeds only if two disjoint parallel segments exist, and otherwise all segments seen so far still overlap pairwise |
| Bud.EarliestEnd | tests/bud.cpp:46-60 | a scan that ends without success has shown that no two parallel segments of its direction are disjoint |
| Bud.ColumnStateNext | tests/bud.cpp:69-75 | each of the two tests for a vertical segment succeeds only if the pair it stands for exists, and the loop's knowledge survives otherwise |
| Bud.TwoFitByKind | tests/bud.cpp:41-79 | two disjoint segments fit exactly if two horizontal, two vertical, or one of each fit |
| Bud.CrossFits | tests/bud.cpp:72-74 | a horizontal and a vertical segment fit together exactly if some vertical one does not meet all horizontal ones |
| Counting.ThroughNext | tests/bud.cpp:57 | a segment that ends in column j adds one to the coverage of the k cells up to j and of no others |
| Counting.PrefixSumUpdate | tests/bud.cpp:57-63 | changing one entry of the difference array changes exactly the prefix sums from there on |
| Counting.SlideWindow | tests/bud.cpp:70 | the running sum, updated by one entering and one leaving row, stays the number of horizontal segments that cross the window of k rows |
| Counting.WindowIsMet | tests/bud.cpp:70-73 | the window of k rows ending at row j holds exactly the horizontal segments that a vertical segment ending there meets |
| Counting.SomeHorizontalMissed | tests/bud.cpp:73 | fewer met than there are, exactly if some horizontal segment is disjoint from the vertical one |
| Grids.FreeByRun | tests/bud.cpp:50-52 | the running counter is at least k exactly if the segment of k cells that ends here is free |
| Grids.SegmentHasKCells | tests/bud.cpp:52 | a segment of length k has exactly k cells |
| Grids.TwoFitMonotone | tests/bud.cpp:82-91 | if two disjoint segments of k cells fit, so do two of any smaller length: the ground for the binary search |
| Bud.LongestRun | tests/bud.cpp:24-39 | for m = 1 the result is the greatest length of a free segment |
| Bud.LongestPair | tests/bud.cpp:80-93 | for m = 2 the result is the greatest length for which two disjoint free segments fit, after at most ⌈log2(n + 1)⌉ calls of `possible` in the loop |
| Bud.CeilLog2Meaning | tests/bud.cpp:84-91 | that bound is the least e with 2^e at least n + 1 |
| Bud.Solve | tests/bud.cpp:24-94 | the printed number is the greatest length that fits, for every m |
| Measures.MeasuredExactly | src/process/execution_result.rs:141-146 | the reported milliseconds are the instruction count divided by two million exactly up to a count of (2^63 - 1) / 1000, and wrong for every greater one |
| Measures.MeasuredWraps | src/process/execution_result.rs:144 | the first count for which the report is wrong, and what it then is |
| Measures.MeasuredInNanos | src/process/execution_result.rs:141-146 | the measured time is half the instruction count in nanoseconds, rounded down to a whole millisecond |
| Measures.LimitExactly | src/process/jail.rs:501-506 | the stored instruction limit is the time limit at two million per millisecond exactly up to (2^63 - 1) / 2000000 ms |
| Measures.LimitInNanos | src/process/jail.rs:501-506 | the stored limit is twice the duration in nanoseconds, rounded down by less than a millisecond's worth of instructions, exactly for durations below 4611686018428 ms |
| Measures.LimitDecidesTime | src/listener/perf.rs:77 | in these ranges the measured time is below the limit exactly if the count is, an unflagged run never reports more than the limit, and a flagged one never less |
| Measures.MeasuredWithinLimitIff | src/process/jail.rs:501-506 | for every duration: each count that the stored limit lets through is reported within the time limit, exactly if the stored limit is at most (2^63 - 1) / 1000 or the duration is at least 2^64 ms; for limits that do not wrap the bound is 4611686018 ms |
| Measures.TicksExactly | src/listener/time.rs:145-148 | the tick conversion rounds down to a microsecond exactly while ticks * 10^6 fits in 64 bits |
| Measures.SumOfTicks | src/listener/time.rs:145-148 | rounding user and system time separately loses less than two microseconds in total |
| Measures.SumWithinLimitNotFlagged | src/listener/time.rs:122-123 | a sum of user and system time that is exactly within the limit is never flagged because of the rounding |
| ExecutionResults.ExecutionResult.SetExitStatus | src/process/execution_result.rs:111-115 | the first status that is not OK sticks, and no other field changes |
| ExecutionResults.ExecutionResult.SetExitReason | src/process/execution_result.rs:117-127 | the reason is stored, and a failure becomes a runtime error only if nothing was wrong before |
| ExecutionResults.FirstNonOkNext | src/process/execution_result.rs:111-115 | writing stickily is the same as appending to a log and taking its first entry that is not OK |
| ExecutionResults.FirstNonOkMeaning | src/process/execution_result.rs:111-115 | that entry is OK exactly if all are, and otherwise is one of them |
| ExecutionResults.DecimalMeaning | src/process/execution_result.rs:122-125 | the number in a comment is written as its decimal numeral, which reads back as that number |
| Verdicts.ListenersFor | src/process/jail.rs:558-570 | each feature brings its listeners, no listener comes twice, and ptrace comes exactly with memory measurement |
| Verdicts.PeakIsMaximum | src/listener/memory.rs:59-63 | the tracked peak is at least every VmPeak read with the pipe at end of file, and is one of them, or 0 |
| Verdicts.PeakNeverDecreases | src/listener/memory.rs:59-63 | the peak after more samples is never smaller |
| Verdicts.RunErrorMeaning | src/process/child.rs:158-236 | the error a run returns is none exactly if none of its calls fails |
| Verdicts.ReportReachedAtEnd | src/process/child.rs:158-236 | what the result holds after a run is, if the run has no error, the report of its whole log |
| Verdicts.KillsWithoutErrors | src/process/child.rs:170-180 | in a run without errors every round is begun, and the kill signal is sent in exactly those in which a listener votes for it |
| Listeners.PerfListener.OnWakeup | src/listener/perf.rs:69-87 | votes Kill exactly if the count exceeds the limit, records that stickily, and fails only if there is a limit and the counter cannot be read |
| Listeners.PerfListener.OnPostExecute | src/listener/perf.rs:98-110 | records the final count, the time it stands for, and a violation if there is one |
| Listeners.TimeListener.OnWakeup | src/listener/time.rs:67-73 | the same for a sample taken at a wakeup; without time limits it reads nothing and cannot fail |
| Listeners.TimeListener.OnPostExecute | src/listener/time.rs:84-96 | records the three times and a violation if there is one |
| Listeners.MemoryListener.OnPostCloneParent | src/listener/memory.rs:53-57 | closes the write end once, and says so |
| Listeners.MemoryListener.OnWakeup | src/listener/memory.rs:59-72 | a VmPeak read with the pipe at end of file raises the peak to at least that value, nothing else changes it, and Kill is voted exactly if the peak exceeds the limit then |
| Listeners.MemoryListener.OnPostExecute | src/listener/memory.rs:78-85 | reports the peak and a violation if there is one |
| Listeners.MemoryListener.Drop | src/listener/memory.rs:88-98 | given that the flag is right, which every call keeps, each end of the pipe has then been closed exactly once |
| Supervision.ChildInternals.constructor | src/process/jail.rs:557-576 | the listeners of the enabled features in order, an empty result, nothing run yet |
| Supervision.ChildInternals.Start | src/process/child.rs:160-167 | starts the listeners in order up to the first error, asks for wakeups exactly if some listener wants them, and closes the write end of the pipe at most once, as its flag says |
| Supervision.ChildInternals.WakeAll | src/process/child.rs:171-176 | after a round the status is the first violation of the log as far as the listeners came, Kill is the outcome exactly if some listener voted so, and the error is that of the first listener that fails |
| Supervision.ChildInternals.WakeOne | src/process/child.rs:172-176 | one listener extends the log by what it finds, and votes accordingly |
| Supervision.ChildInternals.WatchRound | src/process/child.rs:170-224 | one round sends the kill signal exactly if there was a vote and nothing has failed, ends exactly if the child has ended, and returns the round's first error |
| Supervision.ChildInternals.Wait | src/process/child.rs:182-223 | interruptions and stops leave the log alone; an end adds the exit reason to it, after the violations; a failing wait, an error left by the child or a failing listener is returned |
| Supervision.ChildInternals.Watch | src/process/child.rs:170-224 | the whole loop leaves the first violation of all rounds and then of the exit reason, begins the rounds up to the first error, and sends the kill signal in exactly those with a vote and no failure up to it |
| Supervision.ChildInternals.Finish | src/process/child.rs:230-232 | the final readings extend the log and fill in the figures, in listener order |
| Supervision.ChildInternals.FinishOne | src/process/child.rs:230-232 | one final reading does so for one listener |
| Supervision.ChildInternals.Run | src/process/child.rs:158-236 | for every listener list and every sequence of samples: the first error of the run; the report of its log, as far as it came; the kill signal is sent in exactly the rounds begun in which a listener votes for it and nothing has failed; the thread stays registered exactly if the loop itself fails |
| Supervision.JailedChild.RunSavingResult | src/process/child.rs:138-155 | the error or the report of the run is kept for the caller, the child is sent the kill signal and then reaped, and nobody may use its pid from then on |
| Supervision.JailedChild.Run | src/process/child.rs:95-105 | the child is run by the first call only; the second call returns the same if and only if no call that the run makes fails; the pid is never used after the reaping wait |
| Supervision.JailedChild.Kill | src/process/child.rs:126-134 | a signal is sent exactly if the child has not been run yet, and otherwise the call succeeds without using the pid |
| Supervision.JailedChild.Drop | src/listener/memory.rs:88-98 | whatever calls came before, each end of the memory listener's pipe has been closed exactly once |
| Supervision.FailingScriptFails | src/process/child.rs:158-159 | a child that has left an error makes the run fail before it starts, with an empty report |
| Supervision.ErrorIsHandedOutOnce | src/process/child.rs:100-104 | with that child the first call of `run` returns the error and the second one an OK report |
| VerdictTheorems.StatusInParts | src/process/execution_result.rs:111-127 | the status of a report comes from the wakeups if they found anything, else from the exit reason, else from the final readings |
| VerdictTheorems.WakeupStatus | src/process/child.rs:170-180 | the wakeups leave a status exactly if some listener voted Kill, and it is then about time or memory |
| VerdictTheorems.KillIsNeverRuntimeError | src/process/child.rs:170-214 | a run in which a listener ever voted Kill is TLE or MLE, although a signal ended it; it is a runtime error exactly if the child did not exit with code 0 and there was no such vote |
| VerdictTheorems.OkIffNothingExceeded | src/listener/time.rs:84-130 | a run is OK exactly if the child exited with code 0 and no listener ever took a sample beyond a limit |
| VerdictTheorems.OkRunReportsWithinLimits | src/listener/perf.rs:98-110 | every figure that an OK run reports is within its limit |
| VerdictTheorems.OkRunMeasuredTimeWithinLimit | src/process/jail.rs:501-506 | with a stored limit of at most (2^63 - 1) / 1000 instructions, or a duration of at least 2^64 ms, an OK run reports a measured time within the duration the caller asked for |
| VerdictTheorems.OkRunMeasuredTimeBeyondLimit | src/process/jail.rs:501-506 | for every other duration there is an OK run that reports more |
| VerdictTheorems.WithoutWakeupsNoKill | src/process/child.rs:160-180 | if the run asks for no periodic wakeups, no listener can ever vote Kill |
| VerdictTheorems.RealTimeLimitBites | src/listener/time.rs:107-111 | if the clock moves on between wakeups, every round after the first `limit` ones votes Kill |
| VerdictTheorems.ReportedPeakIsMaximum | src/listener/memory.rs:59-84 | the reported memory is at least every VmPeak read with the pipe at end of file, and is one of them, or 0 |
| VerdictTheorems.NeverAtEndOfFile | src/listener/memory.rs:59-84 | if the pipe is never at end of file, 0 is reported and no memory limit is ever found to be exceeded |
| VerdictMeaning.WakeupMeaning | src/listener/perf.rs:69-87 | the log entry of a wakeup is the objection that the bare sample calls for: which limit is exceeded, by a count, by nanoseconds since the start, by ticks, or by some VmPeak so far, with its status and comment |
| VerdictMeaning.FinalMeaning | src/listener/time.rs:84-130 | the same for the readings after the child has ended |
| VerdictMeaning.KillMeaning | src/process/child.rs:170-180 | a round has a vote for Kill exactly if some bare sample calls for an objection in it |
| VerdictMeaning.NanosAreTime | src/listener/time.rs:145-148 | the nanoseconds of a tick count are the true time, less than a microsecond rounded down, while ticks * 10^6 fits in 64 bits |
| VerdictMeaning.FirstObjectionIsStatus | src/process/execution_result.rs:111-115 | the first objection, round by round and within a round in listener order, is the exit status, whatever comes later |
| VerdictMeaning.EndIsReported | src/process/child.rs:199-216 | an exit code is reported as such and a signal as such, a killed child is never OK, and without an earlier objection both (except code 0) are a runtime error with the number in its comment |
| VerdictMeaning.FinalObjectionIsStatus | src/process/child.rs:230-232 | if nothing was objected to before and the child exited with 0, the first objection of the final readings is the exit status |
| VerdictMeaning.ReportedFigures | src/listener/time.rs:84-96 | the report of a run without errors has the last instruction count, its measured time, the nanoseconds since the start, and the user and system time of the last tick counts, each in its place |
| VerdictMeaning.NothingElseReported | src/process/jail.rs:558-570 | a figure that no listener measures is not reported |
| VerdictMeaning.WakeupsWanted | src/process/child.rs:160-167 | a run asks for periodic wakeups exactly if one of its listeners has a limit to enforce |
| VerdictMeaning.RunErrorIsFirst | src/process/child.rs:158-236 | the error that a run returns is that of the first of its calls that fails, in the order in which they are made |
| VerdictMeaning.FailedRunReport | src/process/child.rs:138-141 | a run that fails in its loop leaves no figures, and a status that is OK exactly if no listener had objected before the failure |
| VerdictMeaning.ListenersInOrder | src/process/jail.rs:558-570 | the listeners come in the order perf, time, memory, ptrace, which decides between two objections in one round |
| ProtocolSafety.StepKeepsInvariant | src/process/child.rs:95-236 | every step of every thread, child and ticker keeps the invariant |
| ProtocolSafety.RunKeepsInvariant | src/process/child.rs:95-236 | so every state that any interleaving leads to has it |
| ProtocolTheorems.PidUsedAfterReapOnlyByPtrace | src/process/child.rs:138-154 | no signal, wait or /proc read uses the pid after the child was reaped, unless ptrace's own wait has reaped it, and then one does |
| ProtocolTheorems.AfterRunPidMisusedIff | src/process/child.rs:138-154 | once `run` is through, the pid was misused if and only if that has happened |
| ProtocolTheorems.OnlyAttachReapsEarly | src/listener/ptrace.rs:37 | the one step that reaps a child too early is ptrace's wait for a child that has already ended, and it always does |
| ProtocolTheorems.PidMisusedExactly | src/process/child.rs:138-154 | over whole runs: once `run` is through, the pid was misused if and only if one of the steps was ptrace's wait finding the child dead |
| ProtocolRuns.KillDuringAttachMisusesPid | src/listener/ptrace.rs:33-42 | a concrete run of two threads and one child in which it happens |
| ProtocolTheorems.ExecOnlyAfterAllHooks | src/process/child.rs:277-307 | exec comes after every hook of both sides has succeeded; if a parent hook fails there is no exec, and the child has been sent the kill signal when `run` is through |
| ProtocolTheorems.RunOnce | src/process/child.rs:95-105 | however many threads call `run`, its body is entered at most once; if it fails the first caller to return gets the error, and all the others get one and the same result |
| ProtocolTheorems.CleanAfterSuccess | src/process/child.rs:143-154 | a run without error reaps its child and has left the registry before it does |
| ProtocolTheorems.PipeClosedMeansExecOrEnd | src/listener/memory.rs:101-112 | end of file on the pipe means that the child has called exec or has ended, whatever copies of the write end other children hold |
| ProtocolTheorems.WriteEndOpenWhileHookPending | src/listener/memory.rs:53-57 | the supervisor holds the write end exactly from the making of the listener to the success of its parent hook |
| ProtocolTheorems.OnlyCloningCopies | src/process/child.rs:252-258 | the write end is copied by cloning another child while it is open, and by nothing else |
| ProtocolTheorems.ExecutingMemorySeenExactly | src/listener/memory.rs:101-112 | over whole runs: while the child executes, its pipe is at end of file if and only if every child cloned between the making of its listener and the success of that listener's parent hook has called exec or has ended |
| ProtocolRuns.ExecutingUnseen | src/process/child.rs:252-258 | two calls of `spawn` and one of `run` lead to a child that executes while its memory listener cannot see the end of file |
| ProtocolRuns.WholeRunUnseen | src/listener/memory.rs:59-72 | such a run can come to its end without error and without a single sample |
| ProtocolTheorems.SignalsOnlyWithHandler | src/process/timeout.rs:14-48 | a registered thread means an installed handler, no signal is sent under the default disposition, and the assertion in `remove_timeout_thread` never fails, also after earlier runs that failed |
| ProtocolTheorems.NoTickAfterRemoval | src/process/timeout.rs:19-48 | in no run does a tick reach a thread after its removal and before its next insertion |
| ProtocolTheorems.WaitingIncreasesRank | src/process/child.rs:95-98 | locks are only ever waited for in one order |
| ProtocolTheorems.NoLockCycle | src/process/child.rs:95-148 | no set of callers of `run` and `kill` can deadlock on locks, and no chain of waiting threads is longer than four |
| ProtocolTheorems.WhoCanBeStuck | src/process/child.rs:95-236 | a thread that cannot go on waits for the gate, for its child to end, for another thread, or for the lock that the ticker holds, and then the ticker can go on |
| ProtocolTheorems.EveryWaitEnds | src/process/child.rs:95-236 | whoever waits for a lock waits, at the end of a chain, for a thread that can take a step, or for one that waits for the gate, its child or the ticker |
| ProtocolTheorems.KillWaitsBriefly | src/process/child.rs:126-134 | `kill` waits only for a thread that can always go on and that gives the lock back within three steps of its own |
| ProtocolMeaning.StepEffects | src/process/child.rs:126-236 | each step of a thread sends a signal, uses the pid, reaps the child, keeps its errors and takes a reading exactly where the code does |
| ProtocolMeaning.SignalsByHistory | src/process/child.rs:126-180 | over whole runs: the kill signals that a child has been sent are those of the votes in the loop, of the cleaning up and of `kill`, and no others |
| ProtocolMeaning.KillAlone | src/process/child.rs:126-134 | `kill` sends exactly one signal if the child is still to be reaped and none otherwise, and gives its lock back |
| ProtocolMeaning.MisuseIsCounted | src/process/child.rs:126-236 | every system call or /proc read on the pid of a reaped child counts as misuse, and nothing else does |
| ProtocolMeaning.OnlyTheDeadAreReaped | src/process/child.rs:150-154 | a child is reaped by the last step of `run` or by ptrace's wait, and only when it has ended |
| ProtocolMeaning.GateIsABarrier | src/process/child.rs:168 | the supervisor enters its loop only when the child has come to the gate, and the child calls exec only when the supervisor has |
| ProtocolMeaning.ExecFailureIsReported | src/process/child.rs:268-307 | over whole runs: if the child could not call exec, `run` fails and its first caller gets an error |
| ProtocolMeaning.ResultIsLastReading | src/process/child.rs:100-104 | over whole runs: the result that all callers share is what the last reading of the child has left |
| ProtocolMeaning.MutualExclusion | src/process/child.rs:95-134 | no two threads are inside what one lock protects, and none is in the registry while the ticker is |
| ProtocolMeaning.TickerSignalsEveryone | src/process/timeout.rs:19-26 | over whole runs: each time the ticker gives the lock back it has signalled every registered thread, and none twice |
| Timeouts.AddAlone | src/process/timeout.rs:39-42 | the steps of the transition system, taken without interruption, add the thread and leave an installed handler, also on first use |
| Timeouts.RemoveAlone | src/process/timeout.rs:44-48 | likewise for removal, with the assertion decided by whether the thread was in the set |
| Timeouts.TimeoutThreads.AddTimeoutThread | src/process/timeout.rs:39-42 | the code does what those steps do |
| Timeouts.TimeoutThreads.RemoveTimeoutThread | src/process/timeout.rs:44-48 | the code removes the thread and asserts that it was there |
| Timeouts.TimeoutThreads.TickRound | src/process/timeout.rs:19-26 | one round of the ticker signals every registered thread exactly once, as the ticker's steps do, and leaves the globals as they were |
| RefinementProof.RunRefined | src/process/child.rs:158-236 | over whole runs, in every interleaving: given a script that tells the truth about the supervising thread's steps, that thread keeps an error exactly if the script's run returns one, begins the rounds that the script's run does, sends the child the kill signal in exactly the same rounds, and sees end of file exactly if the script has such a sample before anything fails |
| RefinementProof.RegistrationRefined | src/process/timeout.rs:39-48 | when that thread comes to reap the child it is registered exactly as the specification of the sequential run says, whatever other threads have done to the set |
| RefinementProof.StepFollows | src/process/child.rs:95-236 | every step of every thread, child and ticker keeps the supervision of a child in line with the script |
| QuietRuns.TrueScriptExists | src/process/child.rs:158-236 | there is a run that comes to its end with a script that tells the truth about it |

## Left out

- Raw system calls, the parsing of `/proc`, retries after an interrupted call, and the `panic!` and
  `expect` branches (a negative counter, a VmPeak that does not parse, a poisoned mutex, a kill of
  a pid that does not exist): the answers of the kernel are parameters of the model.
- Input and output of `tests/bud.cpp`. The grid is a value, and n is at most 10^9: the sentinel pair
  of the program must not be smaller than a position, and no larger grid fits into memory.
- Panics on overflow in a debug build: products wrap, as they do in a release build.
- `src/setup.rs`, `src/seccomp`, and the builder methods that only store a field. The documentation
  says that time and memory limits also enable their features (`src/process/jail.rs:361-363`,
  `513-514`), the code only stores the limit (`382-385`, `533-536`); the model follows the code, and
  every statement about a limit is about runs that have the listener.
- Interference in one object: the classes of `Supervisor.dfy`, `Listeners.dfy` and `Timeout.dfy` run
  without interruption, as they do under their locks; what threads do to each other between two
  locks is in `Protocol.dfy`, whose locks, set and children are values, because Dafny has no threads.
- The vector of boxed listeners is a list of kinds with one object per kind. It holds each kind at
  most once, as `ListenersFor` shows.
- Supervision.JailedChild.Drop: is about the descriptors only, not about a child that is left at its
  gate when its handle is dropped without a `run`.
- ProtocolTheorems.ExecutingMemorySeenExactly: the children of the model are those that the library
  spawns; other processes that the host program forks inherit descriptors too.
- RefinementProof.RunRefined: relates whether there is an error, not which one, and says nothing about
  the report: the transition system keeps both abstract. `ChildInternals.Run` has them.
- ProtocolTheorems.CleanAfterSuccess: is about runs without error only; after an error the child may
  not be dead yet when it is to be reaped, and the thread may still be registered.
- ProtocolTheorems.WhoCanBeStuck: does not show that the gate is ever reached or that the child ever
  ends; a child that fails before the gate leaves its supervisor waiting there.
- The chaining to a previous SIGUSR1 handler, and the signals that the ptrace listener swallows.
- `get_exit_status_comment`, constructors and setters that only store a value, and
  `WakeupAction::combine` have no row of their own: they are used by what has one.
