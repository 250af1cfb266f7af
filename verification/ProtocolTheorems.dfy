/**
 What the invariant means to the callers of the library, in every interleaving.
 */
module ProtocolTheorems {
  import opened ExecutionResults
  import opened Verdicts
  import opened Protocol
  import opened ProtocolInvariant
  import opened ProtocolSafety

  /** Some run leads to s. */
  ghost predicate Reachable(s: State) {
    exists run :: IsRun(run) && run.Now() == s
  }

  lemma ReachableInvariant(s: State)
    requires Reachable(s)
    ensures Invariant(s)
  {
    var run :| IsRun(run) && run.Now() == s;
    RunKeepsInvariant(run);
  }

  lemma ReachableStep(s: State, a: Action, s': State)
    requires Reachable(s) && Apply(s, a) == Some(s')
    ensures Reachable(s')
  {
    var run :| IsRun(run) && run.Now() == s;
    assert IsRun(Then(run, a, s')) && Then(run, a, s').Now() == s';
  }

  // ----- The pid -----

  /** The pid of a child is used after the child was reaped exactly in those runs in which
      ptrace's wait, finding the child dead, has reaped it (while it is still inside that hook,
      the next use is yet to come). Without a ptrace listener that never happens. */
  lemma PidUsedAfterReapOnlyByPtrace(s: State, c: Cid)
    requires Reachable(s) && c < |s.children|
    ensures var ch := s.children[c];
            && (ch.log.misused ==> ch.log.attachReaped)
            && (ch.log.attachReaped && !Holder(s, c).AttachSet? ==> ch.log.misused)
            && (Ptrace !in ch.kinds ==> !ch.log.attachReaped)
  {
    ReachableInvariant(s);
    assert ChildOk(s, c);
  }

  /** In particular, once `run` has been through, the pid was misused if and only if ptrace
      has reaped the child. */
  lemma AfterRunPidMisusedIff(s: State, c: Cid)
    requires Reachable(s) && c < |s.children| && s.children[c].handle.once == Done
    ensures s.children[c].log.misused <==> s.children[c].log.attachReaped
  {
    ReachableInvariant(s);
    assert ChildOk(s, c);
  }

  /** The one step by which that comes about: ptrace's wait, when the child has already ended. */
  predicate AttachFindsChildDead(s: State, a: Action, c: Cid)
    requires c < |s.children|
  {
    && a.Move? && a.t < |s.threads| && s.threads[a.t].AttachWait? && s.threads[a.t].c == c
    && s.children[c].proc.phase.Zombie?
  }

  lemma OnlyAttachReapsEarly(s: State, a: Action, s': State, c: Cid)
    requires c < |s.children| && Apply(s, a) == Some(s')
    ensures s'.children[c].log.attachReaped <==>
            s.children[c].log.attachReaped || AttachFindsChildDead(s, a, c)
  {
    if a.ChildDoes? && a.c == c {
      EventFrame(s.children[c], a.child, s'.children[c]);
    } else if a.Move? && !IsRegistryPc(s.threads[a.t]) && s.threads[a.t].c == c {
      MoveReaps(s.threads[a.t], s.children[c], a.t, a.how, Seen(a.result, SharedPipe(s, c)), s'.threads[a.t],
                s'.children[c]);
    }
  }

  lemma MoveReaps(pc: Pc, ch: Child, t: Tid, how: How, seen: Seen, next: Pc, after: Child)
    requires ChildStep(pc, ch, t, how, seen) == To(next, after)
    ensures after.log.attachReaped <==> ch.log.attachReaped || (pc.AttachWait? && ch.proc.phase.Zombie?)
  {
    if !pc.AttachWait? {
      StepFrame(pc, ch, t, how, seen, next, after);
    }
  }

  /** One of the steps of the run was ptrace's wait for child c, and found it dead. */
  predicate ReapedEarly(run: Run, c: Cid) {
    run.Then? &&
    (ReapedEarly(run.before, c) ||
     (c < |run.before.Now().children| && AttachFindsChildDead(run.before.Now(), run.action, c)))
  }

  lemma StepKeepsNumber(s: State, a: Action, s': State)
    requires Apply(s, a) == Some(s')
    ensures |s'.children| == |s.children|
  {}

  lemma {:induction false} ReapedByHistory(run: Run, c: Cid)
    requires IsRun(run) && c < |run.Now().children|
    ensures run.Now().children[c].log.attachReaped <==> ReapedEarly(run, c)
  {
    if run.Then? {
      StepKeepsNumber(run.before.Now(), run.action, run.next);
      ReapedByHistory(run.before, c);
      OnlyAttachReapsEarly(run.before.Now(), run.action, run.next, c);
    } else {
      assert Unspawned(run.first.children[c]);
    }
  }

  /** Over whole runs: when `run` is through, the pid was used after the child was reaped if and
      only if one of the steps of the run was ptrace's wait finding the child dead. */
  lemma PidMisusedExactly(run: Run, c: Cid)
    requires IsRun(run) && c < |run.Now().children| && run.Now().children[c].handle.once == Done
    ensures run.Now().children[c].log.misused <==> ReapedEarly(run, c)
  {
    ReapedByHistory(run, c);
    AfterRunPidMisusedIff(run.Now(), c);
  }

  // ----- The gate -----

  /** Exec happens only after every child hook and every parent hook has succeeded; where a
      parent hook has failed it has not happened, the gate is still shut, and by the time
      `run` is through the child has been sent the kill signal. */
  lemma ExecOnlyAfterAllHooks(s: State, c: Cid)
    requires Reachable(s) && c < |s.children|
    ensures var ch := s.children[c];
            && (ch.log.bodies == 0 ==> !ch.proc.execed)
            && (ch.proc.execed ==> ch.proc.childHooks == ch.log.parentHooks == |ch.kinds| && !ch.log.hookFailed)
            && (ch.log.hookFailed ==> !ch.handle.parentAtGate && !ch.proc.execed && !ch.proc.phase.Executing?)
            && (ch.log.hookFailed && ch.handle.once == Done ==> ch.log.signals > 0)
  {
    ReachableInvariant(s);
    assert ChildOk(s, c);
  }

  // ----- The once, and what its callers get -----

  /** However many threads call `run`, its body is entered at most once. If it failed, the
      first caller to return gets the error; every other caller of either kind of run gets
      one and the same result. */
  lemma RunOnce(s: State, c: Cid)
    requires Reachable(s) && c < |s.children|
    ensures var ch := s.children[c];
            && ch.log.bodies <= 1
            && (ch.log.returned != [] ==> ch.log.bodies == 1)
            && forall i :: 0 <= i < |ch.log.returned| ==>
                 ch.log.returned[i] == if ch.log.bodyFailed && i == 0 then GotError else GotResult(ch.handle.result)
  {
    ReachableInvariant(s);
    assert ChildOk(s, c);
  }

  /** A run without error has reaped its child, and its thread has left the registry when it
      comes to do so. */
  lemma CleanAfterSuccess(s: State, c: Cid, t: Tid)
    requires Reachable(s) && c < |s.children| && !s.children[c].log.bodyFailed
    ensures s.children[c].handle.once == Done ==> s.children[c].proc.phase == Gone
    ensures t < |s.threads| && s.threads[t] == Reap(c) ==>
              s.children[c].proc.phase == Zombie && (s.children[c].periodic ==> t !in s.registry.registered)
  {
    ReachableInvariant(s);
    assert ChildOk(s, c);
    if t < |s.threads| && s.threads[t] == Reap(c) {
      assert ThreadOk(s, t) && Registered(s, t);
    }
  }

  // ----- The memory listener's pipe -----

  predicate ExecedOrEnded(proc: Process) {
    proc.phase.Executing? || proc.phase.Zombie? || proc.phase.Gone?
  }

  /** When the memory listener sees its pipe closed, the child has called exec or has ended:
      it no longer shares the address space of its supervisor. */
  lemma PipeClosedMeansExecOrEnd(s: State, c: Cid)
    requires Reachable(s) && c < |s.children| && Memory in s.children[c].kinds
    ensures var ch := s.children[c];
            && (!ch.proc.phase.Unmade? && PipeClosed(ch, SharedPipe(s, c)) ==> ExecedOrEnded(ch.proc))
            && (ch.log.eofSeen ==> ExecedOrEnded(ch.proc))
  {
    ReachableInvariant(s);
    assert ChildOk(s, c);
  }

  /** The supervisor's write end is open from the moment that the listener is made until its
      parent hook has succeeded. */
  lemma WriteEndOpenWhileHookPending(s: State, c: Cid)
    requires Reachable(s) && c < |s.children|
    ensures s.children[c].handle.writeEnd <==> MemoryHookPending(s.children[c])
  {
    ReachableInvariant(s);
    assert ChildOk(s, c);
  }

  /** Child d was cloned by one of the actions of the run, after the memory listener of child c
      had been made and before its parent hook had succeeded. */
  predicate ClonedMeanwhile(run: Run, c: Cid, d: Cid) {
    run.Then? &&
    (ClonedMeanwhile(run.before, c, d) ||
     (d != c && c < |run.before.Now().children| && MemoryHookPending(run.before.Now().children[c]) &&
      run.action == Clone(d)))
  }

  /** Only cloning another child while the write end is open copies it. */
  lemma OnlyCloningCopies(s: State, a: Action, s': State, c: Cid)
    requires c < |s.children| && Apply(s, a) == Some(s')
    ensures |s'.children| == |s.children|
    ensures forall d :: d in s'.children[c].handle.copies <==>
              d in s.children[c].handle.copies || (d != c && a == Clone(d) && s.children[c].handle.writeEnd)
  {
    if a.Move? && !IsRegistryPc(s.threads[a.t]) && s.threads[a.t].c == c {
      StepFrame(s.threads[a.t], s.children[c], a.t, a.how, Seen(a.result, SharedPipe(s, c)), s'.threads[a.t],
                s'.children[c]);
    }
  }

  lemma {:induction false} CopiesByHistory(run: Run, c: Cid, d: Cid)
    requires IsRun(run) && c < |run.Now().children|
    ensures d in run.Now().children[c].handle.copies <==> ClonedMeanwhile(run, c, d)
  {
    if run.Then? {
      var s := run.before.Now();
      StepKeepsNumber(s, run.action, run.next);
      CopiesByHistory(run.before, c, d);
      RunKeepsInvariant(run.before);
      assert ChildOk(s, c);
      OnlyCloningCopies(s, run.action, run.next, c);
    } else {
      assert Unspawned(run.first.children[c]);
    }
  }

  lemma ExecutingPipeClosedUnlessShared(s: State, c: Cid)
    requires Invariant(s) && c < |s.children|
    requires Memory in s.children[c].kinds && s.children[c].proc.phase.Executing?
    ensures PipeClosed(s.children[c], SharedPipe(s, c)) <==> !SharedPipe(s, c)
  {
    var kinds := s.children[c].kinds;
    assert ChildOk(s, c);
    MemoryAmongMeaning(kinds, |kinds|);
    assert kinds[..|kinds|] == kinds;
  }

  /** While the child executes, the memory listener finds its pipe at end of file if and only
      if every child that was cloned between the making of the listener and the success of
      its parent hook has called exec or has ended. */
  lemma ExecutingMemorySeenExactly(run: Run, c: Cid)
    requires IsRun(run) && c < |run.Now().children|
    requires Memory in run.Now().children[c].kinds && run.Now().children[c].proc.phase.Executing?
    ensures var s := run.Now();
            PipeClosed(s.children[c], SharedPipe(s, c)) <==>
            forall d: Cid :: d < |s.children| && ClonedMeanwhile(run, c, d) ==> !KeepsDescriptors(s.children[d].proc)
  {
    RunKeepsInvariant(run);
    ExecutingPipeClosedUnlessShared(run.Now(), c);
    forall d: Cid
      ensures d in run.Now().children[c].handle.copies <==> ClonedMeanwhile(run, c, d)
    {
      CopiesByHistory(run, c, d);
    }
  }

  // ----- The registry and its ticker -----

  /** A registered thread means an installed handler, so no signal is ever sent under the
      default disposition; and the assertion in remove_timeout_thread never fails. */
  lemma SignalsOnlyWithHandler(s: State)
    requires Reachable(s)
    ensures !s.registry.badSignal
    ensures s.registry.registered != {} ==> s.registry.handlerInstalled
    ensures forall t :: 0 <= t < |s.threads| ==> !s.threads[t].AssertionFailed?
    ensures forall t :: TickStep(s.registry, TickSignal(t)).Some? ==>
              s.registry.handlerInstalled && t in s.registry.registered
  {
    ReachableInvariant(s);
    forall t | 0 <= t < |s.threads|
      ensures !s.threads[t].AssertionFailed?
    {
      assert ThreadOk(s, t);
    }
  }

  /** The action is the insertion of thread t into the registry. */
  predicate Inserts(s: State, a: Action, t: Tid) {
    t < |s.threads| && s.threads[t].RegInsert? && a.Move? && a.t == t
  }

  /** The action is the removal of thread t from it. */
  predicate Removes(s: State, a: Action, t: Tid) {
    t < |s.threads| && s.threads[t].UnregRemove? && a.Move? && a.t == t
  }

  /** Only the insertion of t puts t into the registry. */
  lemma OnlyInsertionRegisters(s: State, a: Action, s': State, t: Tid)
    requires Apply(s, a) == Some(s')
    requires t in s'.registry.registered && t !in s.registry.registered
    ensures Inserts(s, a, t)
  {}

  lemma RemovalUnregisters(s: State, a: Action, s': State, t: Tid)
    requires Apply(s, a) == Some(s')
    requires Removes(s, a, t)
    ensures t !in s'.registry.registered
  {}

  /** Thread t has removed itself from the registry and has not inserted itself since. */
  predicate HasLeft(run: Run, t: Tid) {
    run.Then? &&
    (Removes(run.before.Now(), run.action, t) ||
     (HasLeft(run.before, t) && !Inserts(run.before.Now(), run.action, t)))
  }

  lemma {:induction false} StaysUnregistered(run: Run, t: Tid)
    requires IsRun(run) && HasLeft(run, t)
    ensures t !in run.Now().registry.registered
  {
    if Removes(run.before.Now(), run.action, t) {
      RemovalUnregisters(run.before.Now(), run.action, run.next, t);
    } else {
      StaysUnregistered(run.before, t);
      if t in run.next.registry.registered {
        OnlyInsertionRegisters(run.before.Now(), run.action, run.next, t);
      }
    }
  }

  /** In no run does a tick reach a thread after its removal from the registry and before its
      next insertion. */
  lemma NoTickAfterRemoval(run: Run, t: Tid)
    requires IsRun(run) && run.Then? && HasLeft(run.before, t)
    ensures run.action != Tick(TickSignal(t))
  {
    StaysUnregistered(run.before, t);
    RunKeepsInvariant(run.before);
    assert RegistryFacts(run.before.Now().registry);
  }

  // ----- The locks -----

  /** Thread t cannot go on before thread u gives up what it holds. */
  predicate WaitsFor(s: State, t: Tid, u: Tid) {
    && t < |s.threads| && u < |s.threads|
    && var pc := s.threads[t];
       || (pc.RunLock? && pc.c < |s.children| && s.children[pc.c].handle.internals == Some(u))
       || (pc.RegOnce? && s.registry.once == InitializedBy(u))
       || ((pc.RegLock? || pc.UnregLock?) && s.registry.lock == HeldBy(u))
       || ((pc.CleanLock? || pc.KillLock?) && pc.c < |s.children| && s.children[pc.c].handle.stateLock == Some(u))
  }

  /** The order in which the locks are taken: child_internals, the once of the registry, and
      then the data of the registry or child_state. A thread that wants none comes last. */
  function LockRank(pc: Pc): nat {
    if pc.RunLock? then 0
    else if pc.RegOnce? then 1
    else if pc.RegLock? || pc.UnregLock? || pc.CleanLock? || pc.KillLock? then 2
    else 3
  }

  lemma WaitingIncreasesRank(s: State, t: Tid, u: Tid)
    requires Invariant(s) && WaitsFor(s, t, u)
    ensures LockRank(s.threads[t]) < LockRank(s.threads[u])
  {
    var pc := s.threads[t];
    assert ThreadOk(s, t);
    assert ChildOk(s, pc.c);
  }

  /** Each thread of the sequence waits for the next one. */
  predicate WaitChain(s: State, chain: seq<Tid>) {
    && (forall i :: 0 <= i < |chain| ==> chain[i] < |s.threads|)
    && forall i :: 0 < i < |chain| ==> WaitsFor(s, chain[i - 1], chain[i])
  }

  lemma {:induction false} RankGrowsAlongChain(s: State, chain: seq<Tid>, i: nat)
    requires Invariant(s) && WaitChain(s, chain) && i < |chain|
    ensures LockRank(s.threads[chain[i]]) >= LockRank(s.threads[chain[0]]) + i
  {
    if i > 0 {
      RankGrowsAlongChain(s, chain, i - 1);
      WaitingIncreasesRank(s, chain[i - 1], chain[i]);
    }
  }

  /** No set of callers of `run` and `kill` can deadlock: threads that wait for one another
      never form a circle, and no chain of them is longer than four. */
  lemma NoLockCycle(s: State, chain: seq<Tid>)
    requires Reachable(s) && WaitChain(s, chain) && |chain| > 0
    ensures |chain| <= 4
    ensures !WaitsFor(s, chain[|chain| - 1], chain[0])
  {
    ReachableInvariant(s);
    RankGrowsAlongChain(s, chain, |chain| - 1);
    if WaitsFor(s, chain[|chain| - 1], chain[0]) {
      WaitingIncreasesRank(s, chain[|chain| - 1], chain[0]);
    }
  }

  /** The thread wants the lock that the ticker holds. */
  predicate WaitsForTicker(s: State, t: Tid) {
    t < |s.threads| && (s.threads[t].RegLock? || s.threads[t].UnregLock?) && s.registry.lock.HeldByTicker?
  }

  /** A thread that cannot go on is idle, waits for the other side of the gate or for its
      child to end, waits for another thread's lock, or waits for the lock of the ticker,
      which can always go on. */
  lemma WhoCanBeStuck(s: State, t: Tid, result: int)
    requires Reachable(s) && t < |s.threads| && Apply(s, Move(t, Proceeds, result)).None?
    ensures var pc := s.threads[t];
            || pc.Idle?
            || (pc.GateWait? && pc.c < |s.children| && !s.children[pc.c].proc.arrived)
            || (pc.Wait? && pc.c < |s.children| && !s.children[pc.c].proc.phase.Zombie?)
            || (LockRank(pc) < 3 && exists u :: WaitsFor(s, t, u))
            || (WaitsForTicker(s, t) && exists e :: Apply(s, Tick(e)).Some?)
  {
    ReachableInvariant(s);
    assert ThreadOk(s, t);
    var pc := s.threads[t];
    if !pc.Idle? {
      assert ChildOk(s, pc.c);
      if IsRegistryPc(pc) {
        StuckOnRegistry(s, t);
      } else {
        StuckOnChild(s, t, result);
      }
    }
  }

  lemma StuckOnRegistry(s: State, t: Tid)
    requires Invariant(s) && t < |s.threads| && IsRegistryPc(s.threads[t])
    requires RegistryStep(s.threads[t], s.registry, t).Excluded?
    ensures LockRank(s.threads[t]) < 3
    ensures (exists u :: WaitsFor(s, t, u)) || (WaitsForTicker(s, t) && exists e :: Apply(s, Tick(e)).Some?)
  {
    var reg := s.registry;
    if reg.lock.HeldByTicker? && !s.threads[t].RegOnce? {
      if reg.ticker.todo == {} {
        assert Apply(s, Tick(TickUnlock)).Some?;
      } else {
        var u :| u in reg.ticker.todo;
        assert Apply(s, Tick(TickSignal(u))).Some?;
      }
    } else if s.threads[t].RegOnce? {
      assert WaitsFor(s, t, reg.once.t);
    } else {
      assert WaitsFor(s, t, reg.lock.t);
    }
  }

  lemma StuckOnChild(s: State, t: Tid, result: int)
    requires Invariant(s) && t < |s.threads| && !s.threads[t].Idle? && !IsRegistryPc(s.threads[t])
    requires s.threads[t].c < |s.children|
    requires var c := s.threads[t].c;
             ChildStep(s.threads[t], s.children[c], t, Proceeds, Seen(result, SharedPipe(s, c))).Blocked?
    ensures var pc := s.threads[t];
            || (pc.GateWait? && !s.children[pc.c].proc.arrived)
            || (pc.Wait? && !s.children[pc.c].proc.phase.Zombie?)
            || (LockRank(pc) < 3 && exists u :: WaitsFor(s, t, u))
  {
    var pc := s.threads[t];
    assert ThreadOk(s, t) && ChildOk(s, pc.c);
    if pc.RunLock? {
      assert WaitsFor(s, t, s.children[pc.c].handle.internals.value);
    } else if pc.CleanLock? || pc.KillLock? {
      assert WaitsFor(s, t, s.children[pc.c].handle.stateLock.value);
    }
  }

  ghost predicate WaitsForSomeone(s: State, t: Tid) {
    exists u :: WaitsFor(s, t, u)
  }

  /** The thread itself, the one it waits for, the one that waits for, and so on to the end. */
  lemma {:induction false} MaximalChain(s: State, t: Tid) returns (chain: seq<Tid>)
    requires Invariant(s) && t < |s.threads|
    ensures WaitChain(s, chain) && chain != [] && chain[0] == t
    ensures !WaitsForSomeone(s, chain[|chain| - 1])
    decreases 3 - LockRank(s.threads[t])
  {
    if WaitsForSomeone(s, t) {
      var u :| WaitsFor(s, t, u);
      WaitingIncreasesRank(s, t, u);
      var rest := MaximalChain(s, u);
      chain := [t] + rest;
      assert chain[|chain| - 1] == rest[|rest| - 1];
    } else {
      chain := [t];
    }
  }

  /** What keeps the whole system from standing still: whoever waits for a lock, however
      indirectly, waits in the end for a thread that can take a step, or that waits for the
      other side of the gate, for its child to end, or for the ticker, which can take one. */
  lemma EveryWaitEnds(s: State, t: Tid, u: Tid, result: int) returns (chain: seq<Tid>)
    requires Reachable(s) && WaitsFor(s, t, u)
    ensures WaitChain(s, chain) && |chain| > 1 && chain[0] == t
    ensures var last := chain[|chain| - 1];
            var pc := s.threads[last];
            || Apply(s, Move(last, Proceeds, result)).Some?
            || (pc.GateWait? && pc.c < |s.children| && !s.children[pc.c].proc.arrived)
            || (pc.Wait? && pc.c < |s.children| && !s.children[pc.c].proc.phase.Zombie?)
            || (WaitsForTicker(s, last) && exists e :: Apply(s, Tick(e)).Some?)
  {
    ReachableInvariant(s);
    chain := MaximalChain(s, t);
    var last := chain[|chain| - 1];
    assert WaitsForSomeone(s, t);
    assert WaitsFor(s, chain[|chain| - 2], last);
    HolderIsNotIdle(s, chain[|chain| - 2], last);
    if Apply(s, Move(last, Proceeds, result)).None? {
      WhoCanBeStuck(s, last, result);
      assert !WaitsForSomeone(s, last);
    }
  }

  lemma HolderIsNotIdle(s: State, t: Tid, u: Tid)
    requires Invariant(s) && WaitsFor(s, t, u)
    ensures !s.threads[u].Idle?
  {
    var pc := s.threads[t];
    assert ThreadOk(s, t);
    assert ChildOk(s, pc.c);
  }

  /** How many steps of its own the holder of child_state needs to give it back. */
  function StepsToRelease(pc: Pc): nat {
    if pc.KillCheck? then 3
    else if pc.KillSignal? then 2
    else 1
  }

  lemma HolderGivesBack(pc: Pc, ch: Child, t: Tid, how: How, seen: Seen)
    requires LocksState(pc)
    ensures var move := ChildStep(pc, ch, t, how, seen);
            && move.To?
            && (move.child.handle.stateLock == None ||
                (move.child.handle.stateLock == ch.handle.stateLock &&
                 StepsToRelease(move.pc) < StepsToRelease(pc)))
  {}

  /** `kill` waits only for a thread that can always go on and that gives the lock back within
      three steps: never for the one that supervises the child for its whole life. */
  lemma KillWaitsBriefly(s: State, t: Tid, u: Tid, how: How, result: int)
    requires Reachable(s) && WaitsFor(s, t, u) && s.threads[t].KillLock?
    ensures StepsToRelease(s.threads[u]) <= 3
    ensures var c := s.threads[t].c;
            var next := Apply(s, Move(u, how, result));
            && next.Some?
            && (next.value.children[c].handle.stateLock == None ||
                (next.value.children[c].handle.stateLock == Some(u) &&
                 StepsToRelease(next.value.threads[u]) < StepsToRelease(s.threads[u])))
  {
    ReachableInvariant(s);
    var c := s.threads[t].c;
    assert ChildOk(s, c);
    HolderGivesBack(s.threads[u], s.children[c], u, how, Seen(result, SharedPipe(s, c)));
  }
}
