/**
 Two concrete runs of the protocol in which something happens that one would not expect.
 */
module ProtocolRuns {
  import opened ExecutionResults
  import opened Verdicts
  import opened Protocol
  import opened ProtocolInvariant
  import opened ProtocolTheorems

  /** Two children and two threads, none of which has needed the registry yet. */
  function Scene(ch: Child, other: Child, first: Pc, second: Pc): State {
    State([ch, other], [first, second], Registry(Untouched, false, Free, {}, NotSpawned, false))
  }

  /** A step of the first thread on the first child. */
  function FirstStep(ch: Child, other: Child, pc: Pc, how: How): ChildMove {
    ChildStep(pc, ch, 0, how, Seen(0, SharedPipe(Scene(ch, other, pc, Idle), 0)))
  }

  lemma FirstMoves(ch: Child, other: Child, first: Pc, second: Pc, how: How, next: Pc, after: Child)
    requires Reachable(Scene(ch, other, first, second)) && !first.Idle? && first.c == 0
    requires !IsRegistryPc(first) && !first.AssertionFailed? && FirstStep(ch, other, first, how) == To(next, after)
    ensures Reachable(Scene(after, other, next, second))
  {
    assert SharedPipe(Scene(ch, other, first, second), 0) == SharedPipe(Scene(ch, other, first, Idle), 0);
    assert [first, second][0 := next] == [next, second] && [ch, other][0 := after] == [after, other];
    ReachableStep(Scene(ch, other, first, second), Move(0, how, 0), Scene(after, other, next, second));
  }

  lemma SecondMoves(ch: Child, other: Child, first: Pc, second: Pc, next: Pc, after: Child)
    requires Reachable(Scene(ch, other, first, second)) && InKill(second) && second.c == 0
    requires KillStep(second, ch, 1) == To(next, after)
    ensures Reachable(Scene(after, other, first, next))
  {
    assert [first, second][1 := next] == [first, next] && [ch, other][0 := after] == [after, other];
    ReachableStep(Scene(ch, other, first, second), Move(1, Proceeds, 0), Scene(after, other, first, next));
  }

  lemma ChildActs(ch: Child, other: Child, first: Pc, second: Pc, e: ChildEvent, after: Child)
    requires Reachable(Scene(ch, other, first, second)) && ChildEventStep(ch, e) == Some(after)
    ensures Reachable(Scene(after, other, first, second))
  {
    assert [ch, other][0 := after] == [after, other];
    ReachableStep(Scene(ch, other, first, second), ChildDoes(0, e), Scene(after, other, first, second));
  }

  lemma OtherActs(ch: Child, other: Child, e: ChildEvent, after: Child)
    requires Reachable(Scene(ch, other, Idle, Idle)) && ChildEventStep(other, e) == Some(after)
    ensures Reachable(Scene(ch, after, Idle, Idle))
  {
    assert [ch, other][1 := after] == [ch, after];
    ReachableStep(Scene(ch, other, Idle, Idle), ChildDoes(1, e), Scene(ch, after, Idle, Idle));
  }

  /** A child with the memory feature, as `spawn` returns it; `copies` are the children that
      were cloned since then. */
  function Spawned(copies: set<Cid>): Child {
    Child(
      [Memory, Ptrace], false,
      Process(BeforeGate, 2, false, false, true, false),
      Handle(true, None, None, true, New, false, false, 0, true, copies),
      Log(0, false, 0, false, 0, false, false, false, []))
  }

  /** The same child at earlier points of `spawn`. */
  function InSpawn(phase: Phase, childHooks: nat): Child {
    var ch := Spawned({});
    ch.(proc := Process(phase, childHooks, false, false, !phase.Unmade? && !phase.Made?, false),
        handle := ch.handle.(published := false, writeEnd := !phase.Unmade?))
  }

  lemma SpawnedReachable()
    ensures Reachable(Scene(Spawned({}), InSpawn(Unmade, 0), Idle, Idle))
  {
    var other, start := InSpawn(Unmade, 0), Scene(InSpawn(Unmade, 0), InSpawn(Unmade, 0), Idle, Idle);
    assert IsRun(Start(start)) && Start(start).Now() == start;
    ChildActs(InSpawn(Unmade, 0), other, Idle, Idle, Make, InSpawn(Made, 0));
    assert AfterClone([InSpawn(Made, 0), other], 0) == [InSpawn(Setup, 0), other];
    ReachableStep(Scene(InSpawn(Made, 0), other, Idle, Idle), Clone(0), Scene(InSpawn(Setup, 0), other, Idle, Idle));
    SetupReachesReady(other);
    ChildActs(InSpawn(AtReady, 2), other, Idle, Idle, Publish, Spawned({}));
  }

  lemma SetupReachesReady(other: Child)
    requires Reachable(Scene(InSpawn(Setup, 0), other, Idle, Idle))
    ensures Reachable(Scene(InSpawn(AtReady, 2), other, Idle, Idle))
  {
    ChildActs(InSpawn(Setup, 0), other, Idle, Idle, ChildHook, InSpawn(Setup, 1));
    ChildActs(InSpawn(Setup, 1), other, Idle, Idle, ChildHook, InSpawn(Setup, 2));
    ChildActs(InSpawn(Setup, 2), other, Idle, Idle, ReachReady, InSpawn(AtReady, 2));
  }

  /** Spawning a second child gives it a copy of the write end of the first one's pipe. */
  lemma BothSpawnedReachable()
    ensures Reachable(Scene(Spawned({1}), Spawned({}), Idle, Idle))
  {
    SpawnedReachable();
    OtherActs(Spawned({}), InSpawn(Unmade, 0), Make, InSpawn(Made, 0));
    assert {} + {1} == {1} && Inherited(Spawned({}), 1) == Spawned({1});
    assert AfterClone([Spawned({}), InSpawn(Made, 0)], 1) == [Spawned({1}), InSpawn(Setup, 0)];
    ReachableStep(Scene(Spawned({}), InSpawn(Made, 0), Idle, Idle), Clone(1),
                  Scene(Spawned({1}), InSpawn(Setup, 0), Idle, Idle));
    OtherSetupReachesEnd(Spawned({1}));
  }

  lemma OtherSetupReachesEnd(ch: Child)
    requires Reachable(Scene(ch, InSpawn(Setup, 0), Idle, Idle))
    ensures Reachable(Scene(ch, Spawned({}), Idle, Idle))
  {
    OtherActs(ch, InSpawn(Setup, 0), ChildHook, InSpawn(Setup, 1));
    OtherActs(ch, InSpawn(Setup, 1), ChildHook, InSpawn(Setup, 2));
    OtherActs(ch, InSpawn(Setup, 2), ReachReady, InSpawn(AtReady, 2));
    OtherActs(ch, InSpawn(AtReady, 2), Publish, Spawned({}));
  }

  /** The first child when a first thread's `run` has succeeded with that many parent hooks. */
  function Hooking(copies: set<Cid>, parentHooks: nat): Child {
    var ch := Spawned(copies);
    ch.(handle := ch.handle.(internals := Some(0), once := Running, writeEnd := parentHooks == 0),
        log := ch.log.(bodies := 1, parentHooks := parentHooks))
  }

  lemma BodyStartReachable(copies: set<Cid>, other: Child)
    requires Reachable(Scene(Spawned(copies), other, Idle, Idle))
    ensures Reachable(Scene(Hooking(copies, 0), other, BodyStart(0), Idle))
  {
    var c0 := Spawned(copies);
    var c1 := c0.(handle := c0.handle.(internals := Some(0)));
    assert [Idle, Idle][0 := RunLock(0)] == [RunLock(0), Idle];
    ReachableStep(Scene(c0, other, Idle, Idle), CallRun(0, 0), Scene(c0, other, RunLock(0), Idle));
    FirstMoves(c0, other, RunLock(0), Idle, Proceeds, CallOnce(0), c1);
    FirstMoves(c1, other, CallOnce(0), Idle, Proceeds, BodyStart(0), Hooking(copies, 0));
  }

  lemma HookReachable(copies: set<Cid>, other: Child)
    requires Reachable(Scene(Spawned(copies), other, Idle, Idle))
    ensures Reachable(Scene(Hooking(copies, 0), other, Hook(0, 0), Idle))
  {
    BodyStartReachable(copies, other);
    FirstMoves(Hooking(copies, 0), other, BodyStart(0), Idle, Proceeds, Hook(0, 0), Hooking(copies, 0));
  }

  lemma AttachingReachable(copies: set<Cid>, other: Child)
    requires Reachable(Scene(Spawned(copies), other, Idle, Idle))
    ensures Reachable(Scene(Hooking(copies, 1), other, AttachWait(0, 1), Idle))
  {
    HookReachable(copies, other);
    FirstMoves(Hooking(copies, 0), other, Hook(0, 0), Idle, Proceeds, Hook(0, 1), Hooking(copies, 1));
    FirstMoves(Hooking(copies, 1), other, Hook(0, 1), Idle, Proceeds, AttachWait(0, 1), Hooking(copies, 1));
  }

  // ----- The child is killed while ptrace attaches to it -----

  lemma SecondCallsKill(ch: Child, other: Child, first: Pc)
    requires Reachable(Scene(ch, other, first, Idle)) && ch.handle.published
    ensures Reachable(Scene(ch, other, first, KillLock(0)))
  {
    assert [first, Idle][1 := KillLock(0)] == [first, KillLock(0)];
    ReachableStep(Scene(ch, other, first, Idle), CallKill(1, 0), Scene(ch, other, first, KillLock(0)));
  }

  /** The second thread calls `kill` and sends the signal, whatever the first one is doing. */
  lemma SecondKills(ch: Child, other: Child, first: Pc, locked: Child, after: Child)
    requires Reachable(Scene(ch, other, first, Idle))
    requires ch.handle.published && ch.handle.reapable && ch.handle.stateLock.None?
    requires locked == ch.(handle := ch.handle.(stateLock := Some(1))) && after == SendKill(locked)
    ensures Reachable(Scene(after, other, first, KillUnlock(0)))
  {
    SecondCallsKill(ch, other, first);
    SecondMoves(ch, other, first, KillLock(0), KillCheck(0), locked);
    SecondMoves(locked, other, first, KillCheck(0), KillSignal(0), locked);
    SecondMoves(locked, other, first, KillSignal(0), KillUnlock(0), after);
  }

  lemma AttachingAlone()
    ensures Reachable(Scene(Hooking({}, 1), InSpawn(Unmade, 0), AttachWait(0, 1), Idle))
  {
    SpawnedReachable();
    AttachingReachable({}, InSpawn(Unmade, 0));
  }

  /** The first child while its supervisor attaches and the second thread has just killed it. */
  function Killed(phase: Phase): Child {
    Child(
      [Memory, Ptrace], false,
      Process(phase, 2, false, false, phase == BeforeGate, false),
      Handle(true, Some(0), Some(1), true, Running, false, false, 0, false, {}),
      Log(1, false, 1, false, 1, false, phase == Gone, false, []))
  }

  lemma SignalledWhileAttaching()
    ensures Reachable(Scene(Killed(BeforeGate), InSpawn(Unmade, 0), AttachWait(0, 1), KillUnlock(0)))
  {
    AttachingAlone();
    var c0 := Hooking({}, 1);
    SecondKills(c0, InSpawn(Unmade, 0), AttachWait(0, 1), c0.(handle := c0.handle.(stateLock := Some(1))),
                Killed(BeforeGate));
  }

  lemma KilledWhileAttaching()
    ensures Reachable(Scene(Killed(Zombie), InSpawn(Unmade, 0), AttachWait(0, 1), KillUnlock(0)))
  {
    SignalledWhileAttaching();
    ChildActs(Killed(BeforeGate), InSpawn(Unmade, 0), AttachWait(0, 1), KillUnlock(0), Dies, Killed(Zombie));
  }

  lemma ReapedWhileAttaching()
    ensures Reachable(Scene(Killed(Gone), InSpawn(Unmade, 0), AttachSet(0, 1), KillUnlock(0)))
  {
    KilledWhileAttaching();
    FirstMoves(Killed(Zombie), InSpawn(Unmade, 0), AttachWait(0, 1), KillUnlock(0), Proceeds, AttachSet(0, 1),
               Killed(Gone));
  }

  /** A run that misuses the pid exists: a second thread kills the child between ptrace's
      attach and its wait, the wait reaps it, and the next ptrace call goes to a pid that is
      no longer the child's. */
  lemma KillDuringAttachMisusesPid()
    ensures exists s :: Reachable(s) && s.children != [] && s.children[0].log.misused
  {
    var c4, other := Killed(Gone), InSpawn(Unmade, 0);
    ReapedWhileAttaching();
    var c5 := c4.(
      handle := c4.handle.(runError := true),
      log := c4.log.(misused := true, hookFailed := true, bodyFailed := true));
    FirstMoves(c4, other, AttachSet(0, 1), KillUnlock(0), Proceeds, CleanKill(0), c5);
    assert Scene(c5, other, CleanKill(0), KillUnlock(0)).children[0].log.misused;
  }

  // ----- A second child keeps the pipe of the first one open -----

  /** The first child after all parent hooks, with its supervisor at the gate or past it. */
  function Watched(phase: Phase): Child {
    Child(
      [Memory, Ptrace], false,
      Process(phase, 2, false, phase != BeforeGate, phase != Executing, phase == Executing),
      Handle(true, Some(0), None, true, Running, true, false, 0, false, {1}),
      Log(2, false, 1, false, 0, false, false, false, []))
  }

  lemma HookedReachable()
    ensures Reachable(Scene(Hooking({1}, 2), Spawned({}), Hook(0, 2), Idle))
  {
    var other := Spawned({});
    BothSpawnedReachable();
    AttachingReachable({1}, other);
    FirstMoves(Hooking({1}, 1), other, AttachWait(0, 1), Idle, Proceeds, AttachSet(0, 1), Hooking({1}, 1));
    FirstMoves(Hooking({1}, 1), other, AttachSet(0, 1), Idle, Proceeds, Hook(0, 2), Hooking({1}, 2));
  }

  lemma GateReachable()
    ensures Reachable(Scene(Watched(BeforeGate), Spawned({}), GateWait(0), Idle))
  {
    var other := Spawned({});
    HookedReachable();
    FirstMoves(Hooking({1}, 2), other, Hook(0, 2), Idle, Proceeds, Gate(0), Hooking({1}, 2));
    FirstMoves(Hooking({1}, 2), other, Gate(0), Idle, Proceeds, GateWait(0), Watched(BeforeGate));
  }

  lemma ExecReachable()
    ensures Reachable(Scene(Watched(Executing), Spawned({}), GateWait(0), Idle))
  {
    var other := Spawned({});
    GateReachable();
    ChildActs(Watched(BeforeGate), other, GateWait(0), Idle, Arrive, Watched(AtGate));
    ChildActs(Watched(AtGate), other, GateWait(0), Idle, PassGate, Watched(Released));
    ChildActs(Watched(Released), other, GateWait(0), Idle, ExecSucceeds, Watched(Executing));
  }

  lemma WatchReachable()
    ensures Reachable(Scene(Watched(Executing), Spawned({}), Wakeup(0), Idle))
  {
    ExecReachable();
    FirstMoves(Watched(Executing), Spawned({}), GateWait(0), Idle, Proceeds, Wakeup(0), Watched(Executing));
  }

  lemma StillShared(ch: Child, pc: Pc)
    requires 1 in ch.handle.copies
    ensures SharedPipe(Scene(ch, Spawned({}), pc, Idle), 0)
  {
    assert KeepsDescriptors(Scene(ch, Spawned({}), pc, Idle).children[1].proc);
  }

  /** After two calls of `spawn`, running the first child lets it execute while its memory
      listener waits in vain for the end of file: the second child, at its own gate, holds a
      copy of the write end. */
  lemma ExecutingUnseen()
    ensures exists s :: Reachable(s) && s.threads != [] && s.threads[0] == Wakeup(0) && s.children != [] &&
                        Memory in s.children[0].kinds && s.children[0].proc.phase.Executing? &&
                        !PipeClosed(s.children[0], SharedPipe(s, 0))
  {
    WatchReachable();
    StillShared(Watched(Executing), Wakeup(0));
    var s := Scene(Watched(Executing), Spawned({}), Wakeup(0), Idle);
    assert Reachable(s) && s.threads[0] == Wakeup(0) && !PipeClosed(s.children[0], SharedPipe(s, 0));
  }

  /** The first child when it has ended, by the position of its supervisor. */
  function Ended(pc: Pc): Child {
    Child(
      [Memory, Ptrace], false,
      Process(if pc.Return? then Gone else Zombie, 2, false, true, false, true),
      Handle(true, Some(0), if pc.CleanSet? then Some(0) else None, !pc.Reap? && !pc.Return?,
             if pc.Return? then Done else Running, true, false, 0, false, {1}),
      Log(2, false, 1, false, if pc.CleanLock? || pc.CleanSet? || pc.Reap? || pc.Return? then 1 else 0, false, false,
          false, []))
  }

  /** The supervisor's way from the end of the child to the return from `run`. */
  const WAY_OUT: seq<Pc> :=
    [Wait(0), Pc.Ended(0), Post(0), CleanKill(0), CleanLock(0), CleanSet(0), Reap(0), Return(0)]

  lemma EndingStep(seen: Seen)
    requires seen.result == 0
    ensures WatchStep(Wait(0), Ended(Wait(0)), Proceeds, seen) == To(Pc.Ended(0), Ended(Pc.Ended(0)))
  {}

  lemma FinishingStep(seen: Seen)
    requires seen.result == 0
    ensures FinishStep(Pc.Ended(0), Ended(Pc.Ended(0)), Proceeds, seen) == To(Post(0), Ended(Post(0)))
    ensures FinishStep(Post(0), Ended(Post(0)), Proceeds, seen) == To(CleanKill(0), Ended(CleanKill(0)))
  {}

  lemma CleaningStep(i: nat)
    requires 3 <= i < 7
    ensures CleanStep(WAY_OUT[i], Ended(WAY_OUT[i]), 0) == To(WAY_OUT[i + 1], Ended(WAY_OUT[i + 1]))
  {}

  lemma WayOutStep(i: nat)
    requires i < 7
    ensures FirstStep(Ended(WAY_OUT[i]), Spawned({}), WAY_OUT[i], Proceeds) == To(WAY_OUT[i + 1], Ended(WAY_OUT[i + 1]))
  {
    var seen := Seen(0, SharedPipe(Scene(Ended(WAY_OUT[i]), Spawned({}), WAY_OUT[i], Idle), 0));
    if i == 0 {
      EndingStep(seen);
    } else if i == 1 || i == 2 {
      FinishingStep(seen);
    } else {
      CleaningStep(i);
    }
  }

  lemma {:induction false} WayOutReachable(i: nat)
    requires i < 8 && Reachable(Scene(Ended(Wait(0)), Spawned({}), Wait(0), Idle))
    ensures Reachable(Scene(Ended(WAY_OUT[i]), Spawned({}), WAY_OUT[i], Idle))
  {
    if i > 0 {
      WayOutReachable(i - 1);
      WayOutStep(i - 1);
      FirstMoves(Ended(WAY_OUT[i - 1]), Spawned({}), WAY_OUT[i - 1], Idle, Proceeds, WAY_OUT[i], Ended(WAY_OUT[i]));
    }
  }

  lemma WakeupUnseen()
    ensures FirstStep(Watched(Executing), Spawned({}), Wakeup(0), Proceeds) == To(Wait(0), Watched(Executing))
  {
    StillShared(Watched(Executing), Wakeup(0));
  }

  lemma WaitingUnseen()
    ensures Reachable(Scene(Watched(Executing), Spawned({}), Wait(0), Idle))
  {
    WatchReachable();
    WakeupUnseen();
    FirstMoves(Watched(Executing), Spawned({}), Wakeup(0), Idle, Proceeds, Wait(0), Watched(Executing));
  }

  /** The whole run can go by like that, and succeed without a single sample. */
  lemma WholeRunUnseen()
    ensures exists s :: Reachable(s) && s.children != [] && Memory in s.children[0].kinds &&
                        s.children[0].proc.execed && s.children[0].handle.once == Done &&
                        !s.children[0].log.bodyFailed && !s.children[0].log.eofSeen
  {
    WaitingUnseen();
    ChildActs(Watched(Executing), Spawned({}), Wait(0), Idle, Dies, Ended(Wait(0)));
    WayOutReachable(7);
    assert Scene(Ended(Return(0)), Spawned({}), Return(0), Idle).children[0] == Ended(Return(0));
  }
}
