/**
 The inductive invariant of the protocol: what every reachable state, in every
 interleaving, keeps.
 */
module ProtocolInvariant {
  import opened ExecutionResults
  import opened Verdicts
  import opened Protocol

  // ----- Who holds what -----

  predicate InRun(pc: Pc) {
    !pc.Idle? && !pc.RunLock? && !InKill(pc)
  }

  predicate InKill(pc: Pc) {
    pc.KillLock? || pc.KillCheck? || pc.KillSignal? || pc.KillUnlock?
  }

  predicate HoldsInternals(pc: Pc, c: Cid) {
    InRun(pc) && pc.c == c
  }

  predicate LocksState(pc: Pc) {
    pc.CleanSet? || pc.KillCheck? || pc.KillSignal? || pc.KillUnlock?
  }

  predicate HoldsState(pc: Pc, c: Cid) {
    LocksState(pc) && pc.c == c
  }

  predicate HoldsData(pc: Pc) {
    pc.RegInsert? || pc.UnregRemove?
  }

  // ----- One child, with the position of the thread that holds child_internals -----

  /** The process, by how far it has come. */
  predicate PhaseFacts(proc: Process, listeners: nat, memory: bool, published: bool, parentAtGate: bool) {
    && (published ==> proc.childHooks == listeners)
    && (parentAtGate ==> published)
    && (proc.execed ==> parentAtGate)
    && match proc.phase
       case Unmade => proc.childHooks == 0 && !published && !proc.writeEnd
       case Made => proc.childHooks == 0 && !published && !proc.writeEnd
       case Setup => proc.childHooks <= listeners && !published && proc.writeEnd == memory
       case AtReady => proc.childHooks == listeners && !published && proc.writeEnd == memory
       case BeforeGate => published && !proc.execed && proc.writeEnd == memory
       case AtGate => published && !proc.execed && proc.writeEnd == memory && proc.arrived
       case Released => published && !proc.execed && proc.writeEnd == memory && proc.arrived && parentAtGate
       case Executing => proc.execed && !proc.writeEnd && proc.arrived
       case Zombie => !proc.writeEnd
       case Gone => !proc.writeEnd
  }

  predicate ProcessFacts(ch: Child) {
    && PhaseFacts(ch.proc, |ch.kinds|, Memory in ch.kinds, ch.handle.published, ch.handle.parentAtGate)
    && (ch.log.eofSeen ==> !ch.proc.writeEnd && Memory in ch.kinds && ch.handle.published)
    && (ch.handle.parentAtGate ==> ch.log.parentHooks == |ch.kinds| && !ch.log.hookFailed)
    && (ch.log.misused ==> ch.log.attachReaped)
    && (ch.log.attachReaped ==> ch.proc.phase.Gone?)
  }

  predicate Untried(ch: Child) {
    && !ch.handle.parentAtGate && ch.log.parentHooks == 0 && !ch.log.hookFailed && !ch.log.attachReaped && !ch.log.bodyFailed
    && !ch.handle.runError && ch.log.returned == [] && ch.log.bodies == 0 && ch.handle.reapable && !ch.proc.phase.Gone?
  }

  /** The first `hooks` parent hooks have succeeded, and the gate is still closed. */
  predicate Opening(ch: Child, hooks: nat) {
    && !ch.handle.parentAtGate && !ch.log.bodyFailed && ch.handle.reapable
    && ch.log.parentHooks == hooks <= |ch.kinds|
  }

  predicate Supervising(ch: Child) {
    ch.handle.parentAtGate && !ch.log.bodyFailed && ch.handle.reapable && !ch.log.attachReaped
  }

  /** The child has been through the gate and has left no error behind. */
  predicate CleanlyEnded(proc: Process) {
    proc.phase.Zombie? && proc.arrived && !proc.childError
  }

  predicate Closing(ch: Child) {
    && (ch.log.attachReaped ==> ch.log.misused)
    && (!ch.log.bodyFailed ==> ch.proc.phase.Zombie? && !ch.proc.childError)
  }

  /** What holds while the body runs, by the position of the thread that runs it. */
  predicate BodyFacts(ch: Child, pc: Pc) {
    && ch.handle.published && ch.handle.once == Running && ch.log.bodies == 1 && ch.log.returned == []
    && ch.handle.runError == ch.log.bodyFailed
    && (ch.log.hookFailed ==> ch.log.bodyFailed)
    && (ch.proc.phase.Gone? <==> ch.log.attachReaped)
    && match pc
       case BodyStart(_) => Opening(ch, 0) && !ch.log.attachReaped
       case Hook(_, i) => Opening(ch, i) && !ch.log.attachReaped
       case AttachWait(_, i) => Opening(ch, i) && i < |ch.kinds| && ch.kinds[i] == Ptrace && !ch.log.attachReaped
       case AttachSet(_, i) => Opening(ch, i) && i < |ch.kinds| && ch.kinds[i] == Ptrace
       case RegOnce(_) | RegSpawn(_) | RegHandler(_) | RegLock(_) | RegInsert(_) =>
         Opening(ch, |ch.kinds|) && !ch.log.attachReaped && ch.periodic
       case Gate(_) => Opening(ch, |ch.kinds|) && !ch.log.attachReaped
       case GateWait(_) => Supervising(ch)
       case Wakeup(_) | KillVote(_) | Wait(_) => Supervising(ch) && ch.proc.arrived
       case Ended(_) | Post(_) => Supervising(ch) && CleanlyEnded(ch.proc)
       case UnregLock(_) | UnregRemove(_) => Supervising(ch) && CleanlyEnded(ch.proc) && ch.periodic
       case CleanKill(_) => Closing(ch) && ch.handle.reapable
       case CleanLock(_) | CleanSet(_) => Closing(ch) && ch.handle.reapable && ch.log.signals > 0
       case Reap(_) => Closing(ch) && !ch.handle.reapable && ch.log.signals > 0
       case _ => false
  }

  /** What the callers of `run` have been told. */
  predicate ReturnFacts(ch: Child) {
    && (ch.handle.runError ==> ch.log.bodyFailed && ch.log.returned == [])
    && (ch.log.bodyFailed && ch.log.returned == [] ==> ch.handle.runError)
    && forall i :: 0 <= i < |ch.log.returned| ==>
         ch.log.returned[i] == if ch.log.bodyFailed && i == 0 then GotError else GotResult(ch.handle.result)
  }

  /** What holds once the body has been left. */
  predicate DoneFacts(ch: Child) {
    && ch.handle.published && ch.handle.once == Done && ch.log.bodies == 1 && !ch.handle.reapable && ch.log.signals > 0
    && (ch.log.attachReaped ==> ch.log.misused)
    && (ch.log.hookFailed ==> ch.log.bodyFailed)
    && (!ch.log.bodyFailed ==> ch.proc.phase.Gone? && !ch.proc.childError)
    && ReturnFacts(ch)
  }

  /** All of this, with the position of the thread that holds child_internals (Idle if none). */
  predicate ChildFacts(ch: Child, holder: Pc) {
    && ProcessFacts(ch)
    && (ch.log.attachReaped ==> Ptrace in ch.kinds)
    && match ch.handle.once
       case New => Untried(ch) && (holder.Idle? || holder.CallOnce?)
       case Running => BodyFacts(ch, holder)
       case Done => DoneFacts(ch) && (holder.Idle? || holder.CallOnce? || holder.Return?)
  }

  lemma {:induction false} MemoryAmongMeaning(kinds: seq<Kind>, n: nat)
    requires n <= |kinds|
    ensures MemoryAmong(kinds, n) <==> Memory in kinds[..n]
  {
    if n > 0 {
      MemoryAmongMeaning(kinds, n - 1);
      assert kinds[..n] == kinds[..n - 1] + [kinds[n - 1]];
    }
  }

  /** The memory listener exists and its parent hook has not succeeded yet. */
  predicate MemoryHookPending(ch: Child) {
    && !ch.proc.phase.Unmade? && Memory in ch.kinds
    && ch.log.parentHooks <= |ch.kinds| && !MemoryAmong(ch.kinds, ch.log.parentHooks)
  }

  /** It is in just that time that the supervisor has the write end of the pipe. */
  predicate PipeFacts(ch: Child) {
    ch.log.parentHooks <= |ch.kinds| && ch.handle.writeEnd == MemoryHookPending(ch)
  }

  // ----- The registry -----

  /** The thread has registered itself and not yet removed itself again. */
  predicate ShouldBeRegistered(pc: Pc, periodic: bool) {
    && periodic
    && (pc.Gate? || pc.GateWait? || pc.Wakeup? || pc.KillVote? || pc.Wait? || pc.Ended? || pc.UnregLock? || pc.UnregRemove?)
  }

  /** The thread has removed itself in a run that has met no error since. */
  predicate ShouldBeUnregistered(pc: Pc, ch: Child) {
    && ch.periodic
    && (pc.Post? || ((pc.CleanKill? || pc.CleanLock? || pc.CleanSet? || pc.Reap?) && !ch.log.bodyFailed))
  }

  predicate PastRegistryOnce(pc: Pc) {
    pc.RegLock? || pc.RegInsert?
  }

  predicate RegistryFacts(reg: Registry) {
    && !reg.badSignal
    && (reg.handlerInstalled <==> reg.once.Initialized?)
    && (reg.registered != {} ==> reg.handlerInstalled)
    && (reg.once.Untouched? ==> reg.ticker.NotSpawned?)
    && (reg.ticker.Iterating? <==> reg.lock.HeldByTicker?)
    && (reg.ticker.Iterating? ==> reg.ticker.todo <= reg.registered)
  }

  // ----- The system -----

  function Holder(s: State, c: Cid): Pc
    requires c < |s.children|
  {
    var t := s.children[c].handle.internals;
    if t.Some? && t.value < |s.threads| then s.threads[t.value] else Idle
  }

  /** The recorded holder of child_internals does hold it ... */
  predicate InternalsOk(s: State, c: Cid)
    requires c < |s.children|
  {
    var lock := s.children[c].handle.internals;
    lock.Some? ==> lock.value < |s.threads| && HoldsInternals(s.threads[lock.value], c)
  }

  /** ... and so does that of child_state. */
  predicate StateLockOk(s: State, c: Cid)
    requires c < |s.children|
  {
    var lock := s.children[c].handle.stateLock;
    lock.Some? ==> lock.value < |s.threads| && HoldsState(s.threads[lock.value], c)
  }

  predicate LocksOk(s: State, c: Cid)
    requires c < |s.children|
  {
    InternalsOk(s, c) && StateLockOk(s, c)
  }

  predicate ChildOk(s: State, c: Cid)
    requires c < |s.children|
  {
    LocksOk(s, c) && ChildFacts(s.children[c], Holder(s, c)) && PipeFacts(s.children[c])
  }

  predicate ThreadOk(s: State, t: Tid)
    requires t < |s.threads|
  {
    var pc := s.threads[t];
    && (pc.Idle? || (pc.c < |s.children| && ThreadAt(pc, s.children[pc.c], t)))
    && ThreadInRegistry(pc, s.registry, t)
  }

  predicate ThreadAt(pc: Pc, ch: Child, t: Tid)
    requires !pc.Idle?
  {
    && ch.handle.published
    && (InRun(pc) ==> ch.handle.internals == Some(t))
    && (HoldsState(pc, pc.c) ==> ch.handle.stateLock == Some(t))
    && (pc.KillSignal? ==> ch.handle.reapable)
  }

  predicate ThreadInRegistry(pc: Pc, reg: Registry, t: Tid) {
    && (pc.RegSpawn? || pc.RegHandler? ==> reg.once == InitializedBy(t))
    && (pc.RegSpawn? ==> reg.ticker.NotSpawned?)
    && (PastRegistryOnce(pc) ==> reg.once.Initialized?)
    && (HoldsData(pc) ==> reg.lock == HeldBy(t))
    && !pc.AssertionFailed?
  }

  predicate RegistryOk(s: State) {
    && RegistryFacts(s.registry)
    && (s.registry.lock.HeldBy? ==> s.registry.lock.t < |s.threads| && HoldsData(s.threads[s.registry.lock.t]))
    && (s.registry.once.InitializedBy? ==>
          s.registry.once.t < |s.threads| &&
          (s.threads[s.registry.once.t].RegSpawn? || s.threads[s.registry.once.t].RegHandler?))
  }

  /** The thread is registered when it has to be, and not when it must not be. */
  predicate Registered(s: State, t: Tid)
    requires t < |s.threads|
  {
    var pc := s.threads[t];
    !pc.Idle? && pc.c < |s.children| ==>
      && (ShouldBeRegistered(pc, s.children[pc.c].periodic) ==> t in s.registry.registered)
      && (ShouldBeUnregistered(pc, s.children[pc.c]) ==> t !in s.registry.registered)
  }

  predicate Invariant(s: State) {
    && (forall c :: 0 <= c < |s.children| ==> ChildOk(s, c))
    && (forall t :: 0 <= t < |s.threads| ==> ThreadOk(s, t))
    && (forall t :: 0 <= t < |s.threads| ==> Registered(s, t))
    && RegistryOk(s)
  }

  // ----- One step, seen from one child -----

  /** The position of the holder of child_internals (Idle if nobody holds it) after thread t has moved from pc to next. */
  function NextHolder(pc: Pc, next: Pc, c: Cid, holder: Pc): Pc {
    if HoldsInternals(next, c) then next
    else if HoldsInternals(pc, c) then Idle
    else holder
  }

  lemma HookOneKeepsBody(c: Cid, i: nat, ch: Child, kind: Kind, how: How, next: Pc, after: Child)
    requires i < |ch.kinds| && ch.kinds[i] == kind
    requires BodyFacts(ch, Hook(c, i)) && HookOne(c, i, kind, ch, how) == To(next, after)
    ensures BodyFacts(after, next)
  {}

  lemma HookOneKeepsProcess(c: Cid, i: nat, ch: Child, kind: Kind, how: How, next: Pc, after: Child)
    requires ProcessFacts(ch) && Opening(ch, i) && (ch.proc.phase.Gone? ==> ch.log.attachReaped)
    requires HookOne(c, i, kind, ch, how) == To(next, after)
    ensures ProcessFacts(after)
  {}

  lemma HookKeepsBody(pc: Pc, ch: Child, how: How, next: Pc, after: Child)
    requires ProcessFacts(ch) && BodyFacts(ch, pc) && HookStep(pc, ch, how) == To(next, after)
    ensures ProcessFacts(after) && BodyFacts(after, next)
  {
    if pc.Hook? && pc.i < |ch.kinds| {
      HookOneKeepsBody(pc.c, pc.i, ch, ch.kinds[pc.i], how, next, after);
      HookOneKeepsProcess(pc.c, pc.i, ch, ch.kinds[pc.i], how, next, after);
    }
  }

  lemma AttachKeepsBody(pc: Pc, ch: Child, how: How, next: Pc, after: Child)
    requires BodyFacts(ch, pc) && AttachStep(pc, ch, how) == To(next, after)
    ensures BodyFacts(after, next)
  {}

  lemma AttachKeepsProcess(pc: Pc, ch: Child, how: How, next: Pc, after: Child)
    requires ProcessFacts(ch) && BodyFacts(ch, pc) && AttachStep(pc, ch, how) == To(next, after)
    ensures ProcessFacts(after)
  {}

  lemma GateKeepsBody(pc: Pc, ch: Child, next: Pc, after: Child)
    requires BodyFacts(ch, pc) && GateStep(pc, ch) == To(next, after)
    ensures BodyFacts(after, next)
    ensures ProcessFacts(ch) ==> ProcessFacts(after)
  {}

  lemma WatchKeepsBody(pc: Pc, ch: Child, how: How, seen: Seen, next: Pc, after: Child)
    requires BodyFacts(ch, pc) && WatchStep(pc, ch, how, seen) == To(next, after)
    ensures BodyFacts(after, next)
  {}

  lemma FinishKeepsBody(pc: Pc, ch: Child, how: How, seen: Seen, next: Pc, after: Child)
    requires BodyFacts(ch, pc) && FinishStep(pc, ch, how, seen) == To(next, after)
    ensures BodyFacts(after, next)
  {}

  lemma WatchKeepsProcess(pc: Pc, ch: Child, how: How, seen: Seen, next: Pc, after: Child)
    requires ProcessFacts(ch) && Supervising(ch) && !ch.proc.phase.Gone?
    requires WatchStep(pc, ch, how, seen) == To(next, after)
    ensures ProcessFacts(after)
  {}

  lemma FinishKeepsProcess(pc: Pc, ch: Child, how: How, seen: Seen, next: Pc, after: Child)
    requires ProcessFacts(ch) && Supervising(ch) && !ch.proc.phase.Gone?
    requires FinishStep(pc, ch, how, seen) == To(next, after)
    ensures ProcessFacts(after)
  {}

  lemma CleanKeepsBody(pc: Pc, ch: Child, t: Tid, next: Pc, after: Child)
    requires ProcessFacts(ch) && BodyFacts(ch, pc) && CleanStep(pc, ch, t) == To(next, after)
    ensures ProcessFacts(after)
    ensures if next.Return? then DoneFacts(after) else BodyFacts(after, next)
  {}

  lemma ReturnKeepsFacts(pc: Pc, ch: Child, t: Tid, next: Pc, after: Child)
    requires pc.Return? && ProcessFacts(ch) && DoneFacts(ch) && CleanStep(pc, ch, t) == To(next, after)
    ensures ProcessFacts(after) && DoneFacts(after)
  {}

  lemma LockingKeepsFacts(pc: Pc, ch: Child, t: Tid, next: Pc, after: Child)
    requires ChildFacts(ch, if pc.CallOnce? then pc else Idle) && ch.handle.published
    requires LockingStep(pc, ch, t) == To(next, after)
    ensures ChildFacts(after, next)
  {}

  lemma StateLockKeepsFacts(ch: Child, lock: Option<Tid>, holder: Pc)
    requires ChildFacts(ch, holder)
    ensures ChildFacts(ch.(handle := ch.handle.(stateLock := lock)), holder)
  {}

  lemma SignalKeepsFacts(ch: Child, holder: Pc)
    requires ChildFacts(ch, holder) && ch.handle.reapable
    ensures ChildFacts(SendKill(ch), holder)
  {}

  lemma KillKeepsFacts(pc: Pc, ch: Child, t: Tid, next: Pc, after: Child, holder: Pc)
    requires ChildFacts(ch, holder) && (pc.KillSignal? ==> ch.handle.reapable)
    requires KillStep(pc, ch, t) == To(next, after)
    ensures ChildFacts(after, NextHolder(pc, next, pc.c, holder))
  {
    assert NextHolder(pc, next, pc.c, holder) == holder;
    if pc.KillSignal? {
      SignalKeepsFacts(ch, holder);
    } else {
      StateLockKeepsFacts(ch, after.handle.stateLock, holder);
    }
  }

  lemma ProcessEventKeepsPhase(ch: Child, e: ChildEvent, next: Process)
    requires ProcessFacts(ch) && ProcessStep(ch, e) == Some(next)
    ensures ProcessFacts(ch.(proc := next))
    ensures !ch.proc.phase.Zombie? && !ch.proc.phase.Gone? && !next.phase.Gone?
  {}

  lemma ProcessEventKeepsFacts(ch: Child, e: ChildEvent, next: Process, holder: Pc)
    requires ChildFacts(ch, holder) && ProcessStep(ch, e) == Some(next)
    ensures ChildFacts(ch.(proc := next), holder)
  {
    ProcessEventKeepsPhase(ch, e, next);
  }

  lemma HandleEventKeepsFacts(ch: Child, e: ChildEvent, after: Child, holder: Pc)
    requires ChildFacts(ch, holder) && ChildEventStep(ch, e) == Some(after)
    requires e.Publish? || e.Make?
    ensures ChildFacts(after, holder)
  {}

  lemma EventKeepsPipe(ch: Child, e: ChildEvent, after: Child)
    requires PipeFacts(ch) && (ch.proc.phase.Unmade? ==> ch.log.parentHooks == 0)
    requires ChildEventStep(ch, e) == Some(after)
    ensures PipeFacts(after)
  {}

  lemma EventKeepsFacts(ch: Child, e: ChildEvent, after: Child, holder: Pc)
    requires ChildFacts(ch, holder) && ChildEventStep(ch, e) == Some(after)
    ensures ChildFacts(after, holder)
  {
    if e.Publish? || e.Make? {
      HandleEventKeepsFacts(ch, e, after, holder);
    } else {
      ProcessEventKeepsFacts(ch, e, after.proc, holder);
    }
  }

  /** Nothing is cloned before it has been made, and the clone gets every open descriptor. */
  lemma CloneKeepsFacts(ch: Child, holder: Pc)
    requires ChildFacts(ch, holder) && PipeFacts(ch) && ch.proc.phase.Made?
    ensures ChildFacts(Cloned(ch), holder) && PipeFacts(Cloned(ch))
    ensures EventFramed(ch, Cloned(ch))
  {}

  lemma InheritingKeepsFacts(ch: Child, c: Cid, holder: Pc)
    requires ChildFacts(ch, holder) && PipeFacts(ch)
    ensures ChildFacts(Inherited(ch, c), holder) && PipeFacts(Inherited(ch, c))
    ensures EventFramed(ch, Inherited(ch, c))
  {}

  /** What a child does by itself leaves the locks and the history alone. */
  predicate EventFramed(ch: Child, after: Child) {
    && after.kinds == ch.kinds && after.periodic == ch.periodic && after.log == ch.log
    && after.handle.internals == ch.handle.internals && after.handle.stateLock == ch.handle.stateLock
    && after.handle.reapable == ch.handle.reapable
    && (ch.handle.published ==> after.handle.published)
  }

  lemma EventFrame(ch: Child, e: ChildEvent, after: Child)
    requires ChildEventStep(ch, e) == Some(after)
    ensures EventFramed(ch, after)
  {}

  predicate SamePipe(ch: Child, after: Child) {
    && after.kinds == ch.kinds && after.handle.writeEnd == ch.handle.writeEnd
    && after.log.parentHooks == ch.log.parentHooks && after.proc.phase.Unmade? == ch.proc.phase.Unmade?
  }

  /** A step of the thread at pc touches its child only where its locks allow it. */
  predicate Framed(pc: Pc, ch: Child, t: Tid, next: Pc, after: Child) {
    && after.kinds == ch.kinds && after.periodic == ch.periodic && after.handle.published == ch.handle.published
    && !pc.Idle? && (next.Idle? || next.c == pc.c)
    && (if InRun(pc) == InRun(next) then after.handle.internals == ch.handle.internals
        else if InRun(next) then ch.handle.internals.None? && after.handle.internals == Some(t)
        else after.handle.internals.None?)
    && (if LocksState(pc) == LocksState(next) then after.handle.stateLock == ch.handle.stateLock
        else if LocksState(next) then ch.handle.stateLock.None? && after.handle.stateLock == Some(t)
        else after.handle.stateLock.None?)
    && (pc.CleanSet? || after.handle.reapable == ch.handle.reapable)
    && (next.KillSignal? ==> after.handle.reapable)
    && (pc.AttachWait? || after.log.attachReaped == ch.log.attachReaped)
    && (pc.Hook? || pc.AttachSet? || SamePipe(ch, after))
    && after.handle.copies == ch.handle.copies
    && !next.AssertionFailed? && (IsRegistryPc(next) ==> next.RegOnce? || next.UnregLock?)
    && (ShouldBeRegistered(next, after.periodic) ==> ShouldBeRegistered(pc, ch.periodic))
    && (ShouldBeUnregistered(next, after) ==> ShouldBeUnregistered(pc, ch))
    && (after.log.bodyFailed == ch.log.bodyFailed || InRun(pc))
  }

  lemma LockingFrame(pc: Pc, ch: Child, t: Tid, next: Pc, after: Child)
    requires LockingStep(pc, ch, t) == To(next, after)
    ensures Framed(pc, ch, t, next, after)
  {}

  lemma HookOneFrame(c: Cid, i: nat, kind: Kind, ch: Child, t: Tid, how: How, next: Pc, after: Child)
    requires HookOne(c, i, kind, ch, how) == To(next, after)
    ensures Framed(Hook(c, i), ch, t, next, after)
  {}

  lemma HookFrame(pc: Pc, ch: Child, t: Tid, how: How, next: Pc, after: Child)
    requires HookStep(pc, ch, how) == To(next, after)
    ensures Framed(pc, ch, t, next, after)
  {
    if pc.Hook? && pc.i < |ch.kinds| {
      HookOneFrame(pc.c, pc.i, ch.kinds[pc.i], ch, t, how, next, after);
    }
  }

  lemma AttachFrame(pc: Pc, ch: Child, t: Tid, how: How, next: Pc, after: Child)
    requires AttachStep(pc, ch, how) == To(next, after)
    ensures Framed(pc, ch, t, next, after)
  {}

  lemma GateFrame(pc: Pc, ch: Child, t: Tid, next: Pc, after: Child)
    requires GateStep(pc, ch) == To(next, after)
    ensures Framed(pc, ch, t, next, after)
  {}

  lemma WatchFrame(pc: Pc, ch: Child, t: Tid, how: How, seen: Seen, next: Pc, after: Child)
    requires WatchStep(pc, ch, how, seen) == To(next, after)
    ensures Framed(pc, ch, t, next, after)
  {}

  lemma FinishFrame(pc: Pc, ch: Child, t: Tid, how: How, seen: Seen, next: Pc, after: Child)
    requires FinishStep(pc, ch, how, seen) == To(next, after)
    ensures Framed(pc, ch, t, next, after)
  {
    if pc.Ended? {
      assert after == ch;
    }
  }

  lemma CleanFrame(pc: Pc, ch: Child, t: Tid, next: Pc, after: Child)
    requires CleanStep(pc, ch, t) == To(next, after)
    ensures Framed(pc, ch, t, next, after)
  {}

  lemma KillFrame(pc: Pc, ch: Child, t: Tid, next: Pc, after: Child)
    requires KillStep(pc, ch, t) == To(next, after)
    ensures Framed(pc, ch, t, next, after)
  {}

  lemma StepFrame(pc: Pc, ch: Child, t: Tid, how: How, seen: Seen, next: Pc, after: Child)
    requires ChildStep(pc, ch, t, how, seen) == To(next, after)
    ensures Framed(pc, ch, t, next, after)
  {
    if pc.RunLock? || pc.CallOnce? {
      LockingFrame(pc, ch, t, next, after);
    } else if pc.BodyStart? || pc.Hook? {
      HookFrame(pc, ch, t, how, next, after);
    } else if pc.AttachWait? || pc.AttachSet? {
      AttachFrame(pc, ch, t, how, next, after);
    } else if pc.Gate? || pc.GateWait? {
      GateFrame(pc, ch, t, next, after);
    } else if pc.Wakeup? || pc.KillVote? || pc.Wait? {
      WatchFrame(pc, ch, t, how, seen, next, after);
    } else if pc.Ended? || pc.Post? {
      FinishFrame(pc, ch, t, how, seen, next, after);
    } else if InKill(pc) {
      KillFrame(pc, ch, t, next, after);
    } else {
      CleanFrame(pc, ch, t, next, after);
    }
  }

  /** A step inside the body stays inside it, or leaves it for good. */
  lemma BodyStepKeepsFacts(pc: Pc, ch: Child, t: Tid, how: How, seen: Seen, next: Pc, after: Child)
    requires ProcessFacts(ch) && BodyFacts(ch, pc) && ChildStep(pc, ch, t, how, seen) == To(next, after)
    ensures ProcessFacts(after)
    ensures if next.Return? then DoneFacts(after) else BodyFacts(after, next)
  {
    if pc.BodyStart? || pc.Hook? {
      HookKeepsBody(pc, ch, how, next, after);
    } else if pc.AttachWait? || pc.AttachSet? {
      AttachKeepsBody(pc, ch, how, next, after);
      AttachKeepsProcess(pc, ch, how, next, after);
    } else if pc.Gate? || pc.GateWait? {
      GateKeepsBody(pc, ch, next, after);
    } else if pc.Wakeup? || pc.KillVote? || pc.Wait? {
      WatchKeepsBody(pc, ch, how, seen, next, after);
      WatchKeepsProcess(pc, ch, how, seen, next, after);
    } else if pc.Ended? || pc.Post? {
      FinishKeepsBody(pc, ch, how, seen, next, after);
      FinishKeepsProcess(pc, ch, how, seen, next, after);
    } else {
      CleanKeepsBody(pc, ch, t, next, after);
    }
  }

  lemma LockingStepKeepsFacts(pc: Pc, ch: Child, t: Tid, next: Pc, after: Child, holder: Pc)
    requires ch.handle.published && ChildFacts(ch, holder)
    requires if pc.CallOnce? then holder == pc else holder.Idle? == ch.handle.internals.None?
    requires LockingStep(pc, ch, t) == To(next, after)
    ensures ChildFacts(after, NextHolder(pc, next, pc.c, holder))
  {
    LockingKeepsFacts(pc, ch, t, next, after);
  }

  lemma ReturnStepKeepsFacts(pc: Pc, ch: Child, t: Tid, next: Pc, after: Child)
    requires pc.Return? && ChildFacts(ch, pc) && CleanStep(pc, ch, t) == To(next, after)
    ensures ChildFacts(after, NextHolder(pc, next, pc.c, pc))
  {
    ReturnKeepsFacts(pc, ch, t, next, after);
  }

  /** Inside the body of `run`. */
  predicate InBody(pc: Pc) {
    InRun(pc) && !pc.CallOnce? && !pc.Return?
  }

  lemma BodyKeepsChildFacts(pc: Pc, ch: Child, t: Tid, how: How, seen: Seen, next: Pc, after: Child)
    requires InBody(pc) && ChildFacts(ch, pc) && ChildStep(pc, ch, t, how, seen) == To(next, after)
    ensures ChildFacts(after, NextHolder(pc, next, pc.c, pc))
  {
    StepFrame(pc, ch, t, how, seen, next, after);
    BodyStepKeepsFacts(pc, ch, t, how, seen, next, after);
  }

  lemma SamePipeKeepsPipe(ch: Child, after: Child)
    requires PipeFacts(ch) && SamePipe(ch, after)
    ensures PipeFacts(after)
  {}

  /** One more parent hook has succeeded; that of the memory listener closes the write end. */
  predicate NextPipe(ch: Child, after: Child) {
    && after.kinds == ch.kinds && after.proc == ch.proc
    && after.log.parentHooks == ch.log.parentHooks + 1 <= |ch.kinds|
    && after.handle.writeEnd == (ch.handle.writeEnd && ch.kinds[ch.log.parentHooks] != Memory)
  }

  lemma NextPipeKeepsPipe(ch: Child, after: Child)
    requires PipeFacts(ch) && NextPipe(ch, after)
    ensures PipeFacts(after)
  {}

  lemma HookOneOnPipe(c: Cid, i: nat, kind: Kind, ch: Child, how: How, next: Pc, after: Child)
    requires i == ch.log.parentHooks < |ch.kinds| && kind == ch.kinds[i]
    requires HookOne(c, i, kind, ch, how) == To(next, after)
    ensures if kind.Ptrace? || (how.Fails? && !kind.Time?) then SamePipe(ch, after) else NextPipe(ch, after)
  {
    match kind
    case Time => assert after == HookDone(ch);
    case Memory => assert after.proc == ch.proc;
    case Perf => assert after.proc == ch.proc;
    case Ptrace => assert after.proc == ch.proc;
  }

  lemma HookKeepsPipe(pc: Pc, ch: Child, how: How, next: Pc, after: Child)
    requires PipeFacts(ch) && BodyFacts(ch, pc) && !ch.proc.phase.Unmade?
    requires HookStep(pc, ch, how) == To(next, after)
    ensures PipeFacts(after)
  {
    if pc.Hook? && pc.i < |ch.kinds| {
      HookOneOnPipe(pc.c, pc.i, ch.kinds[pc.i], ch, how, next, after);
      if SamePipe(ch, after) {
        SamePipeKeepsPipe(ch, after);
      } else {
        NextPipeKeepsPipe(ch, after);
      }
    }
  }

  lemma AttachKeepsPipe(pc: Pc, ch: Child, how: How, next: Pc, after: Child)
    requires PipeFacts(ch) && BodyFacts(ch, pc) && !ch.proc.phase.Unmade?
    requires AttachStep(pc, ch, how) == To(next, after)
    ensures PipeFacts(after)
  {}

  lemma StepKeepsPipe(pc: Pc, ch: Child, t: Tid, how: How, seen: Seen, next: Pc, after: Child, holder: Pc)
    requires PipeFacts(ch) && ch.handle.published && ChildFacts(ch, holder) && (InRun(pc) ==> holder == pc)
    requires ChildStep(pc, ch, t, how, seen) == To(next, after)
    ensures PipeFacts(after)
  {
    if pc.BodyStart? || pc.Hook? {
      HookKeepsPipe(pc, ch, how, next, after);
    } else if pc.AttachWait? || pc.AttachSet? {
      AttachKeepsPipe(pc, ch, how, next, after);
    } else {
      StepFrame(pc, ch, t, how, seen, next, after);
      SamePipeKeepsPipe(ch, after);
    }
  }

  /** A step of thread t on its child keeps the facts about the child. */
  lemma StepKeepsFacts(pc: Pc, ch: Child, t: Tid, how: How, seen: Seen, holder: Pc, next: Pc, after: Child)
    requires !pc.Idle? && !IsRegistryPc(pc) && ch.handle.published && (pc.KillSignal? ==> ch.handle.reapable)
    requires ChildFacts(ch, holder)
    requires if InRun(pc) then holder == pc else holder.Idle? == ch.handle.internals.None?
    requires ChildStep(pc, ch, t, how, seen) == To(next, after)
    ensures ChildFacts(after, NextHolder(pc, next, pc.c, holder))
  {
    if pc.RunLock? || pc.CallOnce? {
      LockingStepKeepsFacts(pc, ch, t, next, after, holder);
    } else if InKill(pc) {
      KillKeepsFacts(pc, ch, t, next, after, holder);
    } else if pc.Return? {
      ReturnStepKeepsFacts(pc, ch, t, next, after);
    } else {
      BodyKeepsChildFacts(pc, ch, t, how, seen, next, after);
    }
  }
}
