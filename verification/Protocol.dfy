/**
 The concurrent half of the library as a transition system: any number of threads calling
 `run` and `kill` on any number of children (src/process/child.rs), the children themselves,
 and the thread that signals registered supervisors every millisecond
 (src/process/timeout.rs). A step is what one thread does between two points where others
 may interfere; the kernel's part is nondeterministic.
 */
module Protocol {
  import opened ExecutionResults
  import opened Verdicts

  type Tid = nat
  type Cid = nat

  datatype Once = New | Running | Done

  /** A child process as the kernel sees it. */
  datatype Phase =
    | Unmade         // `spawn` has not been called
    | Made           // its listeners exist, and with them the memory listener's pipe
    | Setup          // running the listeners' child hooks and the redirections
    | AtReady        // waiting at the child_ready barrier
    | BeforeGate     // past it
    | AtGate         // waiting at the parent_ready barrier
    | Released       // past it, about to call exec
    | Executing      // exec has succeeded
    | Zombie         // ended but not reaped
    | Gone           // reaped: the pid may be anybody's

  datatype Outcome = GotResult(result: int) | GotError

  /** The process itself. */
  datatype Process = Process(
    phase: Phase,
    childHooks: nat,       // how many of the listeners' child hooks have succeeded
    childError: bool,
    arrived: bool,         // it has reached the parent_ready barrier
    writeEnd: bool,        // it holds a write end of its memory listener's pipe
    execed: bool)          // history: exec has succeeded

  /** The JailedChild and the context behind it. */
  datatype Handle = Handle(
    published: bool,        // `spawn` has returned it
    internals: Option<Tid>, // who holds child_internals
    stateLock: Option<Tid>, // who holds child_state
    reapable: bool,
    once: Once,
    parentAtGate: bool,
    runError: bool,
    result: int,
    writeEnd: bool,         // the memory listener's own write end of its pipe
    copies: set<Cid>)       // the children that were cloned while it was open

  /** What has happened, for the statements about it. */
  datatype Log = Log(
    parentHooks: nat,      // how many of the listeners' parent hooks have succeeded
    hookFailed: bool,      // one of them has failed
    bodies: nat,           // how often the body of `run` was entered
    bodyFailed: bool,
    signals: nat,          // how often the kill signal was sent
    eofSeen: bool,         // the memory listener has seen its pipe closed
    attachReaped: bool,    // ptrace's wait has reaped the child
    misused: bool,         // the pid was used after the child was reaped
    returned: seq<Outcome>)

  datatype Child = Child(kinds: seq<Kind>, periodic: bool, proc: Process, handle: Handle, log: Log)

  /** Where a thread is. The names follow the statements of `run` and `kill`. */
  datatype Pc =
    | Idle
    // JailedChild::run
    | RunLock(c: Cid)
    | CallOnce(c: Cid)
    // ChildInternals::run
    | BodyStart(c: Cid)
    | Hook(c: Cid, i: nat)
    | AttachWait(c: Cid, i: nat)
    | AttachSet(c: Cid, i: nat)
    | RegOnce(c: Cid)
    | RegSpawn(c: Cid)
    | RegHandler(c: Cid)
    | RegLock(c: Cid)
    | RegInsert(c: Cid)
    | Gate(c: Cid)
    | GateWait(c: Cid)
    | Wakeup(c: Cid)
    | KillVote(c: Cid)
    | Wait(c: Cid)
    | Ended(c: Cid)
    | UnregLock(c: Cid)
    | UnregRemove(c: Cid)
    | Post(c: Cid)
    // the rest of run_saving_result
    | CleanKill(c: Cid)
    | CleanLock(c: Cid)
    | CleanSet(c: Cid)
    | Reap(c: Cid)
    // back in JailedChild::run
    | Return(c: Cid)
    // JailedChild::kill
    | KillLock(c: Cid)
    | KillCheck(c: Cid)
    | KillSignal(c: Cid)
    | KillUnlock(c: Cid)
    // the assertion in remove_timeout_thread
    | AssertionFailed(c: Cid)

  datatype RegistryOnce = Untouched | InitializedBy(t: Tid) | Initialized

  datatype DataLock = Free | HeldBy(t: Tid) | HeldByTicker

  datatype Ticker = NotSpawned | Sleeping | Iterating(todo: set<Tid>)

  /** The globals of src/process/timeout.rs. */
  datatype Registry = Registry(
    once: RegistryOnce,
    handlerInstalled: bool,
    lock: DataLock,
    registered: set<Tid>,
    ticker: Ticker,
    badSignal: bool) // history: SIGUSR1 was sent under the default disposition

  datatype State = State(children: seq<Child>, threads: seq<Pc>, registry: Registry)

  // ----- Steps of threads on a child -----

  /** How a step turned out, where the thread cannot know beforehand. A step that asks several
      listeners fails at one of them. */
  datatype How = Proceeds | Diverts | Fails(at: nat)

  /** The effect of a step on its thread and on the child, unless the thread has to wait. */
  datatype ChildMove = Blocked | To(pc: Pc, child: Child)

  /** Any use of the child's pid: a signal, a wait, a ptrace call or a /proc read. */
  function UsePid(ch: Child): Child {
    ch.(log := ch.log.(misused := ch.log.misused || ch.proc.phase == Gone))
  }

  /** The body of `run` returns an error, which run_saving_result keeps. */
  function FailBody(c: Cid, ch: Child): ChildMove {
    To(CleanKill(c), ch.(handle := ch.handle.(runError := true), log := ch.log.(bodyFailed := true)))
  }

  function FailHook(c: Cid, ch: Child): ChildMove {
    FailBody(c, ch.(log := ch.log.(hookFailed := true)))
  }

  function HookDone(ch: Child): Child {
    ch.(log := ch.log.(parentHooks := ch.log.parentHooks + 1))
  }

  function SendKill(ch: Child): Child {
    ch.(log := ch.log.(misused := ch.log.misused || ch.proc.phase == Gone, signals := ch.log.signals + 1))
  }

  /** What a thread reads: the report so far, and whether another child holds a copy of the
      write end of the pipe. */
  datatype Seen = Seen(result: int, shared: bool)

  /** The memory listener is among the first n. */
  predicate MemoryAmong(kinds: seq<Kind>, n: nat): (among: bool)
    requires n <= |kinds|
    ensures among ==> Memory in kinds
  {
    n > 0 && (kinds[n - 1] == Memory || MemoryAmong(kinds, n - 1))
  }

  /** The pipe is at end of file: nobody holds a write end any more. */
  predicate PipeClosed(ch: Child, shared: bool) {
    !ch.handle.writeEnd && !ch.proc.writeEnd && !shared
  }

  predicate IsRegistryPc(pc: Pc) {
    pc.RegOnce? || pc.RegSpawn? || pc.RegHandler? || pc.RegLock? || pc.RegInsert? || pc.UnregLock? || pc.UnregRemove?
  }

  /** `run` up to the body of the once. */
  function LockingStep(pc: Pc, ch: Child, t: Tid): ChildMove {
    match pc
    case RunLock(c) =>
      if ch.handle.internals.None? then To(CallOnce(c), ch.(handle := ch.handle.(internals := Some(t)))) else Blocked
    case CallOnce(c) =>
      (match ch.handle.once
       case New =>
         To(BodyStart(c),
               ch.(handle := ch.handle.(once := Running), log := ch.log.(bodies := ch.log.bodies + 1)))
       case Running => Blocked
       case Done => To(Return(c), ch))
    case _ => Blocked
  }

  /** The parent hook of listener i. */
  function HookOne(c: Cid, i: nat, kind: Kind, ch: Child, how: How): ChildMove {
    match kind
    case Time => To(Hook(c, i + 1), HookDone(ch))
    case Memory =>
      if how.Fails? then FailHook(c, ch)
      else To(Hook(c, i + 1), HookDone(ch).(handle := ch.handle.(writeEnd := false)))
    case Perf => if how.Fails? then FailHook(c, UsePid(ch)) else To(Hook(c, i + 1), HookDone(UsePid(ch)))
    case Ptrace => if how.Fails? then FailHook(c, UsePid(ch)) else To(AttachWait(c, i), UsePid(ch))
  }

  /** The parent hooks of the listeners, in order. */
  function HookStep(pc: Pc, ch: Child, how: How): ChildMove {
    match pc
    case BodyStart(c) =>
      if ch.proc.childError then FailBody(c, ch.(proc := ch.proc.(childError := false))) else To(Hook(c, 0), ch)
    case Hook(c, i) =>
      if i < |ch.kinds| then HookOne(c, i, ch.kinds[i], ch, how)
      else To(if ch.periodic then RegOnce(c) else Gate(c), ch)
    case _ => Blocked
  }

  /** The rest of the ptrace listener's hook. Its waitpid has no WNOWAIT: it reports the stop
      of a living child, but reaps a dead one. */
  function AttachStep(pc: Pc, ch: Child, how: How): ChildMove {
    match pc
    case AttachWait(c, i) =>
      if ch.proc.phase == Zombie
      then To(AttachSet(c, i), ch.(proc := ch.proc.(phase := Gone), log := ch.log.(attachReaped := true)))
      else if how.Fails? then FailHook(c, UsePid(ch)) // interrupted by a signal
      else To(AttachSet(c, i), UsePid(ch))
    case AttachSet(c, i) =>
      if how.Fails? || ch.proc.phase == Zombie || ch.proc.phase == Gone then FailHook(c, UsePid(ch))
      else To(Hook(c, i + 1), HookDone(UsePid(ch)))
    case _ => Blocked
  }

  function GateStep(pc: Pc, ch: Child): ChildMove {
    match pc
    case Gate(c) => To(GateWait(c), ch.(handle := ch.handle.(parentAtGate := true)))
    case GateWait(c) => if ch.proc.arrived then To(Wakeup(c), ch) else Blocked
    case _ => Blocked
  }

  /** The supervision loop. */
  function WatchStep(pc: Pc, ch: Child, how: How, seen: Seen): ChildMove {
    match pc
    case Wakeup(c) =>
      var used := UsePid(ch);
      var asked := if how.Fails? && how.at < |ch.kinds| then how.at else |ch.kinds|;
      var woken := used.(
        handle := ch.handle.(result := seen.result),
        log := used.log.(eofSeen := ch.log.eofSeen || (MemoryAmong(ch.kinds, asked) && PipeClosed(ch, seen.shared))));
      if how.Fails? then FailBody(c, woken)
      else To(if how.Diverts? then KillVote(c) else Wait(c), woken)
    case KillVote(c) => if how.Fails? then FailBody(c, UsePid(ch)) else To(Wait(c), SendKill(ch))
    case Wait(c) =>
      if how.Fails? then FailBody(c, UsePid(ch))
      else if how.Diverts? then To(Wakeup(c), UsePid(ch)) // a signal arrived or the child stopped
      else if ch.proc.phase != Zombie then Blocked
      else if ch.proc.childError then FailBody(c, UsePid(ch).(proc := ch.proc.(childError := false)))
      else To(Ended(c), UsePid(ch))
    case _ => Blocked
  }

  /** The readings after the child has ended. */
  function FinishStep(pc: Pc, ch: Child, how: How, seen: Seen): ChildMove {
    match pc
    case Ended(c) => To(if ch.periodic then UnregLock(c) else Post(c), ch)
    case Post(c) =>
      var read := UsePid(ch).(handle := ch.handle.(result := seen.result));
      if how.Fails? then FailBody(c, read)
      else if ch.proc.childError then FailBody(c, read.(proc := ch.proc.(childError := false)))
      else To(CleanKill(c), read)
    case _ => Blocked
  }

  /** The rest of run_saving_result, and the return from `run`. */
  function CleanStep(pc: Pc, ch: Child, t: Tid): ChildMove {
    match pc
    case CleanKill(c) => To(CleanLock(c), SendKill(ch))
    case CleanLock(c) =>
      if ch.handle.stateLock.None? then To(CleanSet(c), ch.(handle := ch.handle.(stateLock := Some(t)))) else Blocked
    case CleanSet(c) => To(Reap(c), ch.(handle := ch.handle.(reapable := false, stateLock := None)))
    case Reap(c) => // WNOHANG: a child that is not dead yet stays
      var used := UsePid(ch).(handle := ch.handle.(once := Done));
      To(Return(c), if ch.proc.phase == Zombie then used.(proc := ch.proc.(phase := Gone)) else used)
    case Return(c) =>
      var outcome := if ch.handle.runError then GotError else GotResult(ch.handle.result);
      To(Idle, ch.(
        handle := ch.handle.(internals := None, runError := false),
        log := ch.log.(returned := ch.log.returned + [outcome])))
    case _ => Blocked
  }

  function KillStep(pc: Pc, ch: Child, t: Tid): ChildMove {
    match pc
    case KillLock(c) =>
      if ch.handle.stateLock.None? then To(KillCheck(c), ch.(handle := ch.handle.(stateLock := Some(t)))) else Blocked
    case KillCheck(c) => To(if ch.handle.reapable then KillSignal(c) else KillUnlock(c), ch)
    case KillSignal(c) => To(KillUnlock(c), SendKill(ch))
    case KillUnlock(c) => To(Idle, ch.(handle := ch.handle.(stateLock := None)))
    case _ => Blocked
  }

  function ChildStep(pc: Pc, ch: Child, t: Tid, how: How, seen: Seen): ChildMove {
    if pc.RunLock? || pc.CallOnce? then LockingStep(pc, ch, t)
    else if pc.BodyStart? || pc.Hook? then HookStep(pc, ch, how)
    else if pc.AttachWait? || pc.AttachSet? then AttachStep(pc, ch, how)
    else if pc.Gate? || pc.GateWait? then GateStep(pc, ch)
    else if pc.Wakeup? || pc.KillVote? || pc.Wait? then WatchStep(pc, ch, how, seen)
    else if pc.Ended? || pc.Post? then FinishStep(pc, ch, how, seen)
    else if pc.KillLock? || pc.KillCheck? || pc.KillSignal? || pc.KillUnlock? then KillStep(pc, ch, t)
    else CleanStep(pc, ch, t)
  }

  // ----- Steps on the registry -----

  datatype RegistryMove = Excluded | Enter(pc: Pc, registry: Registry)

  function RegistryStep(pc: Pc, reg: Registry, t: Tid): RegistryMove {
    match pc
    case RegOnce(c) =>
      (match reg.once
       case Untouched => Enter(RegSpawn(c), reg.(once := InitializedBy(t)))
       case InitializedBy(_) => Excluded
       case Initialized => Enter(RegLock(c), reg))
    case RegSpawn(c) => Enter(RegHandler(c), reg.(ticker := Sleeping))
    case RegHandler(c) => Enter(RegLock(c), reg.(handlerInstalled := true, once := Initialized))
    case RegLock(c) => if reg.lock.Free? then Enter(RegInsert(c), reg.(lock := HeldBy(t))) else Excluded
    case RegInsert(c) => Enter(Gate(c), reg.(registered := reg.registered + {t}, lock := Free))
    case UnregLock(c) => if reg.lock.Free? then Enter(UnregRemove(c), reg.(lock := HeldBy(t))) else Excluded
    case UnregRemove(c) =>
      Enter(if t in reg.registered then Post(c) else AssertionFailed(c),
            reg.(registered := reg.registered - {t}, lock := Free))
    case _ => Excluded
  }

  datatype TickEvent = TickLock | TickSignal(t: Tid) | TickUnlock

  function TickStep(reg: Registry, e: TickEvent): Option<Registry> {
    match e
    case TickLock =>
      if reg.ticker.Sleeping? && reg.lock.Free?
      then Some(reg.(ticker := Iterating(reg.registered), lock := HeldByTicker)) else None
    case TickSignal(t) =>
      if reg.ticker.Iterating? && t in reg.ticker.todo
      then Some(reg.(ticker := Iterating(reg.ticker.todo - {t}), badSignal := reg.badSignal || !reg.handlerInstalled))
      else None
    case TickUnlock =>
      if reg.ticker == Iterating({}) then Some(reg.(ticker := Sleeping, lock := Free)) else None
  }

  // ----- Steps of a child and of its surroundings -----

  datatype ChildEvent =
    | Make          // `spawn` creates the listeners
    | ChildHook
    | SetupFails
    | ReachReady
    | Publish       // both sides meet at the child_ready barrier, and `spawn` returns
    | Arrive
    | PassGate
    | ExecSucceeds
    | ExecFails
    | Dies          // by itself or by any signal

  function End(proc: Process): Process {
    proc.(phase := Zombie, writeEnd := false)
  }

  predicate Alive(proc: Process) {
    !proc.phase.Unmade? && !proc.phase.Made? && !proc.phase.Zombie? && !proc.phase.Gone?
  }

  function ProcessStep(ch: Child, e: ChildEvent): Option<Process> {
    var proc := ch.proc;
    match e
    case ChildHook =>
      if proc.phase == Setup && proc.childHooks < |ch.kinds| then Some(proc.(childHooks := proc.childHooks + 1)) else None
    case SetupFails => if proc.phase == Setup then Some(End(proc).(childError := true)) else None
    case ReachReady =>
      if proc.phase == Setup && proc.childHooks == |ch.kinds| then Some(proc.(phase := AtReady)) else None
    case Arrive => if proc.phase == BeforeGate then Some(proc.(phase := AtGate, arrived := true)) else None
    case PassGate => if proc.phase == AtGate && ch.handle.parentAtGate then Some(proc.(phase := Released)) else None
    case ExecSucceeds =>
      if proc.phase == Released then Some(proc.(phase := Executing, execed := true, writeEnd := false)) else None
    case ExecFails => if proc.phase == Released then Some(End(proc).(childError := true)) else None
    case Dies => if Alive(proc) then Some(End(proc)) else None
    case _ => None
  }

  function ChildEventStep(ch: Child, e: ChildEvent): Option<Child> {
    match e
    case Publish =>
      if ch.proc.phase == AtReady
      then Some(ch.(proc := ch.proc.(phase := BeforeGate), handle := ch.handle.(published := true))) else None
    case Make =>
      if ch.proc.phase == Unmade
      then Some(ch.(proc := ch.proc.(phase := Made), handle := ch.handle.(writeEnd := Memory in ch.kinds))) else None
    case _ =>
      var next := ProcessStep(ch, e);
      if next.None? then None else Some(ch.(proc := next.value))
  }

  // ----- The file descriptors of one child in the others -----

  /** The child has been cloned and has neither called exec nor ended. It still has the
      descriptors that it was cloned with: exec closes them, and so does its end. */
  predicate KeepsDescriptors(proc: Process) {
    proc.phase.Setup? || proc.phase.AtReady? || proc.phase.BeforeGate? || proc.phase.AtGate? || proc.phase.Released?
  }

  /** Another child holds a copy of the write end of the pipe of child c. */
  predicate SharedPipe(s: State, c: Cid)
    requires c < |s.children|
  {
    exists d :: d in s.children[c].handle.copies && d < |s.children| && KeepsDescriptors(s.children[d].proc)
  }

  /** The child itself after it has been cloned. */
  function Cloned(ch: Child): Child {
    ch.(proc := ch.proc.(phase := Setup, writeEnd := ch.handle.writeEnd))
  }

  /** A child after child c has been cloned with all the descriptors that were open. */
  function Inherited(ch: Child, c: Cid): Child {
    if ch.handle.writeEnd then ch.(handle := ch.handle.(copies := ch.handle.copies + {c})) else ch
  }

  function AfterClone(children: seq<Child>, c: Cid): (after: seq<Child>)
    requires c < |children|
  {
    seq(|children|, d requires 0 <= d < |children| =>
      if d == c then Cloned(children[d]) else Inherited(children[d], c))
  }

  // ----- The whole system -----

  datatype Action =
    | CallRun(t: Tid, c: Cid)
    | CallKill(t: Tid, c: Cid)
    | Move(t: Tid, how: How, result: int)
    | ChildDoes(c: Cid, child: ChildEvent)
    | Clone(c: Cid)
    | Tick(tick: TickEvent)

  /** The state after an action, or None where the action is not possible. */
  function Apply(s: State, a: Action): Option<State> {
    match a
    case CallRun(t, c) =>
      if t < |s.threads| && s.threads[t] == Idle && c < |s.children| && s.children[c].handle.published
      then Some(s.(threads := s.threads[t := RunLock(c)])) else None
    case CallKill(t, c) =>
      if t < |s.threads| && s.threads[t] == Idle && c < |s.children| && s.children[c].handle.published
      then Some(s.(threads := s.threads[t := KillLock(c)])) else None
    case Move(t, how, result) =>
      if t >= |s.threads| || s.threads[t].Idle? || s.threads[t].AssertionFailed? || s.threads[t].c >= |s.children|
      then None
      else
        var pc := s.threads[t];
        if IsRegistryPc(pc) then
          var next := RegistryStep(pc, s.registry, t);
          if next.Excluded? then None
          else Some(s.(threads := s.threads[t := next.pc], registry := next.registry))
        else
          var next := ChildStep(pc, s.children[pc.c], t, how, Seen(result, SharedPipe(s, pc.c)));
          if next.Blocked? then None
          else Some(s.(threads := s.threads[t := next.pc], children := s.children[pc.c := next.child]))
    case ChildDoes(c, e) =>
      if c >= |s.children| then None
      else
        var next := ChildEventStep(s.children[c], e);
        if next.None? then None else Some(s.(children := s.children[c := next.value]))
    case Clone(c) =>
      if c < |s.children| && s.children[c].proc.phase == Made
      then Some(s.(children := AfterClone(s.children, c))) else None
    case Tick(e) =>
      var next := TickStep(s.registry, e);
      if next.None? then None else Some(s.(registry := next.value))
  }

  /** A child that is still to be spawned. */
  predicate Unspawned(ch: Child) {
    && ch.proc == Process(Unmade, 0, false, false, false, false)
    && ch.handle == Handle(false, None, None, true, New, false, false, ch.handle.result, false, {})
    && ch.log == Log(0, false, 0, false, 0, false, false, false, [])
  }

  predicate Initial(s: State) {
    && (forall c :: 0 <= c < |s.children| ==> Unspawned(s.children[c]))
    && (forall t :: 0 <= t < |s.threads| ==> s.threads[t] == Idle)
    && s.registry == Registry(Untouched, false, Free, {}, NotSpawned, false)
  }

  /** A run so far: the state that it starts in, and the actions that have led on from there. */
  datatype Run = Start(first: State) | Then(before: Run, action: Action, next: State) {
    function Now(): State {
      if Start? then first else next
    }
  }

  predicate IsRun(run: Run) {
    match run
    case Start(s) => Initial(s)
    case Then(before, a, s) => IsRun(before) && Apply(before.Now(), a) == Some(s)
  }
}
