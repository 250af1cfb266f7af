/**
 What the history that the protocol keeps of a child stands for, and what its steps do to the
 process: signals, uses of the pid, the reaping, the gate, errors and readings.
 */
module ProtocolMeaning {
  import opened ExecutionResults
  import opened Verdicts
  import opened Protocol
  import opened ProtocolInvariant
  import opened ProtocolSafety
  import opened ProtocolTheorems

  /** The action is a step of a thread on child c that starts at pc. */
  predicate StepsAt(s: State, a: Action, c: Cid, pc: Pc) {
    a.Move? && a.t < |s.threads| && s.threads[a.t] == pc && !pc.Idle? && pc.c == c
  }

  /** What the steps of threads on a child share: either nothing has happened to the child, or
      one of its threads has taken a step of ChildStep. */
  lemma StepOnChild(s: State, a: Action, s': State, c: Cid) returns (moved: bool, pc: Pc)
    requires c < |s.children| && Apply(s, a) == Some(s') && a.Move?
    ensures c < |s'.children|
    ensures if moved
            then
              && StepsAt(s, a, c, pc) && !IsRegistryPc(pc)
              && ChildStep(pc, s.children[c], a.t, a.how, Seen(a.result, SharedPipe(s, c))) ==
                 To(s'.threads[a.t], s'.children[c])
            else
              && s'.children[c] == s.children[c]
              && (StepsAt(s, a, c, s.threads[a.t]) ==> IsRegistryPc(s.threads[a.t]))
  {
    pc := s.threads[a.t];
    moved := !IsRegistryPc(pc) && pc.c == c;
  }

  /** What a child does by itself or with others leaves the history alone. */
  lemma EventKeepsLog(s: State, a: Action, s': State, c: Cid)
    requires c < |s.children| && Apply(s, a) == Some(s') && !a.Move?
    ensures c < |s'.children| && s'.children[c].log == s.children[c].log
    ensures s'.children[c].handle.result == s.children[c].handle.result
  {
    if a.ChildDoes? && a.c == c {
      EventFrame(s.children[c], a.child, s'.children[c]);
    }
  }

  // ----- What one step does -----

  /** The step sends the kill signal: a vote in the loop, the cleaning up after it, or `kill`. */
  predicate SendsSignal(pc: Pc, how: How) {
    (pc.KillVote? && !how.Fails?) || pc.CleanKill? || pc.KillSignal?
  }

  /** The step makes a system call on the pid of the child, or reads its /proc entry. */
  predicate UsesPid(pc: Pc, kinds: seq<Kind>) {
    match pc
    case Hook(_, i) => i < |kinds| && (kinds[i] == Perf || kinds[i] == Ptrace)
    case AttachWait(_, _) | AttachSet(_, _) | Wakeup(_) | KillVote(_) | Wait(_) | Post(_) => true
    case CleanKill(_) | Reap(_) | KillSignal(_) => true
    case _ => false
  }

  /** What a step of a thread from pc does to its child: the signal that it sends, the use that
      it makes of the pid, the reaping, the errors that it keeps and the reading that it takes. */
  predicate Effects(pc: Pc, ch: Child, how: How, seen: Seen, after: Child) {
    && after.log.signals == ch.log.signals + (if SendsSignal(pc, how) then 1 else 0)
    && (after.log.misused <==> ch.log.misused || (UsesPid(pc, ch.kinds) && ch.proc.phase.Gone?))
    && (after.proc.phase.Gone? <==> ch.proc.phase.Gone? || (ch.proc.phase.Zombie? && (pc.Reap? || pc.AttachWait?)))
    && (ch.proc.childError ==> after.proc.childError || after.log.bodyFailed)
    && (ch.log.bodyFailed ==> after.log.bodyFailed)
    && (after.log.bodyFailed && !ch.log.bodyFailed && (pc.Hook? || pc.AttachWait? || pc.AttachSet?) ==>
          after.log.hookFailed)
    && after.handle.result == if pc.Wakeup? || pc.Post? then seen.result else ch.handle.result
  }

  lemma LockingEffects(pc: Pc, ch: Child, t: Tid, how: How, seen: Seen, next: Pc, after: Child)
    requires LockingStep(pc, ch, t) == To(next, after)
    ensures Effects(pc, ch, how, seen, after)
  {}

  lemma HookOneEffects(c: Cid, i: nat, kind: Kind, ch: Child, how: How, seen: Seen, next: Pc, after: Child)
    requires i < |ch.kinds| && kind == ch.kinds[i] && HookOne(c, i, kind, ch, how) == To(next, after)
    ensures Effects(Hook(c, i), ch, how, seen, after)
  {}

  lemma HookEffects(pc: Pc, ch: Child, how: How, seen: Seen, next: Pc, after: Child)
    requires HookStep(pc, ch, how) == To(next, after)
    ensures Effects(pc, ch, how, seen, after)
  {
    if pc.Hook? && pc.i < |ch.kinds| {
      HookOneEffects(pc.c, pc.i, ch.kinds[pc.i], ch, how, seen, next, after);
    }
  }

  lemma AttachEffects(pc: Pc, ch: Child, how: How, seen: Seen, next: Pc, after: Child)
    requires AttachStep(pc, ch, how) == To(next, after)
    ensures Effects(pc, ch, how, seen, after)
  {}

  lemma GateEffects(pc: Pc, ch: Child, how: How, seen: Seen, next: Pc, after: Child)
    requires GateStep(pc, ch) == To(next, after)
    ensures Effects(pc, ch, how, seen, after)
  {}

  lemma WatchEffects(pc: Pc, ch: Child, how: How, seen: Seen, next: Pc, after: Child)
    requires WatchStep(pc, ch, how, seen) == To(next, after)
    ensures Effects(pc, ch, how, seen, after)
  {}

  lemma FinishEffects(pc: Pc, ch: Child, how: How, seen: Seen, next: Pc, after: Child)
    requires FinishStep(pc, ch, how, seen) == To(next, after)
    ensures Effects(pc, ch, how, seen, after)
  {}

  lemma CleanEffects(pc: Pc, ch: Child, t: Tid, how: How, seen: Seen, next: Pc, after: Child)
    requires CleanStep(pc, ch, t) == To(next, after)
    ensures Effects(pc, ch, how, seen, after)
  {}

  lemma KillEffects(pc: Pc, ch: Child, t: Tid, how: How, seen: Seen, next: Pc, after: Child)
    requires KillStep(pc, ch, t) == To(next, after)
    ensures Effects(pc, ch, how, seen, after)
  {}

  lemma StepEffects(pc: Pc, ch: Child, t: Tid, how: How, seen: Seen, next: Pc, after: Child)
    requires ChildStep(pc, ch, t, how, seen) == To(next, after)
    ensures Effects(pc, ch, how, seen, after)
  {
    if pc.RunLock? || pc.CallOnce? {
      LockingEffects(pc, ch, t, how, seen, next, after);
    } else if pc.BodyStart? || pc.Hook? {
      HookEffects(pc, ch, how, seen, next, after);
    } else if pc.AttachWait? || pc.AttachSet? {
      AttachEffects(pc, ch, how, seen, next, after);
    } else if pc.Gate? || pc.GateWait? {
      GateEffects(pc, ch, how, seen, next, after);
    } else if pc.Wakeup? || pc.KillVote? || pc.Wait? {
      WatchEffects(pc, ch, how, seen, next, after);
    } else if pc.Ended? || pc.Post? {
      FinishEffects(pc, ch, how, seen, next, after);
    } else if InKill(pc) {
      KillEffects(pc, ch, t, how, seen, next, after);
    } else {
      CleanEffects(pc, ch, t, how, seen, next, after);
    }
  }

  // ----- The kill signals -----

  lemma SignalOfStep(pc: Pc, ch: Child, t: Tid, how: How, seen: Seen, next: Pc, after: Child)
    requires ChildStep(pc, ch, t, how, seen) == To(next, after)
    ensures after.log.signals == ch.log.signals + if SendsSignal(pc, how) then 1 else 0
  {
    StepEffects(pc, ch, t, how, seen, next, after);
  }

  /** The action is such a step of a thread on child c. */
  predicate Sends(s: State, a: Action, c: Cid) {
    a.Move? && a.t < |s.threads| && StepsAt(s, a, c, s.threads[a.t]) && SendsSignal(s.threads[a.t], a.how)
  }

  /** How many steps of the run have sent child c the kill signal. */
  function SignalsSent(run: Run, c: Cid): nat {
    if run.Start? then 0
    else SignalsSent(run.before, c) + if Sends(run.before.Now(), run.action, c) then 1 else 0
  }

  /** The signals that a child has been sent are exactly those of the steps that send one. */
  lemma {:induction false} SignalsByHistory(run: Run, c: Cid)
    requires IsRun(run) && c < |run.Now().children|
    ensures run.Now().children[c].log.signals == SignalsSent(run, c)
  {
    if run.Then? {
      var s, a := run.before.Now(), run.action;
      StepKeepsNumber(s, a, run.next);
      SignalsByHistory(run.before, c);
      if a.Move? {
        var moved, pc := StepOnChild(s, a, run.next, c);
        if moved {
          SignalOfStep(pc, s.children[c], a.t, a.how, Seen(a.result, SharedPipe(s, c)), run.next.threads[a.t],
                       run.next.children[c]);
        }
      } else {
        EventKeepsLog(s, a, run.next, c);
      }
    } else {
      assert Unspawned(run.first.children[c]);
    }
  }

  /** n steps of a thread inside `kill`, with nobody in between. */
  function KillSteps(pc: Pc, ch: Child, t: Tid, n: nat): ChildMove
    decreases n
  {
    if n == 0 then To(pc, ch)
    else
      var move := KillStep(pc, ch, t);
      if move.Blocked? then Blocked else KillSteps(move.pc, move.child, t, n - 1)
  }

  /** `kill` sends one signal if the child is still to be reaped, and otherwise does nothing; it
      gives the lock back, and leaves everything else as it was. */
  lemma KillAlone(c: Cid, ch: Child, t: Tid)
    requires ch.handle.stateLock.None?
    ensures var move := KillSteps(KillLock(c), ch, t, if ch.handle.reapable then 4 else 3);
            && move.To? && move.pc == Idle
            && move.child.proc == ch.proc && move.child.handle == ch.handle
            && move.child.log.signals == ch.log.signals + if ch.handle.reapable then 1 else 0
  {
    var locked := ch.(handle := ch.handle.(stateLock := Some(t)));
    if ch.handle.reapable {
      var sent := SendKill(locked);
      assert KillSteps(KillLock(c), ch, t, 4) == KillSteps(KillCheck(c), locked, t, 3);
      assert KillSteps(KillCheck(c), locked, t, 3) == KillSteps(KillSignal(c), locked, t, 2);
      assert KillSteps(KillSignal(c), locked, t, 2) == KillSteps(KillUnlock(c), sent, t, 1);
      assert KillSteps(KillUnlock(c), sent, t, 1) == KillStep(KillUnlock(c), sent, t);
    } else {
      assert KillSteps(KillLock(c), ch, t, 3) == KillSteps(KillCheck(c), locked, t, 2);
      assert KillSteps(KillCheck(c), locked, t, 2) == KillSteps(KillUnlock(c), locked, t, 1);
      assert KillSteps(KillUnlock(c), locked, t, 1) == KillStep(KillUnlock(c), locked, t);
    }
  }

  // ----- The pid -----

  /** Every use of the pid of a child that is gone counts as misuse, and nothing else does. */
  lemma MisuseIsCounted(pc: Pc, ch: Child, t: Tid, how: How, seen: Seen, next: Pc, after: Child)
    requires ChildStep(pc, ch, t, how, seen) == To(next, after)
    ensures after.log.misused <==> ch.log.misused || (UsesPid(pc, ch.kinds) && ch.proc.phase.Gone?)
  {
    StepEffects(pc, ch, t, how, seen, next, after);
  }

  /** A child is reaped by the last step of `run`, or by ptrace's wait, and only when it is dead. */
  lemma ReapedWhenDead(pc: Pc, ch: Child, t: Tid, how: How, seen: Seen, next: Pc, after: Child)
    requires ChildStep(pc, ch, t, how, seen) == To(next, after)
    ensures after.proc.phase.Gone? <==>
            ch.proc.phase.Gone? || (ch.proc.phase.Zombie? && (pc.Reap? || pc.AttachWait?))
  {
    StepEffects(pc, ch, t, how, seen, next, after);
  }

  lemma ChildEventNeverReaps(ch: Child, e: ChildEvent, after: Child)
    requires ChildEventStep(ch, e) == Some(after)
    ensures after.proc.phase.Gone? == ch.proc.phase.Gone?
  {}

  lemma EventNeverReaps(s: State, a: Action, s': State, c: Cid)
    requires c < |s.children| && Apply(s, a) == Some(s') && !a.Move?
    ensures c < |s'.children| && s'.children[c].proc.phase.Gone? == s.children[c].proc.phase.Gone?
  {
    if a.ChildDoes? && a.c == c {
      ChildEventNeverReaps(s.children[c], a.child, s'.children[c]);
    }
  }

  lemma OnlyTheDeadAreReaped(s: State, a: Action, s': State, c: Cid)
    requires c < |s.children| && Apply(s, a) == Some(s')
    ensures c < |s'.children|
    ensures s'.children[c].proc.phase.Gone? <==>
            || s.children[c].proc.phase.Gone?
            || (&& s.children[c].proc.phase.Zombie? && a.Move? && a.t < |s.threads|
                && (s.threads[a.t].Reap? || s.threads[a.t].AttachWait?) && s.threads[a.t].c == c)
  {
    if a.Move? {
      var moved, pc := StepOnChild(s, a, s', c);
      if moved {
        ReapedWhenDead(pc, s.children[c], a.t, a.how, Seen(a.result, SharedPipe(s, c)), s'.threads[a.t],
                       s'.children[c]);
      }
    } else {
      EventNeverReaps(s, a, s', c);
    }
  }

  // ----- The gate -----

  predicate PastGate(pc: Pc) {
    pc.Wakeup? || pc.KillVote? || pc.Wait? || pc.Ended? || pc.UnregLock? || pc.UnregRemove? || pc.Post?
  }

  /** The gate is a barrier of two: the supervisor goes on only when the child has come to it,
      and the child only when the supervisor has. */
  lemma GateIsABarrier(s: State, c: Cid)
    requires Reachable(s) && c < |s.children|
    ensures var ch := s.children[c];
            && (PastGate(Holder(s, c)) ==> ch.proc.arrived)
            && (ch.proc.phase.Released? || ch.proc.execed ==> ch.handle.parentAtGate && ch.handle.published)
            && (ch.handle.parentAtGate ==> ch.log.bodies == 1)
  {
    ReachableInvariant(s);
    assert ChildOk(s, c);
  }

  // ----- The error of the child -----

  lemma ErrorIsKept(pc: Pc, ch: Child, t: Tid, how: How, seen: Seen, next: Pc, after: Child)
    requires ChildStep(pc, ch, t, how, seen) == To(next, after)
    ensures ch.proc.childError ==> after.proc.childError || after.log.bodyFailed
    ensures ch.log.bodyFailed ==> after.log.bodyFailed
  {
    StepEffects(pc, ch, t, how, seen, next, after);
  }

  lemma EventKeepsError(s: State, a: Action, s': State, c: Cid)
    requires c < |s.children| && Apply(s, a) == Some(s') && !a.Move?
    ensures c < |s'.children|
    ensures s.children[c].proc.childError ==> s'.children[c].proc.childError
    ensures a == ChildDoes(c, ExecFails) ==> s'.children[c].proc.childError
  {}

  predicate ExecFailed(run: Run, c: Cid) {
    run.Then? && (ExecFailed(run.before, c) || run.action == ChildDoes(c, ExecFails))
  }

  lemma {:induction false} ExecFailureIsKept(run: Run, c: Cid)
    requires IsRun(run) && c < |run.Now().children| && ExecFailed(run, c)
    ensures run.Now().children[c].proc.childError || run.Now().children[c].log.bodyFailed
  {
    var s, a := run.before.Now(), run.action;
    StepKeepsNumber(s, a, run.next);
    if ExecFailed(run.before, c) {
      ExecFailureIsKept(run.before, c);
    }
    if a.Move? {
      var moved, pc := StepOnChild(s, a, run.next, c);
      if moved {
        ErrorIsKept(pc, s.children[c], a.t, a.how, Seen(a.result, SharedPipe(s, c)), run.next.threads[a.t],
                    run.next.children[c]);
      }
    } else {
      EventKeepsError(s, a, run.next, c);
      EventKeepsLog(s, a, run.next, c);
    }
  }

  /** If the child could not call exec, `run` fails: its first caller gets an error. */
  lemma ExecFailureIsReported(run: Run, c: Cid)
    requires IsRun(run) && c < |run.Now().children| && ExecFailed(run, c)
    requires run.Now().children[c].handle.once == Done
    ensures run.Now().children[c].log.bodyFailed
    ensures run.Now().children[c].log.returned != [] ==> run.Now().children[c].log.returned[0] == GotError
  {
    ExecFailureIsKept(run, c);
    RunKeepsInvariant(run);
    assert ChildOk(run.Now(), c);
  }

  // ----- The readings -----

  lemma OnlyReadingsChangeResult(pc: Pc, ch: Child, t: Tid, how: How, seen: Seen, next: Pc, after: Child)
    requires ChildStep(pc, ch, t, how, seen) == To(next, after)
    ensures after.handle.result == if pc.Wakeup? || pc.Post? then seen.result else ch.handle.result
  {
    StepEffects(pc, ch, t, how, seen, next, after);
  }

  /** What the last reading of child c in the run has left in the execution result. */
  function LastReading(run: Run, c: Cid): Option<int> {
    if run.Start? then None
    else if StepsAt(run.before.Now(), run.action, c, Wakeup(c)) || StepsAt(run.before.Now(), run.action, c, Post(c))
    then Some(run.action.result)
    else LastReading(run.before, c)
  }

  /** The result that the callers of `run` share is the one that the last reading has left. */
  lemma {:induction false} ResultIsLastReading(run: Run, c: Cid)
    requires IsRun(run) && c < |run.Now().children| && LastReading(run, c).Some?
    ensures run.Now().children[c].handle.result == LastReading(run, c).value
  {
    var s, a := run.before.Now(), run.action;
    StepKeepsNumber(s, a, run.next);
    if a.Move? {
      var moved, pc := StepOnChild(s, a, run.next, c);
      if moved {
        OnlyReadingsChangeResult(pc, s.children[c], a.t, a.how, Seen(a.result, SharedPipe(s, c)),
                                 run.next.threads[a.t], run.next.children[c]);
      }
    } else {
      EventKeepsLog(s, a, run.next, c);
    }
    if !StepsAt(s, a, c, Wakeup(c)) && !StepsAt(s, a, c, Post(c)) {
      ResultIsLastReading(run.before, c);
    }
  }

  // ----- The locks and the ticker -----

  /** No two threads are inside what one lock protects. */
  lemma MutualExclusion(s: State, t: Tid, u: Tid)
    requires Reachable(s) && t < |s.threads| && u < |s.threads| && t != u
    ensures var p, q := s.threads[t], s.threads[u];
            && !(InRun(p) && InRun(q) && p.c == q.c)
            && !(LocksState(p) && LocksState(q) && p.c == q.c)
            && !(HoldsData(p) && HoldsData(q))
            && !(HoldsData(p) && s.registry.ticker.Iterating?)
  {
    ReachableInvariant(s);
    assert ThreadOk(s, t) && ThreadOk(s, u);
  }

  /** The threads that the ticker has signalled since it last took the lock. */
  function SignalledInRound(run: Run): set<Tid> {
    if run.Start? then {}
    else if run.action == Tick(TickLock) then {}
    else if run.action.Tick? && run.action.tick.TickSignal? then SignalledInRound(run.before) + {run.action.tick.t}
    else SignalledInRound(run.before)
  }

  lemma OthersKeepRound(s: State, a: Action, s': State)
    requires Invariant(s) && Apply(s, a) == Some(s') && !a.Tick? && s.registry.ticker.Iterating?
    ensures s'.registry.ticker == s.registry.ticker && s'.registry.registered == s.registry.registered
  {
    if a.Move? {
      assert ThreadOk(s, a.t);
    }
  }

  lemma OthersStartNoRound(s: State, a: Action, s': State)
    requires Apply(s, a) == Some(s') && !a.Tick? && s'.registry.ticker.Iterating?
    ensures s.registry.ticker.Iterating?
  {}

  lemma {:induction false} RoundSoFar(run: Run)
    requires IsRun(run) && run.Now().registry.ticker.Iterating?
    ensures SignalledInRound(run) !! run.Now().registry.ticker.todo
    ensures SignalledInRound(run) + run.Now().registry.ticker.todo == run.Now().registry.registered
  {
    if run.Then? {
      var s, a := run.before.Now(), run.action;
      if !a.Tick? {
        RunKeepsInvariant(run.before);
        OthersStartNoRound(s, a, run.next);
        OthersKeepRound(s, a, run.next);
        RoundSoFar(run.before);
      } else if a.tick != TickLock {
        RoundSoFar(run.before);
      }
    }
  }

  /** Each time the ticker gives the lock back it has signalled exactly the registered threads,
      and none of them twice. */
  lemma TickerSignalsEveryone(run: Run)
    requires IsRun(run) && run.Then?
    ensures run.action == Tick(TickUnlock) ==> SignalledInRound(run.before) == run.next.registry.registered
    ensures run.action.Tick? && run.action.tick.TickSignal? ==> run.action.tick.t !in SignalledInRound(run.before)
  {
    if run.action.Tick? && run.action.tick != TickLock {
      RoundSoFar(run.before);
    }
  }
}
