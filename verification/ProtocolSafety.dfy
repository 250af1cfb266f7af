/**
 Every action of the protocol keeps its invariant, so every reachable state satisfies it.
 */
module ProtocolSafety {
  import opened ExecutionResults
  import opened Protocol
  import opened ProtocolInvariant

  /** Thread t has taken a step on its child. */
  predicate MovedOnChild(s: State, t: Tid, how: How, result: int, s': State) {
    && t < |s.threads| && !s.threads[t].Idle? && !IsRegistryPc(s.threads[t]) && s.threads[t].c < |s.children|
    && var pc := s.threads[t];
       var move := ChildStep(pc, s.children[pc.c], t, how, Seen(result, SharedPipe(s, pc.c)));
       && move.To?
       && s' == s.(threads := s.threads[t := move.pc], children := s.children[pc.c := move.child])
  }

  lemma ChildMoveFrame(s: State, t: Tid, how: How, result: int, s': State)
    requires Invariant(s) && MovedOnChild(s, t, how, result, s')
    ensures Framed(s.threads[t], s.children[s.threads[t].c], t, s'.threads[t], s'.children[s.threads[t].c])
    ensures ThreadAt(s.threads[t], s.children[s.threads[t].c], t)
  {
    var pc := s.threads[t];
    assert ThreadOk(s, t);
    StepFrame(pc, s.children[pc.c], t, how, Seen(result, SharedPipe(s, pc.c)), s'.threads[t], s'.children[pc.c]);
  }

  lemma ChildMoveKeepsInternals(s: State, t: Tid, how: How, result: int, s': State)
    requires Invariant(s) && MovedOnChild(s, t, how, result, s')
    ensures InternalsOk(s', s.threads[t].c)
    ensures Holder(s', s.threads[t].c) ==
            NextHolder(s.threads[t], s'.threads[t], s.threads[t].c, Holder(s, s.threads[t].c))
  {
    assert ChildOk(s, s.threads[t].c);
    ChildMoveFrame(s, t, how, result, s');
  }

  lemma ChildMoveKeepsStateLock(s: State, t: Tid, how: How, result: int, s': State)
    requires Invariant(s) && MovedOnChild(s, t, how, result, s')
    ensures StateLockOk(s', s.threads[t].c)
  {
    assert ChildOk(s, s.threads[t].c);
    ChildMoveFrame(s, t, how, result, s');
  }

  lemma ChildMoveKeepsOwnChild(s: State, t: Tid, how: How, result: int, s': State)
    requires Invariant(s) && MovedOnChild(s, t, how, result, s')
    ensures ChildOk(s', s.threads[t].c)
  {
    var pc := s.threads[t];
    assert ThreadOk(s, t) && ChildOk(s, pc.c);
    ChildMoveKeepsInternals(s, t, how, result, s');
    ChildMoveKeepsStateLock(s, t, how, result, s');
    var seen, holder := Seen(result, SharedPipe(s, pc.c)), Holder(s, pc.c);
    StepKeepsFacts(pc, s.children[pc.c], t, how, seen, holder, s'.threads[t], s'.children[pc.c]);
    StepKeepsPipe(pc, s.children[pc.c], t, how, seen, s'.threads[t], s'.children[pc.c], holder);
  }

  lemma ChildMoveKeepsChildren(s: State, t: Tid, how: How, result: int, s': State)
    requires Invariant(s) && MovedOnChild(s, t, how, result, s')
    ensures forall c :: 0 <= c < |s'.children| ==> ChildOk(s', c)
  {
    ChildMoveKeepsOwnChild(s, t, how, result, s');
    forall c | 0 <= c < |s'.children| && c != s.threads[t].c
      ensures ChildOk(s', c)
    {
      assert ChildOk(s, c);
    }
  }

  /** A step on a child, seen from the thread that takes it ... */
  lemma StepKeepsThread(pc: Pc, ch: Child, t: Tid, next: Pc, after: Child, reg: Registry)
    requires Framed(pc, ch, t, next, after) && ThreadAt(pc, ch, t) && ThreadInRegistry(pc, reg, t)
    ensures (next.Idle? || ThreadAt(next, after, t)) && ThreadInRegistry(next, reg, t)
  {}

  /** ... and from another thread on the same child. */
  lemma StepKeepsOther(pc: Pc, ch: Child, t: Tid, next: Pc, after: Child, other: Pc, u: Tid)
    requires Framed(pc, ch, t, next, after) && ThreadAt(pc, ch, t) && u != t
    requires !other.Idle? && other.c == pc.c && ThreadAt(other, ch, u)
    ensures ThreadAt(other, after, u)
    ensures ShouldBeUnregistered(other, after) ==> ShouldBeUnregistered(other, ch)
  {}

  lemma ChildMoveKeepsMover(s: State, t: Tid, how: How, result: int, s': State)
    requires Invariant(s) && MovedOnChild(s, t, how, result, s')
    ensures ThreadOk(s', t) && Registered(s', t)
  {
    var pc := s.threads[t];
    assert ThreadOk(s, t) && Registered(s, t);
    ChildMoveFrame(s, t, how, result, s');
    StepKeepsThread(pc, s.children[pc.c], t, s'.threads[t], s'.children[pc.c], s.registry);
  }

  lemma ChildMoveKeepsOther(s: State, t: Tid, how: How, result: int, s': State, u: Tid)
    requires Invariant(s) && MovedOnChild(s, t, how, result, s') && u < |s.threads| && u != t
    ensures ThreadOk(s', u) && Registered(s', u)
  {
    var pc, other := s.threads[t], s.threads[u];
    assert ThreadOk(s, u) && Registered(s, u);
    if !other.Idle? && other.c == pc.c {
      ChildMoveFrame(s, t, how, result, s');
      StepKeepsOther(pc, s.children[pc.c], t, s'.threads[t], s'.children[pc.c], other, u);
    }
  }

  lemma ChildMoveKeepsThreads(s: State, t: Tid, how: How, result: int, s': State)
    requires Invariant(s) && MovedOnChild(s, t, how, result, s')
    ensures forall u :: 0 <= u < |s'.threads| ==> ThreadOk(s', u) && Registered(s', u)
  {
    ChildMoveKeepsMover(s, t, how, result, s');
    forall u | 0 <= u < |s'.threads| && u != t
      ensures ThreadOk(s', u) && Registered(s', u)
    {
      ChildMoveKeepsOther(s, t, how, result, s', u);
    }
  }

  lemma ChildMoveKeepsInvariant(s: State, t: Tid, how: How, result: int, s': State)
    requires Invariant(s) && MovedOnChild(s, t, how, result, s')
    ensures Invariant(s')
  {
    ChildMoveKeepsChildren(s, t, how, result, s');
    ChildMoveKeepsThreads(s, t, how, result, s');
    assert ThreadOk(s, t);
  }

  /** Thread t has taken a step on the registry. */
  predicate MovedOnRegistry(s: State, t: Tid, s': State) {
    && t < |s.threads| && IsRegistryPc(s.threads[t]) && s.threads[t].c < |s.children|
    && var move := RegistryStep(s.threads[t], s.registry, t);
       && move.Enter?
       && s' == s.(threads := s.threads[t := move.pc], registry := move.registry)
  }

  /** The step of thread t on the registry, seen from t ... */
  lemma RegistryStepKeepsFacts(pc: Pc, reg: Registry, t: Tid, next: Pc, after: Registry)
    requires RegistryFacts(reg) && ThreadInRegistry(pc, reg, t) && RegistryStep(pc, reg, t) == Enter(next, after)
    requires pc.UnregRemove? ==> t in reg.registered
    ensures RegistryFacts(after) && ThreadInRegistry(next, after, t)
    ensures !next.Idle? && next.c == pc.c && InRun(next) && !LocksState(next) && !next.KillSignal?
    ensures pc.RegInsert? ==> t in after.registered
    ensures pc.UnregRemove? ==> t !in after.registered
    ensures next.Post? ==> pc.UnregRemove?
    ensures !next.CleanKill? && !next.CleanLock? && !next.CleanSet? && !next.Reap?
    ensures next.Gate? ==> pc.RegInsert?
    ensures forall u :: u != t ==> (u in after.registered <==> u in reg.registered)
    ensures !pc.UnregRemove? ==> reg.registered <= after.registered
  {}

  /** ... and from another thread. */
  lemma RegistryStepKeepsOthers(pc: Pc, reg: Registry, t: Tid, next: Pc, after: Registry, other: Pc, u: Tid)
    requires RegistryStep(pc, reg, t) == Enter(next, after) && u != t
    requires ThreadInRegistry(pc, reg, t) && ThreadInRegistry(other, reg, u)
    ensures ThreadInRegistry(other, after, u)
  {}

  lemma RegistryStepKeepsBody(pc: Pc, reg: Registry, t: Tid, next: Pc, after: Registry, ch: Child)
    requires BodyFacts(ch, pc) && RegistryStep(pc, reg, t) == Enter(next, after)
    requires pc.UnregRemove? ==> t in reg.registered
    ensures BodyFacts(ch, next)
  {}

  lemma RegistryMoveKeepsOwnChild(s: State, t: Tid, s': State)
    requires Invariant(s) && MovedOnRegistry(s, t, s')
    ensures ChildOk(s', s.threads[t].c)
  {
    var pc := s.threads[t];
    assert ThreadOk(s, t) && Registered(s, t) && ChildOk(s, pc.c);
    RegistryStepKeepsFacts(pc, s.registry, t, s'.threads[t], s'.registry);
    RegistryStepKeepsBody(pc, s.registry, t, s'.threads[t], s'.registry, s.children[pc.c]);
    assert Holder(s, pc.c) == pc && Holder(s', pc.c) == s'.threads[t];
  }

  lemma RegistryMoveKeepsChildren(s: State, t: Tid, s': State)
    requires Invariant(s) && MovedOnRegistry(s, t, s')
    ensures forall c :: 0 <= c < |s'.children| ==> ChildOk(s', c)
  {
    RegistryMoveKeepsOwnChild(s, t, s');
    forall c | 0 <= c < |s'.children| && c != s.threads[t].c
      ensures ChildOk(s', c)
    {
      assert ChildOk(s, c);
    }
  }

  lemma RegistryMoveKeepsThreads(s: State, t: Tid, s': State)
    requires Invariant(s) && MovedOnRegistry(s, t, s')
    ensures forall u :: 0 <= u < |s'.threads| ==> ThreadOk(s', u) && Registered(s', u)
  {
    var pc := s.threads[t];
    assert ThreadOk(s, t) && Registered(s, t) && ChildOk(s, pc.c);
    RegistryStepKeepsFacts(pc, s.registry, t, s'.threads[t], s'.registry);
    forall u | 0 <= u < |s'.threads|
      ensures ThreadOk(s', u) && Registered(s', u)
    {
      assert ThreadOk(s, u) && Registered(s, u);
      if u != t {
        RegistryStepKeepsOthers(pc, s.registry, t, s'.threads[t], s'.registry, s.threads[u], u);
      }
    }
  }

  lemma RegistryMoveKeepsInvariant(s: State, t: Tid, s': State)
    requires Invariant(s) && MovedOnRegistry(s, t, s')
    ensures Invariant(s')
  {
    assert ThreadOk(s, t) && Registered(s, t) && ChildOk(s, s.threads[t].c);
    RegistryStepKeepsFacts(s.threads[t], s.registry, t, s'.threads[t], s'.registry);
    RegistryMoveKeepsChildren(s, t, s');
    RegistryMoveKeepsThreads(s, t, s');
  }

  lemma TickKeepsInvariant(s: State, e: TickEvent, s': State)
    requires Invariant(s) && TickStep(s.registry, e).Some? && s' == s.(registry := TickStep(s.registry, e).value)
    ensures Invariant(s')
  {
    forall c | 0 <= c < |s'.children|
      ensures ChildOk(s', c)
    {
      assert ChildOk(s, c);
    }
    forall u | 0 <= u < |s'.threads|
      ensures ThreadOk(s', u) && Registered(s', u)
    {
      assert ThreadOk(s, u) && Registered(s, u);
    }
  }

  lemma EventKeepsChildren(s: State, c: Cid, after: Child, s': State)
    requires Invariant(s) && c < |s.children| && s' == s.(children := s.children[c := after])
    requires EventFramed(s.children[c], after) && ChildFacts(after, Holder(s, c)) && PipeFacts(after)
    ensures forall d :: 0 <= d < |s'.children| ==> ChildOk(s', d)
  {
    forall d | 0 <= d < |s'.children|
      ensures ChildOk(s', d)
    {
      assert ChildOk(s, d);
      assert Holder(s', d) == Holder(s, d);
    }
  }

  lemma EventKeepsThreads(s: State, c: Cid, after: Child, s': State)
    requires Invariant(s) && c < |s.children| && s' == s.(children := s.children[c := after])
    requires EventFramed(s.children[c], after)
    ensures forall u :: 0 <= u < |s'.threads| ==> ThreadOk(s', u) && Registered(s', u)
  {
    forall u | 0 <= u < |s'.threads|
      ensures ThreadOk(s', u) && Registered(s', u)
    {
      assert ThreadOk(s, u) && Registered(s, u);
    }
  }

  lemma EventKeepsInvariant(s: State, c: Cid, e: ChildEvent, s': State)
    requires Invariant(s) && c < |s.children| && ChildEventStep(s.children[c], e).Some?
    requires s' == s.(children := s.children[c := ChildEventStep(s.children[c], e).value])
    ensures Invariant(s')
  {
    var after := s'.children[c];
    assert ChildOk(s, c);
    EventKeepsFacts(s.children[c], e, after, Holder(s, c));
    EventKeepsPipe(s.children[c], e, after);
    EventFrame(s.children[c], e, after);
    EventKeepsChildren(s, c, after, s');
    EventKeepsThreads(s, c, after, s');
  }

  /** A clone, seen from every child: the one that is cloned and those it inherits from. */
  lemma CloneKeepsChild(s: State, c: Cid, s': State, d: Cid)
    requires Invariant(s) && Apply(s, Clone(c)) == Some(s') && d < |s.children|
    ensures ChildOk(s', d) && EventFramed(s.children[d], s'.children[d])
  {
    assert ChildOk(s, d);
    if d == c {
      CloneKeepsFacts(s.children[d], Holder(s, d));
    } else {
      InheritingKeepsFacts(s.children[d], c, Holder(s, d));
    }
    assert Holder(s', d) == Holder(s, d);
  }

  lemma CloneKeepsInvariant(s: State, c: Cid, s': State)
    requires Invariant(s) && Apply(s, Clone(c)) == Some(s')
    ensures Invariant(s')
  {
    forall d | 0 <= d < |s.children|
      ensures ChildOk(s', d) && EventFramed(s.children[d], s'.children[d])
    {
      CloneKeepsChild(s, c, s', d);
    }
    forall u | 0 <= u < |s'.threads|
      ensures ThreadOk(s', u) && Registered(s', u)
    {
      assert ThreadOk(s, u) && Registered(s, u);
    }
  }

  lemma CallKeepsInvariant(s: State, t: Tid, next: Pc, s': State)
    requires Invariant(s) && t < |s.threads| && s.threads[t].Idle?
    requires (next.RunLock? || next.KillLock?) && next.c < |s.children| && s.children[next.c].handle.published
    requires s' == s.(threads := s.threads[t := next])
    ensures Invariant(s')
  {
    forall c | 0 <= c < |s'.children|
      ensures ChildOk(s', c)
    {
      assert ChildOk(s, c);
    }
    forall u | 0 <= u < |s'.threads|
      ensures ThreadOk(s', u) && Registered(s', u)
    {
      assert ThreadOk(s, u) && Registered(s, u);
    }
  }

  lemma StepKeepsInvariant(s: State, a: Action, s': State)
    requires Invariant(s) && Apply(s, a) == Some(s')
    ensures Invariant(s')
  {
    match a
    case CallRun(t, c) => CallKeepsInvariant(s, t, RunLock(c), s');
    case CallKill(t, c) => CallKeepsInvariant(s, t, KillLock(c), s');
    case Move(t, how, result) =>
      if IsRegistryPc(s.threads[t]) {
        RegistryMoveKeepsInvariant(s, t, s');
      } else {
        ChildMoveKeepsInvariant(s, t, how, result, s');
      }
    case ChildDoes(c, e) => EventKeepsInvariant(s, c, e, s');
    case Clone(c) => CloneKeepsInvariant(s, c, s');
    case Tick(e) => TickKeepsInvariant(s, e, s');
  }

  /** Every state that any sequence of actions of any threads leads to keeps the invariant. */
  lemma {:induction false} RunKeepsInvariant(run: Run)
    requires IsRun(run)
    ensures Invariant(run.Now())
  {
    if run.Then? {
      RunKeepsInvariant(run.before);
      StepKeepsInvariant(run.before.Now(), run.action, run.next);
    }
  }
}
