/**
 src/process/timeout.rs as code: its functions, each running alone, do to the globals what
 the steps of Protocol do one at a time.
 */
module Timeouts {
  import opened ExecutionResults
  import opened Protocol

  /** n steps of thread t on the registry, with nobody in between. */
  function StepsAlone(pc: Pc, reg: Registry, t: Tid, n: nat): RegistryMove
    decreases n
  {
    if n == 0 then Enter(pc, reg)
    else
      var move := RegistryStep(pc, reg, t);
      if move.Excluded? then Excluded else StepsAlone(move.pc, move.registry, t, n - 1)
  }

  /** What the ticker does between taking the lock and giving it back. */
  function TicksAlone(reg: Registry, signals: seq<Tid>): Option<Registry> {
    if signals == [] then Some(reg)
    else
      var before := TicksAlone(reg, signals[..|signals| - 1]);
      if before.None? then None else TickStep(before.value, TickSignal(signals[|signals| - 1]))
  }

  /** The globals after a thread has been added while nobody else was inside. */
  function Added(reg: Registry, t: Tid): Registry {
    reg.(
      once := Initialized,
      handlerInstalled := reg.handlerInstalled || reg.once.Untouched?,
      ticker := if reg.once.Untouched? then Sleeping else reg.ticker,
      registered := reg.registered + {t})
  }

  /** Adding a thread, step by step: through the once if nobody has been, then under the lock. */
  lemma AddAlone(c: Cid, reg: Registry, t: Tid)
    requires reg.lock.Free? && !reg.once.InitializedBy?
    ensures StepsAlone(RegOnce(c), reg, t, if reg.once.Initialized? then 3 else 5) ==
            Enter(Gate(c), Added(reg, t))
  {
    if reg.once.Untouched? {
      var started := reg.(once := InitializedBy(t));
      var spawned := started.(ticker := Sleeping);
      var ready := spawned.(handlerInstalled := true, once := Initialized);
      assert StepsAlone(RegOnce(c), reg, t, 5) == StepsAlone(RegSpawn(c), started, t, 4);
      assert StepsAlone(RegSpawn(c), started, t, 4) == StepsAlone(RegHandler(c), spawned, t, 3);
      assert StepsAlone(RegHandler(c), spawned, t, 3) == StepsAlone(RegLock(c), ready, t, 2);
      InsertAlone(c, ready, t);
    } else {
      assert StepsAlone(RegOnce(c), reg, t, 3) == StepsAlone(RegLock(c), reg, t, 2);
      InsertAlone(c, reg, t);
    }
  }

  lemma InsertAlone(c: Cid, reg: Registry, t: Tid)
    requires reg.lock.Free?
    ensures StepsAlone(RegLock(c), reg, t, 2) == Enter(Gate(c), reg.(registered := reg.registered + {t}))
  {
    var locked := reg.(lock := HeldBy(t));
    assert StepsAlone(RegLock(c), reg, t, 2) == StepsAlone(RegInsert(c), locked, t, 1);
    assert StepsAlone(RegInsert(c), locked, t, 1) == RegistryStep(RegInsert(c), locked, t);
  }

  lemma RemoveAlone(c: Cid, reg: Registry, t: Tid)
    requires reg.lock.Free?
    ensures StepsAlone(UnregLock(c), reg, t, 2) ==
            Enter(if t in reg.registered then Post(c) else AssertionFailed(c), reg.(registered := reg.registered - {t}))
  {
    var locked := reg.(lock := HeldBy(t));
    assert StepsAlone(UnregLock(c), reg, t, 2) == StepsAlone(UnregRemove(c), locked, t, 1);
    assert StepsAlone(UnregRemove(c), locked, t, 1) == RegistryStep(UnregRemove(c), locked, t);
  }

  class TimeoutThreads {
    var initialized: bool // the state of the once
    var tickerSpawned: bool
    var handlerInstalled: bool
    var registered: set<Tid>

    constructor ()
      ensures Valid() && View() == Registry(Untouched, false, Free, {}, NotSpawned, false)
    {
      initialized, tickerSpawned, handlerInstalled, registered := false, false, false, {};
    }

    ghost predicate Valid()
      reads this
    {
      initialized == tickerSpawned == handlerInstalled && (registered != {} ==> handlerInstalled)
    }

    /** The globals while nobody is inside one of the functions. */
    ghost function View(): Registry
      reads this
    {
      Registry(if initialized then Initialized else Untouched, handlerInstalled, Free, registered,
               if tickerSpawned then Sleeping else NotSpawned, false)
    }

    method InitTimeoutThread()
      modifies this
      ensures tickerSpawned && handlerInstalled
      ensures initialized == old(initialized) && registered == old(registered)
    {
      tickerSpawned := true;
      handlerInstalled := true;
    }

    method AddTimeoutThread(t: Tid)
      requires Valid()
      modifies this
      ensures Valid() && View() == Added(old(View()), t)
    {
      if !initialized {
        InitTimeoutThread();
        initialized := true;
      }
      registered := registered + {t};
    }

    /** `present` is what the assertion in `remove_timeout_thread` checks. */
    method RemoveTimeoutThread(t: Tid) returns (present: bool)
      requires Valid()
      modifies this
      ensures present <==> t in old(registered)
      ensures Valid() && View() == old(View()).(registered := old(registered) - {t})
    {
      present := t in registered;
      registered := registered - {t};
    }

    /** One round of the ticker's loop: it signals every registered thread once, and leaves
        the globals as they were. */
    method TickRound() returns (signals: seq<Tid>)
      requires Valid() && tickerSpawned
      ensures forall t :: t in registered <==> t in signals
      ensures forall i, j :: 0 <= i < j < |signals| ==> signals[i] != signals[j]
      ensures var locked := TickStep(View(), TickLock);
              && locked.Some?
              && var iterated := TicksAlone(locked.value, signals);
                 && iterated.Some?
                 && TickStep(iterated.value, TickUnlock) == Some(View())
    {
      signals := [];
      var todo := registered;
      ghost var locked := TickStep(View(), TickLock).value;
      while todo != {}
        invariant todo <= registered
        invariant forall t :: t in registered <==> t in todo || t in signals
        invariant forall t :: t in signals ==> t !in todo
        invariant forall i, j :: 0 <= i < j < |signals| ==> signals[i] != signals[j]
        invariant TicksAlone(locked, signals) == Some(locked.(ticker := Iterating(todo)))
        decreases todo
      {
        var t :| t in todo;
        assert (signals + [t])[..|signals|] == signals;
        todo := todo - {t};
        signals := signals + [t];
      }
    }
  }
}
