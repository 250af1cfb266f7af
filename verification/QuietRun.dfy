/**
 The simplest run there is: one thread runs one child without listeners, which exits with
 code 0. A script that tells the truth about it exists, so the comparison of the two halves
 of the supervisor is about something.
 */
module QuietRuns {
  import opened ExecutionResults
  import opened Verdicts
  import opened Protocol
  import opened Refinement

  const NO_LIMITS := Settings(None, None, None, None, None, None)

  const QUIET_SCRIPT := Script(1, None, [], [Round([], None, ChildExited(0), None, [])], [], None)

  /** Where the thread is after i actions. */
  const PCS: seq<Pc> :=
    [Idle, Idle, Idle, Idle, Idle, RunLock(0), CallOnce(0), BodyStart(0), Hook(0, 0), Gate(0), GateWait(0),
     GateWait(0), GateWait(0), GateWait(0), Wakeup(0), Wait(0), Wait(0), Ended(0), Post(0), CleanKill(0),
     CleanLock(0), CleanSet(0), Reap(0), Return(0)]

  function PhaseAt(i: nat): Phase {
    if i == 0 then Unmade
    else if i == 1 then Made
    else if i == 2 then Setup
    else if i == 3 then AtReady
    else if i <= 10 then BeforeGate
    else if i == 11 then AtGate
    else if i == 12 then Released
    else if i <= 15 then Executing
    else if i <= 22 then Zombie
    else Gone
  }

  function ChildAt(i: nat): Child {
    Child(
      [], false,
      Process(PhaseAt(i), 0, false, i >= 11, false, i >= 13),
      Handle(i >= 4, if i >= 6 then Some(0) else None, if i == 21 then Some(0) else None, i < 22,
             if i < 7 then New else if i < 23 then Running else Done, i >= 10, false, 0, false, {}),
      Log(0, false, if i >= 7 then 1 else 0, false, if i >= 20 then 1 else 0, false, false, false, []))
  }

  function StateAt(i: nat): State
    requires i < 24
  {
    State([ChildAt(i)], [PCS[i]], Registry(Untouched, false, Free, {}, NotSpawned, false))
  }

  function ActionAt(i: nat): Action {
    if i == 0 then ChildDoes(0, Make)
    else if i == 1 then Clone(0)
    else if i == 2 then ChildDoes(0, ReachReady)
    else if i == 3 then ChildDoes(0, Publish)
    else if i == 4 then CallRun(0, 0)
    else if i == 10 then ChildDoes(0, Arrive)
    else if i == 11 then ChildDoes(0, PassGate)
    else if i == 12 then ChildDoes(0, ExecSucceeds)
    else if i == 15 then ChildDoes(0, Dies)
    else Move(0, Proceeds, 0)
  }

  lemma SpawnEventAt(i: nat)
    requires i == 0 || i == 2 || i == 3
    ensures ChildEventStep(ChildAt(i), ActionAt(i).child) == Some(ChildAt(i + 1)) && PCS[i] == PCS[i + 1]
  {}

  lemma GateEventAt(i: nat)
    requires 10 <= i < 13
    ensures ChildEventStep(ChildAt(i), ActionAt(i).child) == Some(ChildAt(i + 1)) && PCS[i] == PCS[i + 1]
  {}

  lemma EndEventAt()
    ensures ChildEventStep(ChildAt(15), Dies) == Some(ChildAt(16)) && PCS[15] == PCS[16]
  {}

  lemma EntryAt(i: nat, seen: Seen)
    requires 5 <= i < 10 && seen.result == 0
    ensures ChildStep(PCS[i], ChildAt(i), 0, Proceeds, seen) == To(PCS[i + 1], ChildAt(i + 1))
  {
    if i < 7 {
      assert LockingStep(PCS[i], ChildAt(i), 0) == To(PCS[i + 1], ChildAt(i + 1));
    } else if i < 9 {
      assert HookStep(PCS[i], ChildAt(i), Proceeds) == To(PCS[i + 1], ChildAt(i + 1));
    } else {
      assert GateStep(PCS[i], ChildAt(i)) == To(PCS[i + 1], ChildAt(i + 1));
    }
  }

  lemma GateAt()
    ensures GateStep(PCS[13], ChildAt(13)) == To(PCS[14], ChildAt(14))
  {}

  lemma WatchAt(i: nat, seen: Seen)
    requires (i == 14 || i == 16) && seen.result == 0
    ensures WatchStep(PCS[i], ChildAt(i), Proceeds, seen) == To(PCS[i + 1], ChildAt(i + 1))
  {}

  lemma FinishAt(i: nat, seen: Seen)
    requires (i == 17 || i == 18) && seen.result == 0
    ensures FinishStep(PCS[i], ChildAt(i), Proceeds, seen) == To(PCS[i + 1], ChildAt(i + 1))
  {}

  lemma LoopAt(i: nat, seen: Seen)
    requires i == 13 || i == 14 || 16 <= i < 19
    requires seen.result == 0
    ensures ChildStep(PCS[i], ChildAt(i), 0, Proceeds, seen) == To(PCS[i + 1], ChildAt(i + 1))
  {
    if i == 13 {
      GateAt();
    } else if i == 14 || i == 16 {
      WatchAt(i, seen);
    } else {
      FinishAt(i, seen);
    }
  }

  lemma ExitAt(i: nat, seen: Seen)
    requires 19 <= i < 23
    ensures ChildStep(PCS[i], ChildAt(i), 0, Proceeds, seen) == To(PCS[i + 1], ChildAt(i + 1))
  {
    assert CleanStep(PCS[i], ChildAt(i), 0) == To(PCS[i + 1], ChildAt(i + 1));
  }

  lemma MoveApplies(ch: Child, pc: Pc, next: Pc, after: Child, reg: Registry)
    requires !pc.Idle? && !pc.AssertionFailed? && !IsRegistryPc(pc) && pc.c == 0
    requires ChildStep(pc, ch, 0, Proceeds, Seen(0, SharedPipe(State([ch], [pc], reg), 0))) == To(next, after)
    ensures Apply(State([ch], [pc], reg), Move(0, Proceeds, 0)) == Some(State([after], [next], reg))
  {
    assert [pc][0 := next] == [next] && [ch][0 := after] == [after];
  }

  lemma PcAt(i: nat)
    requires 5 <= i < 24
    ensures !PCS[i].Idle? && !PCS[i].AssertionFailed? && !IsRegistryPc(PCS[i]) && PCS[i].c == 0
  {}

  lemma MoveAt(i: nat)
    requires i < 23 && ActionAt(i).Move?
    ensures Apply(StateAt(i), ActionAt(i)) == Some(StateAt(i + 1))
  {
    var seen := Seen(0, SharedPipe(StateAt(i), 0));
    if i < 10 {
      EntryAt(i, seen);
    } else if i < 19 {
      LoopAt(i, seen);
    } else {
      ExitAt(i, seen);
    }
    PcAt(i);
    MoveApplies(ChildAt(i), PCS[i], PCS[i + 1], ChildAt(i + 1), StateAt(i).registry);
  }

  lemma EventApplies(ch: Child, pc: Pc, e: ChildEvent, after: Child, reg: Registry)
    requires ChildEventStep(ch, e) == Some(after)
    ensures Apply(State([ch], [pc], reg), ChildDoes(0, e)) == Some(State([after], [pc], reg))
  {
    assert [ch][0 := after] == [after];
  }

  lemma EventAt(i: nat)
    requires i < 23 && ActionAt(i).ChildDoes?
    ensures Apply(StateAt(i), ActionAt(i)) == Some(StateAt(i + 1))
  {
    if i < 4 {
      SpawnEventAt(i);
    } else if i < 13 {
      GateEventAt(i);
    } else {
      EndEventAt();
    }
    EventApplies(ChildAt(i), PCS[i], ActionAt(i).child, ChildAt(i + 1), StateAt(i).registry);
  }

  lemma CloneAt()
    ensures Apply(StateAt(1), Clone(0)) == Some(StateAt(2))
  {
    assert AfterClone([ChildAt(1)], 0) == [ChildAt(2)];
  }

  lemma CallAt()
    ensures Apply(StateAt(4), CallRun(0, 0)) == Some(StateAt(5))
  {
    assert [Idle][0 := RunLock(0)] == [PCS[5]] && ChildAt(4) == ChildAt(5);
  }

  lemma StepAt(i: nat)
    requires i < 23
    ensures Apply(StateAt(i), ActionAt(i)) == Some(StateAt(i + 1))
  {
    if ActionAt(i).Move? {
      MoveAt(i);
    } else if ActionAt(i).ChildDoes? {
      EventAt(i);
    } else if i == 1 {
      CloneAt();
    } else {
      CallAt();
    }
  }

  /** The first i actions. */
  function QuietRun(i: nat): Run
    requires i < 24
  {
    if i == 0 then Start(StateAt(0)) else Then(QuietRun(i - 1), ActionAt(i - 1), StateAt(i))
  }

  lemma TrueAtStep(i: nat, r: nat)
    requires i < 23 && r == if i < 15 then 0 else 1
    ensures TrueStep(NO_LIMITS, [], QUIET_SCRIPT, r, StateAt(i), ActionAt(i), 0)
  {
    if i == 14 {
      assert FailsAsCalls(Proceeds, WakeupErrors(NO_LIMITS, [], QUIET_SCRIPT, 0));
      assert !SomeKill(NO_LIMITS, [], QUIET_SCRIPT, 0);
    }
  }

  lemma KillsAt(i: nat, notes: Notes)
    requires i < 23
    ensures |Noted(notes, StateAt(i), ActionAt(i), StateAt(i + 1), 0).kills| == |notes.kills| + if i == 14 then 1 else 0
  {}

  lemma Extends(run: Run, a: Action, s: State)
    requires IsRun(run) && TrueOf(NO_LIMITS, [], QUIET_SCRIPT, run, 0) && Apply(run.Now(), a) == Some(s)
    requires TrueStep(NO_LIMITS, [], QUIET_SCRIPT, |NotesOf(run, 0).kills|, run.Now(), a, 0)
    ensures IsRun(Then(run, a, s)) && TrueOf(NO_LIMITS, [], QUIET_SCRIPT, Then(run, a, s), 0)
  {}

  lemma {:induction false} QuietRunIsTrue(i: nat)
    requires i < 24
    ensures IsRun(QuietRun(i)) && QuietRun(i).Now() == StateAt(i)
    ensures |NotesOf(QuietRun(i), 0).kills| == if i < 15 then 0 else 1
    ensures TrueOf(NO_LIMITS, [], QUIET_SCRIPT, QuietRun(i), 0)
  {
    if i > 0 {
      QuietRunIsTrue(i - 1);
      StepAt(i - 1);
      TrueAtStep(i - 1, |NotesOf(QuietRun(i - 1), 0).kills|);
      KillsAt(i - 1, NotesOf(QuietRun(i - 1), 0));
      Extends(QuietRun(i - 1), ActionAt(i - 1), StateAt(i));
    }
  }

  lemma Witness(run: Run)
    requires IsRun(run) && TrueOf(NO_LIMITS, [], QUIET_SCRIPT, run, 0) && run.Now() == StateAt(23)
    ensures exists c: Cid, settings, kinds, script :: Comparable(run, c, settings, kinds, script) &&
                                                 run.Now().children[c].handle.once == Done
  {
    assert QUIET_SCRIPT.rounds[0].wait == ChildExited(0);
    assert Comparable(run, 0, NO_LIMITS, [], QUIET_SCRIPT);
  }

  /** A run that comes to its end, and a script that tells the truth about it. */
  lemma TrueScriptExists()
    ensures exists run, c: Cid, settings, kinds, script :: Comparable(run, c, settings, kinds, script) &&
                                                      run.Now().children[c].handle.once == Done
  {
    QuietRunIsTrue(23);
    Witness(QuietRun(23));
  }
}
