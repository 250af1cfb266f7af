/**
 Every step of every thread, child and ticker keeps the supervision of a child in line with a
 script that tells the truth; so whole runs end as the script says.
 */
module RefinementProof {
  import opened ExecutionResults
  import opened Verdicts
  import opened Protocol
  import opened ProtocolInvariant
  import opened ProtocolSafety
  import opened ProtocolTheorems
  import opened Refinement

  // ----- The steps of the supervising thread -----

  lemma FailedStart(settings: Settings, script: Script, st: Standing, notes: Notes, kinds: seq<Kind>)
    requires Answers(script, kinds) && !StartsOk(script, |script.starts|)
    requires st.pc.CleanKill? && st.failed && !st.eof && notes.kills == [] && st.registered == notes.wasRegistered
    ensures InBodyAsScripted(settings, kinds, script, st, notes)
  {
    StartEnds(settings, kinds, script);
  }

  lemma BodyStartFollows(settings: Settings, script: Script, pc: Pc, ch: Child, how: How, seen: Seen, next: Pc,
                         after: Child, notes: Notes, registered: bool)
    requires Answers(script, ch.kinds) && pc.BodyStart?
    requires InBodyAsScripted(settings, ch.kinds, script, Stands(ch, pc, registered), notes)
    requires TrueAt(settings, ch.kinds, script, |notes.kills|, pc, ch, how, seen)
    requires HookStep(pc, ch, how) == To(next, after)
    ensures InBodyAsScripted(settings, ch.kinds, script, Stands(after, next, registered), notes)
  {
    if script.errorBefore.Some? {
      FailedStart(settings, script, Stands(after, next, registered), notes, ch.kinds);
    }
  }

  lemma HookKeeps(c: Cid, i: nat, kind: Kind, ch: Child, how: How, next: Pc, after: Child)
    requires HookOne(c, i, kind, ch, how) == To(next, after)
    ensures next == if how.Fails? && !kind.Time? then CleanKill(c)
                    else if kind.Ptrace? then AttachWait(c, i)
                    else Hook(c, i + 1)
    ensures after.log.bodyFailed == (ch.log.bodyFailed || next.CleanKill?)
    ensures after.log.eofSeen == ch.log.eofSeen && after.handle.once == ch.handle.once
  {}

  lemma HookFollows(settings: Settings, script: Script, pc: Pc, ch: Child, how: How, seen: Seen, next: Pc,
                    after: Child, notes: Notes, registered: bool)
    requires Answers(script, ch.kinds) && pc.Hook? && pc.i < |ch.kinds|
    requires InBodyAsScripted(settings, ch.kinds, script, Stands(ch, pc, registered), notes)
    requires TrueAt(settings, ch.kinds, script, |notes.kills|, pc, ch, how, seen)
    requires HookOne(pc.c, pc.i, ch.kinds[pc.i], ch, how) == To(next, after)
    ensures InBodyAsScripted(settings, ch.kinds, script, Stands(after, next, registered), notes)
  {
    HookKeeps(pc.c, pc.i, ch.kinds[pc.i], ch, how, next, after);
    if next.CleanKill? {
      FailedStart(settings, script, Stands(after, next, registered), notes, ch.kinds);
    }
  }

  lemma HooksDoneFollows(settings: Settings, script: Script, pc: Pc, ch: Child, how: How, next: Pc,
                         after: Child, notes: Notes, registered: bool)
    requires Answers(script, ch.kinds) && pc.Hook? && pc.i >= |ch.kinds|
    requires ch.periodic == Periodic(settings, ch.kinds)
    requires InBodyAsScripted(settings, ch.kinds, script, Stands(ch, pc, registered), notes)
    requires HookStep(pc, ch, how) == To(next, after)
    ensures InBodyAsScripted(settings, ch.kinds, script, Stands(after, next, registered), notes)
  {
    assert CalledBefore(settings, ch.kinds, script, []);
  }

  lemma AttachFollows(settings: Settings, script: Script, pc: Pc, ch: Child, how: How, seen: Seen, next: Pc,
                      after: Child, notes: Notes, registered: bool)
    requires Answers(script, ch.kinds) && (pc.AttachWait? || pc.AttachSet?)
    requires ProcessFacts(ch) && BodyFacts(ch, pc)
    requires InBodyAsScripted(settings, ch.kinds, script, Stands(ch, pc, registered), notes)
    requires TrueAt(settings, ch.kinds, script, |notes.kills|, pc, ch, how, seen)
    requires AttachStep(pc, ch, how) == To(next, after)
    ensures InBodyAsScripted(settings, ch.kinds, script, Stands(after, next, registered), notes)
  {
    if next.CleanKill? {
      FailedStart(settings, script, Stands(after, next, registered), notes, ch.kinds);
    }
  }

  lemma GateFollows(settings: Settings, script: Script, pc: Pc, ch: Child, next: Pc, after: Child, notes: Notes,
                    registered: bool)
    requires Answers(script, ch.kinds)
    requires InBodyAsScripted(settings, ch.kinds, script, Stands(ch, pc, registered), notes)
    requires GateStep(pc, ch) == To(next, after)
    ensures InBodyAsScripted(settings, ch.kinds, script, Stands(after, next, registered), notes)
  {}

  /** The supervisor leaves the loop, or goes on to the next round, with the error of the last. */
  lemma FailedRound(settings: Settings, kinds: seq<Kind>, script: Script, st: Standing, notes: Notes)
    requires Answers(script, kinds) && 0 < |notes.kills| <= |script.rounds|
    requires st.pc.CleanKill? && st.failed && st.registered == (Periodic(settings, kinds) || notes.wasRegistered)
    requires NoErrors(settings, kinds, script, |notes.kills| - 1)
    requires RoundError(settings, kinds, script, |notes.kills| - 1).Some?
    requires CalledBefore(settings, kinds, script, notes.kills)
    requires st.eof <==> SampledBefore(settings, kinds, script, |notes.kills|)
    ensures InBodyAsScripted(settings, kinds, script, st, notes)
  {
    LoopEnds(settings, kinds, script, |notes.kills| - 1);
  }

  lemma CalledNext(settings: Settings, kinds: seq<Kind>, script: Script, kills: seq<bool>)
    requires Answers(script, kinds) && 0 < |kills| <= |script.rounds|
    requires CalledBefore(settings, kinds, script, Front(kills))
    requires Last(kills) == SendsKill(settings, kinds, script, |kills| - 1)
    ensures CalledBefore(settings, kinds, script, kills)
  {
    assert forall r :: 0 <= r < |kills| - 1 ==> kills[r] == Front(kills)[r];
  }

  lemma SampledNext(settings: Settings, kinds: seq<Kind>, script: Script, n: nat)
    requires Answers(script, kinds) && n < |script.rounds|
    ensures SampledBefore(settings, kinds, script, n + 1) <==>
            SampledBefore(settings, kinds, script, n) || SamplesAtEnd(settings, kinds, script, n)
  {}

  /** What the memory listener sees in the wakeup step is its sample in the script. */
  lemma SampleSeen(settings: Settings, kinds: seq<Kind>, script: Script, r: nat, ch: Child, how: How, seen: Seen,
                   asked: nat)
    requires Answers(script, kinds) && r < |script.rounds|
    requires WakeupTrue(settings, kinds, script, r, ch, how, seen)
    requires asked == if how.Fails? && how.at < |kinds| then how.at else |kinds|
    ensures MemoryAmong(kinds, asked) && PipeClosed(ch, seen.shared) <==> SamplesAtEnd(settings, kinds, script, r)
  {
    CallsMeaning(how, WakeupErrors(settings, kinds, script, r));
    MemoryAmongMeaning(kinds, asked);
    if MemoryAmong(kinds, asked) {
      var l :| 0 <= l < asked && kinds[..asked][l] == Memory;
      assert kinds[l] == Memory;
    }
    if SamplesAtEnd(settings, kinds, script, r) {
      var l :| 0 <= l < asked && kinds[l] == Memory && script.rounds[r].samples[l].pipeClosed;
      assert kinds[..asked][l] == Memory;
    }
  }

  lemma WakeupKeeps(pc: Pc, ch: Child, how: How, seen: Seen, next: Pc, after: Child)
    requires pc.Wakeup? && WatchStep(pc, ch, how, seen) == To(next, after)
    ensures var asked := if how.Fails? && how.at < |ch.kinds| then how.at else |ch.kinds|;
            after.log.eofSeen == (ch.log.eofSeen || (MemoryAmong(ch.kinds, asked) && PipeClosed(ch, seen.shared)))
    ensures next == if how.Fails? then CleanKill(pc.c) else if how.Diverts? then KillVote(pc.c) else Wait(pc.c)
    ensures after.log.bodyFailed == (ch.log.bodyFailed || how.Fails?) && !Signalled(ch, after)
  {}

  /** All listeners have been woken without an error. */
  lemma WokenFollows(settings: Settings, kinds: seq<Kind>, script: Script, st: Standing, st': Standing, notes: Notes,
                     notes': Notes)
    requires Answers(script, kinds) && st.pc.Wakeup? && InBodyAsScripted(settings, kinds, script, st, notes)
    requires notes' == notes.(kills := notes.kills + [false])
    requires FirstError(WakeupErrors(settings, kinds, script, |notes.kills|)).None?
    requires (st'.pc.KillVote? || st'.pc.Wait?) && !st'.failed && st'.registered == st.registered
    requires st'.pc.KillVote? <==> SomeKill(settings, kinds, script, |notes.kills|)
    requires st'.eof <==> st.eof || SamplesAtEnd(settings, kinds, script, |notes.kills|)
    ensures InBodyAsScripted(settings, kinds, script, st', notes')
  {
    assert Front(notes'.kills) == notes.kills && !Last(notes'.kills);
    SampledNext(settings, kinds, script, |notes.kills|);
  }

  /** One of them has failed. */
  lemma WakingFailsFollows(settings: Settings, kinds: seq<Kind>, script: Script, st: Standing, st': Standing,
                           notes: Notes, notes': Notes)
    requires Answers(script, kinds) && st.pc.Wakeup? && InBodyAsScripted(settings, kinds, script, st, notes)
    requires notes' == notes.(kills := notes.kills + [false])
    requires FirstError(WakeupErrors(settings, kinds, script, |notes.kills|)).Some?
    requires st'.pc.CleanKill? && st'.failed && st'.registered == st.registered
    requires st'.eof <==> st.eof || SamplesAtEnd(settings, kinds, script, |notes.kills|)
    ensures InBodyAsScripted(settings, kinds, script, st', notes')
  {
    assert Front(notes'.kills) == notes.kills && !Last(notes'.kills);
    SampledNext(settings, kinds, script, |notes.kills|);
    CalledNext(settings, kinds, script, notes'.kills);
    FailedRound(settings, kinds, script, st', notes');
  }

  lemma WakeupFollows(settings: Settings, script: Script, pc: Pc, ch: Child, how: How, seen: Seen, next: Pc,
                      after: Child, notes: Notes, notes': Notes, registered: bool)
    requires Answers(script, ch.kinds) && pc.Wakeup?
    requires InBodyAsScripted(settings, ch.kinds, script, Stands(ch, pc, registered), notes)
    requires TrueAt(settings, ch.kinds, script, |notes.kills|, pc, ch, how, seen)
    requires WatchStep(pc, ch, how, seen) == To(next, after)
    requires notes' == notes.(kills := notes.kills + [Signalled(ch, after)])
    ensures InBodyAsScripted(settings, ch.kinds, script, Stands(after, next, registered), notes')
  {
    var kinds, r := ch.kinds, |notes.kills|;
    var st, st' := Stands(ch, pc, registered), Stands(after, next, registered);
    WakeupKeeps(pc, ch, how, seen, next, after);
    CallsMeaning(how, WakeupErrors(settings, kinds, script, r));
    SampleSeen(settings, kinds, script, r, ch, how, seen, if how.Fails? && how.at < |kinds| then how.at else |kinds|);
    if how.Fails? {
      WakingFailsFollows(settings, kinds, script, st, st', notes, notes');
    } else {
      WokenFollows(settings, kinds, script, st, st', notes, notes');
    }
  }

  lemma KillVoteKeeps(pc: Pc, ch: Child, how: How, seen: Seen, next: Pc, after: Child)
    requires pc.KillVote? && WatchStep(pc, ch, how, seen) == To(next, after)
    ensures next == (if how.Fails? then CleanKill(pc.c) else Wait(pc.c)) && after.log.eofSeen == ch.log.eofSeen
    ensures after.log.bodyFailed == (ch.log.bodyFailed || how.Fails?) && Signalled(ch, after) == !how.Fails?
  {}

  lemma KillVoteFollows(settings: Settings, script: Script, pc: Pc, ch: Child, how: How, seen: Seen, next: Pc,
                        after: Child, notes: Notes, notes': Notes, registered: bool)
    requires Answers(script, ch.kinds) && pc.KillVote?
    requires InBodyAsScripted(settings, ch.kinds, script, Stands(ch, pc, registered), notes)
    requires TrueAt(settings, ch.kinds, script, |notes.kills|, pc, ch, how, seen)
    requires WatchStep(pc, ch, how, seen) == To(next, after)
    requires notes' == if Signalled(ch, after) then notes.(kills := Front(notes.kills) + [true]) else notes
    ensures InBodyAsScripted(settings, ch.kinds, script, Stands(after, next, registered), notes')
  {
    KillVoteKeeps(pc, ch, how, seen, next, after);
    assert Front(notes'.kills) == Front(notes.kills) && Last(notes'.kills) == !how.Fails?;
    if how.Fails? {
      CalledNext(settings, ch.kinds, script, notes'.kills);
      FailedRound(settings, ch.kinds, script, Stands(after, next, registered), notes');
    }
  }

  lemma WaitErrorFound(round: Round, ch: Child, how: How)
    requires WaitTrue(round, ch, how)
    ensures WaitError(round).Some? <==>
            how.Fails? || (!round.wait.Interrupted? && !round.wait.ChildStopped? && ch.proc.childError)
    ensures !how.Fails? ==> (how.Diverts? <==> !Ends(round.wait))
  {
    if round.wait.ChildStopped? {
      CallsMeaning(how, [round.childError] + round.events);
      assert ([round.childError] + round.events)[1..] == round.events;
    } else if Ends(round.wait) && !round.wait.WaitFailed? && round.childError.None? {
      CallsMeaning(how, round.events);
    }
  }

  lemma WaitFollows(settings: Settings, script: Script, pc: Pc, ch: Child, how: How, seen: Seen, next: Pc,
                    after: Child, notes: Notes, registered: bool)
    requires Answers(script, ch.kinds) && pc.Wait?
    requires InBodyAsScripted(settings, ch.kinds, script, Stands(ch, pc, registered), notes)
    requires TrueAt(settings, ch.kinds, script, |notes.kills|, pc, ch, how, seen)
    requires WatchStep(pc, ch, how, seen) == To(next, after)
    ensures InBodyAsScripted(settings, ch.kinds, script, Stands(after, next, registered), notes)
  {
    var kinds, r := ch.kinds, |notes.kills| - 1;
    WaitErrorFound(script.rounds[r], ch, how);
    CalledNext(settings, kinds, script, notes.kills);
    if WaitError(script.rounds[r]).Some? {
      FailedRound(settings, kinds, script, Stands(after, next, registered), notes);
    } else {
      assert RoundError(settings, kinds, script, r).None?;
    }
  }

  lemma EndedFollows(settings: Settings, script: Script, pc: Pc, ch: Child, how: How, seen: Seen, next: Pc,
                     after: Child, notes: Notes, registered: bool)
    requires Answers(script, ch.kinds) && pc.Ended? && ch.periodic == Periodic(settings, ch.kinds)
    requires InBodyAsScripted(settings, ch.kinds, script, Stands(ch, pc, registered), notes)
    requires FinishStep(pc, ch, how, seen) == To(next, after)
    ensures InBodyAsScripted(settings, ch.kinds, script, Stands(after, next, registered), notes)
  {}

  lemma PostKeeps(pc: Pc, ch: Child, how: How, seen: Seen, next: Pc, after: Child)
    requires pc.Post? && FinishStep(pc, ch, how, seen) == To(next, after)
    ensures next == CleanKill(pc.c) && after.log.eofSeen == ch.log.eofSeen
    ensures after.log.bodyFailed == (ch.log.bodyFailed || how.Fails? || ch.proc.childError)
  {}

  lemma PostFollows(settings: Settings, script: Script, pc: Pc, ch: Child, how: How, seen: Seen, next: Pc,
                    after: Child, notes: Notes, registered: bool)
    requires Answers(script, ch.kinds) && pc.Post?
    requires InBodyAsScripted(settings, ch.kinds, script, Stands(ch, pc, registered), notes)
    requires TrueAt(settings, ch.kinds, script, |notes.kills|, pc, ch, how, seen)
    requires FinishStep(pc, ch, how, seen) == To(next, after)
    ensures InBodyAsScripted(settings, ch.kinds, script, Stands(after, next, registered), notes)
  {
    PostKeeps(pc, ch, how, seen, next, after);
    LoopPasses(settings, ch.kinds, script);
    CallsMeaning(how, FinalErrors(ch.kinds, script));
  }

  lemma CleanKeeps(pc: Pc, ch: Child, t: Tid, next: Pc, after: Child)
    requires pc.CleanKill? || pc.CleanLock? || pc.CleanSet? || pc.Reap?
    requires CleanStep(pc, ch, t) == To(next, after)
    ensures after.log.bodyFailed == ch.log.bodyFailed && after.log.eofSeen == ch.log.eofSeen
    ensures after.handle.once == if pc.Reap? then Done else ch.handle.once
    ensures next.CleanLock? || next.CleanSet? || next.Reap? || next.Return?
    ensures pc.Reap? == next.Return?
  {}

  lemma CleanFollows(settings: Settings, script: Script, pc: Pc, ch: Child, t: Tid, next: Pc, after: Child,
                     notes: Notes, registered: bool)
    requires Answers(script, ch.kinds) && ch.handle.once == Running && CleanStep(pc, ch, t) == To(next, after)
    requires pc.CleanKill? || pc.CleanLock? || pc.CleanSet? || pc.Reap?
    requires InBodyAsScripted(settings, ch.kinds, script, Stands(ch, pc, registered), notes)
    ensures AsScripted(settings, ch.kinds, script, Stands(after, next, registered), notes)
  {
    CleanKeeps(pc, ch, t, next, after);
  }

  lemma RegistryFollows(settings: Settings, kinds: seq<Kind>, script: Script, pc: Pc, reg: Registry, t: Tid,
                        next: Pc, after: Registry, ch: Child, notes: Notes)
    requires Answers(script, kinds) && RegistryStep(pc, reg, t) == Enter(next, after)
    requires pc.UnregRemove? ==> t in reg.registered
    requires (pc.UnregLock? || pc.UnregRemove?) ==> Periodic(settings, kinds)
    requires InBodyAsScripted(settings, kinds, script, Stands(ch, pc, t in reg.registered), notes)
    ensures InBodyAsScripted(settings, kinds, script, Stands(ch, next, t in after.registered), notes)
  {
    if pc.RegInsert? {
      assert CalledBefore(settings, kinds, script, []);
    }
  }

  predicate BeforeLoop(pc: Pc) {
    pc.BodyStart? || pc.Hook? || pc.AttachWait? || pc.AttachSet? || pc.Gate? || pc.GateWait?
  }

  predicate InLoop(pc: Pc) {
    pc.Wakeup? || pc.KillVote? || pc.Wait?
  }

  predicate AfterLoop(pc: Pc) {
    pc.Ended? || pc.Post?
  }

  lemma BeforeLoopFollows(settings: Settings, script: Script, pc: Pc, ch: Child, t: Tid, how: How, seen: Seen,
                          next: Pc, after: Child, notes: Notes, registered: bool)
    requires Answers(script, ch.kinds) && ch.periodic == Periodic(settings, ch.kinds)
    requires BeforeLoop(pc) && ProcessFacts(ch) && BodyFacts(ch, pc)
    requires InBodyAsScripted(settings, ch.kinds, script, Stands(ch, pc, registered), notes)
    requires TrueAt(settings, ch.kinds, script, |notes.kills|, pc, ch, how, seen)
    requires ChildStep(pc, ch, t, how, seen) == To(next, after)
    ensures InBodyAsScripted(settings, ch.kinds, script, Stands(after, next, registered), notes)
  {
    if pc.BodyStart? {
      BodyStartFollows(settings, script, pc, ch, how, seen, next, after, notes, registered);
    } else if pc.Hook? {
      if pc.i < |ch.kinds| {
        HookFollows(settings, script, pc, ch, how, seen, next, after, notes, registered);
      } else {
        HooksDoneFollows(settings, script, pc, ch, how, next, after, notes, registered);
      }
    } else if pc.AttachWait? || pc.AttachSet? {
      AttachFollows(settings, script, pc, ch, how, seen, next, after, notes, registered);
    } else {
      GateFollows(settings, script, pc, ch, next, after, notes, registered);
    }
  }

  lemma InLoopFollows(settings: Settings, script: Script, pc: Pc, ch: Child, t: Tid, how: How, seen: Seen,
                      next: Pc, after: Child, notes: Notes, registered: bool)
    requires Answers(script, ch.kinds) && InLoop(pc)
    requires InBodyAsScripted(settings, ch.kinds, script, Stands(ch, pc, registered), notes)
    requires TrueAt(settings, ch.kinds, script, |notes.kills|, pc, ch, how, seen)
    requires ChildStep(pc, ch, t, how, seen) == To(next, after)
    ensures InBodyAsScripted(settings, ch.kinds, script, Stands(after, next, registered),
                             NotedAt(notes, pc, ch.handle.once, registered, Signalled(ch, after)))
  {
    var notes' := NotedAt(notes, pc, ch.handle.once, registered, Signalled(ch, after));
    if pc.Wakeup? {
      WakeupFollows(settings, script, pc, ch, how, seen, next, after, notes, notes', registered);
    } else if pc.KillVote? {
      KillVoteFollows(settings, script, pc, ch, how, seen, next, after, notes, notes', registered);
    } else {
      WaitFollows(settings, script, pc, ch, how, seen, next, after, notes, registered);
    }
  }

  lemma AfterLoopFollows(settings: Settings, script: Script, pc: Pc, ch: Child, t: Tid, how: How, seen: Seen,
                         next: Pc, after: Child, notes: Notes, registered: bool)
    requires Answers(script, ch.kinds) && ch.periodic == Periodic(settings, ch.kinds) && AfterLoop(pc)
    requires InBodyAsScripted(settings, ch.kinds, script, Stands(ch, pc, registered), notes)
    requires TrueAt(settings, ch.kinds, script, |notes.kills|, pc, ch, how, seen)
    requires ChildStep(pc, ch, t, how, seen) == To(next, after)
    ensures InBodyAsScripted(settings, ch.kinds, script, Stands(after, next, registered), notes)
  {
    if pc.Ended? {
      EndedFollows(settings, script, pc, ch, how, seen, next, after, notes, registered);
    } else {
      PostFollows(settings, script, pc, ch, how, seen, next, after, notes, registered);
    }
  }

  lemma StaysRunning(pc: Pc, ch: Child, t: Tid, how: How, seen: Seen, next: Pc, after: Child)
    requires ProcessFacts(ch) && BodyFacts(ch, pc) && ChildStep(pc, ch, t, how, seen) == To(next, after)
    ensures after.handle.once == (if next.Return? then Done else Running) && after.kinds == ch.kinds
  {
    BodyStepKeepsFacts(pc, ch, t, how, seen, next, after);
    StepFrame(pc, ch, t, how, seen, next, after);
  }

  lemma BodyGoesOn(settings: Settings, script: Script, pc: Pc, ch: Child, t: Tid, how: How, seen: Seen, next: Pc,
                   after: Child, notes: Notes, registered: bool)
    requires Answers(script, ch.kinds) && ch.periodic == Periodic(settings, ch.kinds)
    requires (BeforeLoop(pc) || InLoop(pc) || AfterLoop(pc)) && ProcessFacts(ch) && BodyFacts(ch, pc)
    requires InBodyAsScripted(settings, ch.kinds, script, Stands(ch, pc, registered), notes)
    requires TrueAt(settings, ch.kinds, script, |notes.kills|, pc, ch, how, seen)
    requires ChildStep(pc, ch, t, how, seen) == To(next, after)
    ensures InBodyAsScripted(settings, ch.kinds, script, Stands(after, next, registered),
                             NotedAt(notes, pc, ch.handle.once, registered, Signalled(ch, after)))
  {
    if BeforeLoop(pc) {
      BeforeLoopFollows(settings, script, pc, ch, t, how, seen, next, after, notes, registered);
    } else if InLoop(pc) {
      InLoopFollows(settings, script, pc, ch, t, how, seen, next, after, notes, registered);
    } else {
      AfterLoopFollows(settings, script, pc, ch, t, how, seen, next, after, notes, registered);
    }
  }

  lemma RunningFollows(settings: Settings, kinds: seq<Kind>, script: Script, st: Standing, notes: Notes)
    requires Answers(script, kinds) && InBodyAsScripted(settings, kinds, script, st, notes)
    requires st.once == if st.pc.Return? then Done else Running
    ensures AsScripted(settings, kinds, script, st, notes)
  {}

  /** A step in the body of `run`, except those on the registry. */
  lemma BodyFollows(settings: Settings, script: Script, pc: Pc, ch: Child, t: Tid, how: How, seen: Seen, next: Pc,
                    after: Child, notes: Notes, registered: bool)
    requires Answers(script, ch.kinds) && ch.periodic == Periodic(settings, ch.kinds)
    requires InBody(pc) && !IsRegistryPc(pc) && ProcessFacts(ch) && BodyFacts(ch, pc)
    requires InBodyAsScripted(settings, ch.kinds, script, Stands(ch, pc, registered), notes)
    requires TrueAt(settings, ch.kinds, script, |notes.kills|, pc, ch, how, seen)
    requires ChildStep(pc, ch, t, how, seen) == To(next, after)
    ensures AsScripted(settings, ch.kinds, script, Stands(after, next, registered),
                       NotedAt(notes, pc, ch.handle.once, registered, Signalled(ch, after)))
  {
    if BeforeLoop(pc) || InLoop(pc) || AfterLoop(pc) {
      BodyGoesOn(settings, script, pc, ch, t, how, seen, next, after, notes, registered);
      StaysRunning(pc, ch, t, how, seen, next, after);
      RunningFollows(settings, ch.kinds, script, Stands(after, next, registered),
                     NotedAt(notes, pc, ch.handle.once, registered, Signalled(ch, after)));
    } else {
      CleanFollows(settings, script, pc, ch, t, next, after, notes, registered);
    }
  }

  // ----- The steps of the whole system -----

  /** Child c, with these listeners, is supervised as the script says. */
  predicate Supervised(s: State, c: Cid, settings: Settings, kinds: seq<Kind>, script: Script, notes: Notes)
    requires Answers(script, kinds)
  {
    && c < |s.children| && s.children[c].kinds == kinds && s.children[c].periodic == Periodic(settings, kinds)
    && AsScripted(settings, kinds, script, StandingOf(s, c), notes)
  }

  /** The action is a step of the thread that runs the body of child c. */
  predicate StepsInBody(s: State, a: Action, c: Cid) {
    MovesOn(s, a, c) && InBody(s.threads[a.t])
  }

  lemma BodyThread(s: State, a: Action, c: Cid)
    requires Invariant(s) && c < |s.children| && StepsInBody(s, a, c)
    ensures ThreadAt(s.threads[a.t], s.children[c], a.t) && Holder(s, c) == s.threads[a.t]
    ensures s.children[c].handle.once == Running && ProcessFacts(s.children[c])
    ensures BodyFacts(s.children[c], s.threads[a.t])
  {
    assert ThreadOk(s, a.t) && ChildOk(s, c);
  }

  lemma BodyStepMoves(s: State, a: Action, s': State, c: Cid)
    requires Apply(s, a) == Some(s') && c < |s.children| && StepsInBody(s, a, c) && !IsRegistryPc(s.threads[a.t])
    ensures MovedOnChild(s, a.t, a.how, a.result, s')
  {}

  lemma StaysInRun(pc: Pc, ch: Child, t: Tid, how: How, seen: Seen, next: Pc, after: Child)
    requires InBody(pc) && !IsRegistryPc(pc) && ProcessFacts(ch) && BodyFacts(ch, pc)
    requires ch.handle.internals == Some(t) && ChildStep(pc, ch, t, how, seen) == To(next, after)
    ensures InRun(next) && after.handle.internals == Some(t)
    ensures after.kinds == ch.kinds && after.periodic == ch.periodic
  {
    BodyStepKeepsFacts(pc, ch, t, how, seen, next, after);
    StepFrame(pc, ch, t, how, seen, next, after);
  }

  lemma BodyStepStanding(s: State, a: Action, s': State, c: Cid)
    requires Invariant(s) && c < |s.children| && StepsInBody(s, a, c)
    requires MovedOnChild(s, a.t, a.how, a.result, s')
    ensures ChildStep(s.threads[a.t], s.children[c], a.t, a.how, Seen(a.result, SharedPipe(s, c))) ==
            To(s'.threads[a.t], s'.children[c])
    ensures s'.children[c].kinds == s.children[c].kinds && s'.children[c].periodic == s.children[c].periodic
    ensures StandingOf(s', c) == Stands(s'.children[c], s'.threads[a.t], a.t in s.registry.registered)
    ensures StandingOf(s, c) == Stands(s.children[c], s.threads[a.t], a.t in s.registry.registered)
  {
    BodyThread(s, a, c);
    StaysInRun(s.threads[a.t], s.children[c], a.t, a.how, Seen(a.result, SharedPipe(s, c)), s'.threads[a.t],
               s'.children[c]);
  }

  lemma BodyStepFollows(s: State, a: Action, s': State, c: Cid, settings: Settings, kinds: seq<Kind>,
                        script: Script, notes: Notes)
    requires Answers(script, kinds) && Invariant(s) && Apply(s, a) == Some(s')
    requires Supervised(s, c, settings, kinds, script, notes) && StepsInBody(s, a, c)
    requires !IsRegistryPc(s.threads[a.t]) && TrueStep(settings, kinds, script, |notes.kills|, s, a, c)
    ensures Supervised(s', c, settings, kinds, script, Noted(notes, s, a, s', c))
  {
    BodyThread(s, a, c);
    BodyStepMoves(s, a, s', c);
    BodyStepStanding(s, a, s', c);
    BodyFollows(settings, script, s.threads[a.t], s.children[c], a.t, a.how, Seen(a.result, SharedPipe(s, c)),
                s'.threads[a.t], s'.children[c], notes, a.t in s.registry.registered);
  }

  lemma RegistryStepFollows(s: State, a: Action, s': State, c: Cid, settings: Settings, kinds: seq<Kind>,
                            script: Script, notes: Notes)
    requires Answers(script, kinds) && Invariant(s) && Apply(s, a) == Some(s')
    requires Supervised(s, c, settings, kinds, script, notes) && StepsInBody(s, a, c)
    requires IsRegistryPc(s.threads[a.t])
    ensures Supervised(s', c, settings, kinds, script, Noted(notes, s, a, s', c))
  {
    var pc, ch := s.threads[a.t], s.children[c];
    var next, after := s'.threads[a.t], s'.registry;
    BodyThread(s, a, c);
    assert ThreadOk(s, a.t) && Registered(s, a.t);
    RegistryStepKeepsFacts(pc, s.registry, a.t, next, after);
    RegistryFollows(settings, kinds, script, pc, s.registry, a.t, next, after, ch, notes);
    assert StandingOf(s', c) == Stands(ch, next, a.t in after.registered);
  }

  /** Nothing that the script speaks of has happened to child c. */
  predicate Untouched(s: State, s': State, c: Cid)
    requires c < |s.children| && c < |s'.children|
  {
    var st, st' := StandingOf(s, c), StandingOf(s', c);
    && s'.children[c].kinds == s.children[c].kinds && s'.children[c].periodic == s.children[c].periodic
    && st'.once == st.once && st'.failed == st.failed && st'.eof == st.eof
    && (st.once.Running? ==> st' == st)
  }

  lemma UntouchedFollows(s: State, s': State, c: Cid, settings: Settings, kinds: seq<Kind>, script: Script,
                         notes: Notes)
    requires Answers(script, kinds) && Supervised(s, c, settings, kinds, script, notes)
    requires c < |s'.children| && Untouched(s, s', c)
    ensures Supervised(s', c, settings, kinds, script, notes)
  {}

  /** While the body runs, its thread is not the one that moves. */
  lemma RunningHolder(s: State, c: Cid)
    requires Invariant(s) && c < |s.children| && s.children[c].handle.once == Running
    ensures s.children[c].handle.internals.Some? && s.children[c].handle.internals.value < |s.threads|
    ensures InBody(Holder(s, c)) && Holder(s, c).c == c
  {
    assert ChildOk(s, c);
  }

  lemma EventUntouched(s: State, a: Action, s': State, c: Cid)
    requires Invariant(s) && Apply(s, a) == Some(s') && c < |s.children| && (a.ChildDoes? || a.Clone?)
    ensures c < |s'.children| && Untouched(s, s', c)
  {
    if a.ChildDoes? && a.c == c {
      EventFrame(s.children[c], a.child, s'.children[c]);
    }
  }

  lemma CallUntouched(s: State, a: Action, s': State, c: Cid)
    requires Invariant(s) && Apply(s, a) == Some(s') && c < |s.children|
    requires a.CallRun? || a.CallKill? || a.Tick?
    ensures c < |s'.children| && Untouched(s, s', c)
  {
    if s.children[c].handle.once == Running {
      RunningHolder(s, c);
    }
  }

  /** Another child's thread has moved. */
  lemma ElsewhereUntouched(s: State, a: Action, s': State, c: Cid)
    requires Invariant(s) && Apply(s, a) == Some(s') && c < |s.children| && a.Move? && !MovesOn(s, a, c)
    ensures c < |s'.children| && Untouched(s, s', c)
  {
    if s.children[c].handle.once == Running {
      RunningHolder(s, c);
    }
  }

  lemma OutsideKeeps(pc: Pc, ch: Child, t: Tid, how: How, seen: Seen, next: Pc, after: Child)
    requires ChildStep(pc, ch, t, how, seen) == To(next, after)
    requires pc.RunLock? || pc.Return? || InKill(pc) || (pc.CallOnce? && !ch.handle.once.New?)
    ensures after.log.bodyFailed == ch.log.bodyFailed && after.log.eofSeen == ch.log.eofSeen
    ensures after.handle.once == ch.handle.once
  {}

  /** A thread on child c has moved outside the body of `run`. */
  lemma OutsideUntouched(s: State, a: Action, s': State, c: Cid)
    requires Invariant(s) && Apply(s, a) == Some(s') && c < |s.children| && MovesOn(s, a, c)
    requires !InBody(s.threads[a.t])
    requires !(s.threads[a.t].CallOnce? && s.children[c].handle.once.New?)
    ensures c < |s'.children| && Untouched(s, s', c)
  {
    var pc, ch, seen := s.threads[a.t], s.children[c], Seen(a.result, SharedPipe(s, c));
    assert ThreadOk(s, a.t) && ChildOk(s, c);
    StepFrame(pc, ch, a.t, a.how, seen, s'.threads[a.t], s'.children[c]);
    OutsideKeeps(pc, ch, a.t, a.how, seen, s'.threads[a.t], s'.children[c]);
    if ch.handle.once == Running {
      RunningHolder(s, c);
    }
  }

  /** A thread enters the body of `run`. */
  lemma EnteringFollows(s: State, a: Action, s': State, c: Cid, settings: Settings, kinds: seq<Kind>,
                        script: Script, notes: Notes)
    requires Answers(script, kinds) && Invariant(s) && Apply(s, a) == Some(s')
    requires Supervised(s, c, settings, kinds, script, notes) && MovesOn(s, a, c)
    requires s.threads[a.t].CallOnce? && s.children[c].handle.once.New?
    ensures Supervised(s', c, settings, kinds, script, Noted(notes, s, a, s', c))
  {
    assert ThreadOk(s, a.t) && ChildOk(s, c);
    assert Holder(s', c) == BodyStart(c);
  }

  lemma StepFollows(s: State, a: Action, s': State, c: Cid, settings: Settings, kinds: seq<Kind>, script: Script,
                    notes: Notes)
    requires Answers(script, kinds) && Invariant(s) && Apply(s, a) == Some(s')
    requires Supervised(s, c, settings, kinds, script, notes)
    requires TrueStep(settings, kinds, script, |notes.kills|, s, a, c)
    ensures Supervised(s', c, settings, kinds, script, Noted(notes, s, a, s', c))
  {
    if StepsInBody(s, a, c) {
      if IsRegistryPc(s.threads[a.t]) {
        RegistryStepFollows(s, a, s', c, settings, kinds, script, notes);
      } else {
        BodyStepFollows(s, a, s', c, settings, kinds, script, notes);
      }
    } else if MovesOn(s, a, c) {
      if s.threads[a.t].CallOnce? && s.children[c].handle.once.New? {
        EnteringFollows(s, a, s', c, settings, kinds, script, notes);
      } else {
        OutsideUntouched(s, a, s', c);
        UntouchedFollows(s, s', c, settings, kinds, script, notes);
      }
    } else {
      if a.Move? {
        ElsewhereUntouched(s, a, s', c);
      } else if a.ChildDoes? || a.Clone? {
        EventUntouched(s, a, s', c);
      } else {
        CallUntouched(s, a, s', c);
      }
      UntouchedFollows(s, s', c, settings, kinds, script, notes);
    }
  }

  lemma StepKeepsListeners(s: State, a: Action, s': State, c: Cid)
    requires Apply(s, a) == Some(s') && c < |s.children|
    ensures |s'.children| == |s.children|
    ensures s'.children[c].kinds == s.children[c].kinds && s'.children[c].periodic == s.children[c].periodic
  {
    if a.ChildDoes? && a.c == c {
      EventFrame(s.children[c], a.child, s'.children[c]);
    } else if a.Move? && !IsRegistryPc(s.threads[a.t]) && s.threads[a.t].c == c {
      StepFrame(s.threads[a.t], s.children[c], a.t, a.how, Seen(a.result, SharedPipe(s, c)), s'.threads[a.t],
                s'.children[c]);
    }
  }

  lemma {:induction false} RunFollows(run: Run, c: Cid, settings: Settings, kinds: seq<Kind>, script: Script)
    requires Comparable(run, c, settings, kinds, script)
    ensures Supervised(run.Now(), c, settings, kinds, script, NotesOf(run, c))
  {
    if run.Then? {
      var s := run.before.Now();
      StepKeepsNumber(s, run.action, run.next);
      StepKeepsListeners(s, run.action, run.next, c);
      RunFollows(run.before, c, settings, kinds, script);
      RunKeepsInvariant(run.before);
      StepFollows(s, run.action, run.next, c, settings, kinds, script, NotesOf(run.before, c));
    } else {
      assert Unspawned(run.first.children[c]);
    }
  }

  /** A whole run of the transition system, in which any number of threads run and kill any
      number of children, and a script that tells the truth about the steps of the thread that
      supervises child c. When that thread has been through the body of `run`, it has kept an
      error exactly if the script has one; it has begun the rounds that the script begins, and
      called kill in exactly those in which the script does; and the memory listener has seen
      the end of file exactly if the script has such a sample before anything fails. */
  lemma RunRefined(run: Run, c: Cid, settings: Settings, kinds: seq<Kind>, script: Script)
    requires Comparable(run, c, settings, kinds, script) && run.Now().children[c].handle.once == Done
    ensures run.Now().children[c].log.bodyFailed <==> RunError(settings, kinds, script).Some?
    ensures KillsOf(settings, kinds, script, NotesOf(run, c).kills)
    ensures run.Now().children[c].log.eofSeen <==>
            SampledBefore(settings, kinds, script, RoundsBegun(settings, kinds, script))
  {
    RunFollows(run, c, settings, kinds, script);
  }

  /** When that thread comes to reap the child, it is registered exactly if the specification of
      the run says so. */
  lemma RegistrationRefined(run: Run, c: Cid, settings: Settings, kinds: seq<Kind>, script: Script, t: Tid,
                            before: set<Tid>)
    requires Comparable(run, c, settings, kinds, script)
    requires t < |run.Now().threads| && run.Now().threads[t] == Reap(c)
    requires t in before <==> NotesOf(run, c).wasRegistered
    ensures t in run.Now().registry.registered <==> t in RegisteredAfter(settings, kinds, script, t, before)
  {
    RunFollows(run, c, settings, kinds, script);
    RunKeepsInvariant(run);
    assert ThreadOk(run.Now(), t) && ChildOk(run.Now(), c);
  }
}
