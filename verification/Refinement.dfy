/**
 The two halves of the supervisor meet. Supervisor.dfy shows what `run` makes of the answers
 of a script. Here a run of the transition system, with any number of other threads and
 children in between, is compared with such a script: if the script tells the truth about
 each step of the thread that supervises child c, then that thread comes to the same end.
 */
module Refinement {
  import opened ExecutionResults
  import opened Verdicts
  import opened Protocol
  import opened ProtocolInvariant

  // ----- What is observed of a run -----

  /** `kills` has one entry for each round begun for child c: whether the supervising thread has
      sent the child the kill signal in it.
      `wasRegistered` says whether the supervising thread was registered before. */
  datatype Notes = Notes(kills: seq<bool>, wasRegistered: bool)

  function NotesOf(run: Run, c: Cid): Notes {
    match run
    case Start(_) => Notes([], false)
    case Then(before, a, s) => Noted(NotesOf(before, c), before.Now(), a, s, c)
  }

  function Noted(notes: Notes, s: State, a: Action, s': State, c: Cid): Notes {
    if MovesOn(s, a, c) && c < |s.children| && c < |s'.children|
    then NotedAt(notes, s.threads[a.t], s.children[c].handle.once, a.t in s.registry.registered,
                 Signalled(s.children[c], s'.children[c]))
    else notes
  }

  /** The kernel has been asked for a kill signal to the child, and has granted it. */
  predicate Signalled(ch: Child, after: Child) {
    after.log.signals > ch.log.signals
  }

  /** The action is a step of a thread that works on child c. */
  predicate MovesOn(s: State, a: Action, c: Cid) {
    a.Move? && a.t < |s.threads| && !s.threads[a.t].Idle? && s.threads[a.t].c == c
  }

  function NotedAt(notes: Notes, pc: Pc, once: Once, registered: bool, signalled: bool): Notes {
    match pc
    case CallOnce(_) => if once.New? then notes.(wasRegistered := registered) else notes
    case Wakeup(_) => notes.(kills := notes.kills + [signalled])
    case KillVote(_) | Wait(_) =>
      if signalled && notes.kills != [] then notes.(kills := Front(notes.kills) + [true]) else notes
    case _ => notes
  }

  function Front(s: seq<bool>): seq<bool>
    requires s != []
  {
    s[..|s| - 1]
  }

  function Last(s: seq<bool>): bool
    requires s != []
  {
    s[|s| - 1]
  }

  // ----- When a script tells the truth -----

  /** The step fails exactly if one of its calls does, and at the first one that does. */
  predicate FailsAsCalls(how: How, outcomes: seq<Option<IoError>>) {
    if how.Fails?
    then how.at < |outcomes| && outcomes[how.at].Some? && forall m :: 0 <= m < how.at ==> outcomes[m].None?
    else forall m :: 0 <= m < |outcomes| ==> outcomes[m].None?
  }

  predicate WakeupTrue(settings: Settings, kinds: seq<Kind>, script: Script, r: nat, ch: Child, how: How, seen: Seen)
    requires Answers(script, kinds) && r < |script.rounds|
  {
    && FailsAsCalls(how, WakeupErrors(settings, kinds, script, r))
    && (!how.Fails? ==> (how.Diverts? <==> SomeKill(settings, kinds, script, r)))
    && forall l :: 0 <= l < |kinds| && kinds[l] == Memory && (how.Fails? ==> l < how.at) ==>
         script.rounds[r].samples[l].pipeClosed == PipeClosed(ch, seen.shared)
  }

  predicate WaitTrue(round: Round, ch: Child, how: How) {
    match round.wait
    case WaitFailed(_) => how.Fails?
    case Interrupted => how.Diverts?
    case ChildStopped => !how.Proceeds? && FailsAsCalls(how, [round.childError] + round.events)
    case _ =>
      && ch.proc.phase.Zombie? && !how.Diverts?
      && (ch.proc.childError <==> round.childError.Some?)
      && (round.childError.None? ==> FailsAsCalls(how, round.events))
  }

  predicate HookTrue(kind: Kind, answer: Answer<nat>, how: How) {
    match kind
    case Time => true // reading the clock cannot fail
    case Ptrace => how.Fails? ==> answer.Err? // only the first of its calls is made here
    case _ => how.Fails? <==> answer.Err?
  }

  /** What the script says about a step from pc, when r rounds have been begun, is so. */
  predicate TrueAt(settings: Settings, kinds: seq<Kind>, script: Script, r: nat, pc: Pc, ch: Child, how: How,
                   seen: Seen)
    requires Answers(script, kinds)
  {
    match pc
    case BodyStart(_) => ch.proc.childError <==> script.errorBefore.Some?
    case Hook(_, i) => i < |kinds| ==> HookTrue(kinds[i], script.starts[i], how)
    case AttachWait(_, i) => i < |kinds| && how.Fails? && !ch.proc.phase.Zombie? ==> script.starts[i].Err?
    case AttachSet(_, i) => i < |kinds| ==> (how.Fails? || !Alive(ch.proc) <==> script.starts[i].Err?)
    case Wakeup(_) => r < |script.rounds| ==> WakeupTrue(settings, kinds, script, r, ch, how, seen)
    case KillVote(_) => 0 < r <= |script.rounds| ==> (how.Fails? <==> script.rounds[r - 1].killError.Some?)
    case Wait(_) => 0 < r <= |script.rounds| ==> WaitTrue(script.rounds[r - 1], ch, how)
    case Post(_) =>
      && FailsAsCalls(how, FinalErrors(kinds, script))
      && (!how.Fails? ==> (ch.proc.childError <==> script.errorAfter.Some?))
    case _ => true
  }

  /** The script tells the truth about the action, if that is a step in the body of `run`. */
  predicate TrueStep(settings: Settings, kinds: seq<Kind>, script: Script, r: nat, s: State, a: Action, c: Cid)
    requires Answers(script, kinds)
  {
    MovesOn(s, a, c) && c < |s.children| ==>
      TrueAt(settings, kinds, script, r, s.threads[a.t], s.children[c], a.how, Seen(a.result, SharedPipe(s, c)))
  }

  /** The script tells the truth about the whole run. */
  predicate TrueOf(settings: Settings, kinds: seq<Kind>, script: Script, run: Run, c: Cid)
    requires Answers(script, kinds)
  {
    run.Then? ==>
      && TrueOf(settings, kinds, script, run.before, c)
      && TrueStep(settings, kinds, script, |NotesOf(run.before, c).kills|, run.before.Now(), run.action, c)
  }

  /** The script is one for the listeners of child c, and tells the truth about the run. */
  ghost predicate Comparable(run: Run, c: Cid, settings: Settings, kinds: seq<Kind>, script: Script) {
    && IsRun(run) && c < |run.Now().children| && Answers(script, kinds)
    && run.Now().children[c].kinds == kinds && run.Now().children[c].periodic == Periodic(settings, kinds)
    && TrueOf(settings, kinds, script, run, c)
  }

  // ----- How far the supervisor has come, by the script -----

  predicate StartsOk(script: Script, i: nat) {
    script.errorBefore.None? && i <= |script.starts| && forall l :: 0 <= l < i ==> script.starts[l].Ok?
  }

  /** Before anything fails in round r, the memory listener takes a sample at end of file. */
  predicate SamplesAtEnd(settings: Settings, kinds: seq<Kind>, script: Script, r: nat)
    requires Answers(script, kinds) && r < |script.rounds|
  {
    exists l :: 0 <= l < SucceedFirst(WakeupErrors(settings, kinds, script, r)) && kinds[l] == Memory &&
                script.rounds[r].samples[l].pipeClosed
  }

  predicate SampledBefore(settings: Settings, kinds: seq<Kind>, script: Script, n: nat)
    requires Answers(script, kinds) && n <= |script.rounds|
  {
    exists r :: 0 <= r < n && SamplesAtEnd(settings, kinds, script, r)
  }

  predicate CalledBefore(settings: Settings, kinds: seq<Kind>, script: Script, kills: seq<bool>)
    requires Answers(script, kinds) && |kills| <= |script.rounds|
  {
    forall r :: 0 <= r < |kills| ==> kills[r] == SendsKill(settings, kinds, script, r)
  }

  predicate NoErrors(settings: Settings, kinds: seq<Kind>, script: Script, n: nat)
    requires Answers(script, kinds) && n <= |script.rounds|
  {
    StartsOk(script, |script.starts|) &&
    forall r :: 0 <= r < n ==> RoundError(settings, kinds, script, r).None?
  }

  /** What the protocol knows of the supervision of a child, and of the thread that does it. */
  datatype Standing = Standing(once: Once, failed: bool, eof: bool, pc: Pc, registered: bool)

  function StandingOf(s: State, c: Cid): Standing
    requires c < |s.children|
  {
    var ch := s.children[c];
    var t := ch.handle.internals;
    Stands(ch, Holder(s, c), t.Some? && t.value in s.registry.registered)
  }

  function Stands(ch: Child, pc: Pc, registered: bool): Standing {
    Standing(ch.handle.once, ch.log.bodyFailed, ch.log.eofSeen, pc, registered)
  }

  /** The first i parent hooks have succeeded, and nothing else has happened. */
  predicate Beginning(script: Script, i: nat, st: Standing, notes: Notes) {
    StartsOk(script, i) && notes.kills == [] && !st.failed && !st.eof && st.registered == notes.wasRegistered
  }

  /** All rounds begun are over, and none has failed. */
  predicate BetweenRounds(settings: Settings, kinds: seq<Kind>, script: Script, st: Standing, notes: Notes)
    requires Answers(script, kinds)
  {
    && |notes.kills| <= |script.rounds| && !st.failed
    && NoErrors(settings, kinds, script, |notes.kills|)
    && CalledBefore(settings, kinds, script, notes.kills)
    && (st.eof <==> SampledBefore(settings, kinds, script, |notes.kills|))
  }

  /** The listeners have been woken in the last round begun, and none of them has failed. */
  predicate WithinRound(settings: Settings, kinds: seq<Kind>, script: Script, st: Standing, notes: Notes)
    requires Answers(script, kinds)
  {
    && 0 < |notes.kills| <= |script.rounds| && !st.failed
    && NoErrors(settings, kinds, script, |notes.kills| - 1)
    && CalledBefore(settings, kinds, script, Front(notes.kills))
    && (st.eof <==> SampledBefore(settings, kinds, script, |notes.kills|))
    && FirstError(WakeupErrors(settings, kinds, script, |notes.kills| - 1)).None?
  }

  /** The supervisor has come to the end that the script has for it. */
  predicate Outcome(settings: Settings, kinds: seq<Kind>, script: Script, failed: bool, eof: bool, kills: seq<bool>)
    requires Answers(script, kinds)
  {
    && (failed <==> RunError(settings, kinds, script).Some?)
    && KillsOf(settings, kinds, script, kills)
    && (eof <==> SampledBefore(settings, kinds, script, RoundsBegun(settings, kinds, script)))
  }

  predicate StaysRegistered(settings: Settings, kinds: seq<Kind>, script: Script, before: bool)
    requires Answers(script, kinds)
  {
    if !Periodic(settings, kinds) || StartFails(script) then before
    else LoopError(settings, kinds, script, 0).Some?
  }

  predicate InBodyAsScripted(settings: Settings, kinds: seq<Kind>, script: Script, st: Standing, notes: Notes)
    requires Answers(script, kinds)
  {
    var periodic := Periodic(settings, kinds);
    match st.pc
    case BodyStart(_) => notes.kills == [] && !st.failed && !st.eof && st.registered == notes.wasRegistered
    case Hook(_, i) => i <= |kinds| && Beginning(script, i, st, notes)
    case AttachWait(_, i) => i < |kinds| && Beginning(script, i, st, notes)
    case AttachSet(_, i) => i < |kinds| && Beginning(script, i, st, notes)
    case RegOnce(_) | RegSpawn(_) | RegHandler(_) | RegLock(_) | RegInsert(_) =>
      periodic && Beginning(script, |kinds|, st, notes)
    case Gate(_) | GateWait(_) =>
      notes.kills == [] && BetweenRounds(settings, kinds, script, st, notes) &&
      st.registered == (periodic || notes.wasRegistered)
    case Wakeup(_) =>
      |notes.kills| < |script.rounds| && BetweenRounds(settings, kinds, script, st, notes) &&
      st.registered == (periodic || notes.wasRegistered)
    case KillVote(_) =>
      && WithinRound(settings, kinds, script, st, notes)
      && st.registered == (periodic || notes.wasRegistered)
      && !Last(notes.kills) && SomeKill(settings, kinds, script, |notes.kills| - 1)
    case Wait(_) =>
      && WithinRound(settings, kinds, script, st, notes)
      && st.registered == (periodic || notes.wasRegistered)
      && Last(notes.kills) == SendsKill(settings, kinds, script, |notes.kills| - 1)
      && (SomeKill(settings, kinds, script, |notes.kills| - 1) ==>
            script.rounds[|notes.kills| - 1].killError.None?)
    case Ended(_) | UnregLock(_) | UnregRemove(_) =>
      |notes.kills| == |script.rounds| && BetweenRounds(settings, kinds, script, st, notes) &&
      st.registered == (periodic || notes.wasRegistered)
    case Post(_) =>
      |notes.kills| == |script.rounds| && BetweenRounds(settings, kinds, script, st, notes) &&
      st.registered == (!periodic && notes.wasRegistered)
    case CleanKill(_) | CleanLock(_) | CleanSet(_) | Reap(_) =>
      Outcome(settings, kinds, script, st.failed, st.eof, notes.kills) &&
      st.registered == StaysRegistered(settings, kinds, script, notes.wasRegistered)
    case _ => false
  }

  predicate AsScripted(settings: Settings, kinds: seq<Kind>, script: Script, st: Standing, notes: Notes)
    requires Answers(script, kinds)
  {
    match st.once
    case New => notes.kills == [] && !st.failed && !st.eof
    case Running => InBodyAsScripted(settings, kinds, script, st, notes)
    case Done => Outcome(settings, kinds, script, st.failed, st.eof, notes.kills)
  }

  // ----- How the script ends -----

  lemma StartEnds(settings: Settings, kinds: seq<Kind>, script: Script)
    requires Answers(script, kinds)
    ensures StartFails(script) <==> !StartsOk(script, |script.starts|)
    ensures StartFails(script) ==>
              RunError(settings, kinds, script).Some? && RoundsBegun(settings, kinds, script) == 0
  {
    FirstErrorMeaning(StartErrors(script));
    assert forall l :: 0 <= l < |kinds| ==> StartErrors(script)[l].None? == script.starts[l].Ok?;
  }

  lemma LoopEnds(settings: Settings, kinds: seq<Kind>, script: Script, r: nat)
    requires Answers(script, kinds) && r < |script.rounds| && NoErrors(settings, kinds, script, r)
    requires RoundError(settings, kinds, script, r).Some?
    ensures !StartFails(script) && LoopError(settings, kinds, script, 0).Some?
    ensures RunError(settings, kinds, script).Some? && RoundsBegun(settings, kinds, script) == r + 1
  {
    StartEnds(settings, kinds, script);
    NoErrorBefore(settings, kinds, script, r);
  }

  lemma LoopPasses(settings: Settings, kinds: seq<Kind>, script: Script)
    requires Answers(script, kinds) && NoErrors(settings, kinds, script, |script.rounds|)
    ensures !StartFails(script) && LoopError(settings, kinds, script, 0).None?
    ensures RunError(settings, kinds, script) == OrElse(FirstError(FinalErrors(kinds, script)), script.errorAfter)
    ensures RoundsBegun(settings, kinds, script) == |script.rounds|
  {
    StartEnds(settings, kinds, script);
    NoErrorBefore(settings, kinds, script, |script.rounds|);
  }

  lemma CallsMeaning(how: How, outcomes: seq<Option<IoError>>)
    requires FailsAsCalls(how, outcomes)
    ensures how.Fails? <==> FirstError(outcomes).Some?
    ensures SucceedFirst(outcomes) == if how.Fails? then how.at else |outcomes|
  {
    if how.Fails? {
      FailsAt(outcomes, how.at);
    } else {
      AllSucceed(outcomes);
    }
  }
}
