/** What each command can do when nothing fails, and why it refuses when it does. */
module LifecycleLive {
  import opened Wrappers
  import opened RunjState
  import opened Lifecycle
  import opened LifecycleProofs

  // ----- looking back -----

  /** If a thread gets among some program points only by a step that satisfies p, then a
      thread that is there has such a step behind it. */
  lemma {:induction false} LookBack(ss: seq<State>, steps: seq<Step>, n: nat, t: Tid, there: Pc -> bool,
                                    p: (State, Step) -> bool)
    requires IsRun(ss, steps) && n < |ss| && t in ss[n].threads && there(ss[n].threads[t])
    requires !there(Create(CFifo))
    requires forall s, step, s' | Next(s, step, s') && t in s'.threads && there(s'.threads[t]) ::
               (t in s.threads && there(s.threads[t])) || p(s, step)
    ensures exists i :: 0 <= i < n && p(ss[i], steps[i])
  {
    if n > 0 {
      assert Next(ss[n - 1], steps[n - 1], ss[n]);
      if !p(ss[n - 1], steps[n - 1]) { LookBack(ss, steps, n - 1, t, there, p); }
    }
  }

  /** A step of t at a program point. */
  predicate OwnStep(s: State, step: Step, t: Tid) { t in s.threads && step.Op? && step.t == t }

  /** Where a thread is after a step: it moved itself, it arrived, it crashed, or nothing happened to it. */
  lemma ThreadAfter(s: State, step: Step, s': State, t: Tid)
    requires Next(s, step, s') && t in s'.threads
    ensures || (t in s.threads && s'.threads[t] == s.threads[t])
            || (OwnStep(s, step, t) && CommandMove(s, s.threads[t], step.c).Move?
                && s'.threads[t] == CommandMove(s, s.threads[t], step.c).pc)
            || (step.Arrive? && step.t == t && t !in s.threads && Entry(s'.threads[t]))
            || (step == Crash(t) && t in s.threads && s.threads[t].Start?
                && s'.threads[t].Start? && s'.threads[t].sop.SFailed?)
  {
    if step.HelperOp? { HelperKeepsThreads(s, step.c, s'); }
  }

  // ----- why a start fails -----

  /** The step in which a start fails: it is killed, its state is missing, ps finds the process of
      a running container, the fifo is gone or cannot be opened or removed, it reads no byte, or
      one of its own calls fails. */
  predicate StartFailsAt(s: State, step: Step, t: Tid) {
    || step == Crash(t)
    || (OwnStep(s, step, t) && s.threads[t].Start? &&
        match s.threads[t].sop
        case SLoad => s.status.None? || step.c.Fail?
        case SPs => step.c.Ok? && s.threads[t].loaded == Running
        case SOpen => !s.linked || step.c.Fail?
        case SReading => s.threads[t].got == 0 && s.buffered == 0 && !HasWriter(s)
        case SUnlink => !s.linked || step.c.Fail?
        case SSave => s.status.None?
        case _ => false)
  }

  predicate Failed(pc: Pc) { pc.Start? && pc.sop.SFailed? }

  /** ps is asked only about containers recorded as running. */
  predicate AsksRightly(pc: Pc) { pc.Start? && pc.sop.SPs? ==> pc.loaded == Running }

  lemma {:induction false} PsOnlyForRunning(ss: seq<State>, steps: seq<Step>, n: nat, t: Tid)
    requires IsRun(ss, steps) && n < |ss| && t in ss[n].threads
    ensures AsksRightly(ss[n].threads[t])
  {
    if n > 0 {
      var s, step, s' := ss[n - 1], steps[n - 1], ss[n];
      assert Next(s, step, s');
      ThreadAfter(s, step, s', t);
      if t in s.threads { PsOnlyForRunning(ss, steps, n - 1, t); }
    }
  }

  lemma StartFailsFrom(s: State, step: Step, s': State, t: Tid)
    requires Next(s, step, s') && t in s'.threads && Failed(s'.threads[t])
    requires t in s.threads ==> AsksRightly(s.threads[t])
    ensures (t in s.threads && Failed(s.threads[t])) || StartFailsAt(s, step, t)
  {
    ThreadAfter(s, step, s', t);
  }

  /** Every start that fails has such a step behind it. */
  lemma {:induction false} FailedStartHasACause(ss: seq<State>, steps: seq<Step>, n: nat, t: Tid)
    requires IsRun(ss, steps) && n < |ss| && t in ss[n].threads && Failed(ss[n].threads[t])
    ensures exists i :: 0 <= i < n && StartFailsAt(ss[i], steps[i], t)
  {
    if n > 0 {
      var s, step, s' := ss[n - 1], steps[n - 1], ss[n];
      assert Next(s, step, s');
      if t in s.threads { PsOnlyForRunning(ss, steps, n - 1, t); }
      StartFailsFrom(s, step, s', t);
      if !StartFailsAt(s, step, t) { FailedStartHasACause(ss, steps, n - 1, t); }
    }
  }

  // ----- a start can succeed -----

  /** A start of a container whose helper waits at the fifo, at its program points. */
  function Starting(s: State, t: Tid, helper: Helper, opens: nat, buffered: nat, taken: nat, sop: StartOp): State {
    s.(helper := helper, opens := opens, buffered := buffered, written := buffered + taken, taken := taken,
       runs := if helper.UserProgram? then 1 else 0,
       threads := s.threads[t := Start(sop, s.status.GetOr(Unset), taken)])
  }

  /** The container is created: its helper waits at the fifo, and no start has succeeded. */
  predicate Startable(s: State) {
    s.status.Some? && s.status.value != Running && s.linked && s.helper == Opening
  }

  lemma NothingWritten(s: State)
    requires Reachable(s) && s.helper == Opening
    ensures s.opens == 0 && s.written == 0 && s.buffered == 0 && s.taken == 0 && s.discarded == 0 && s.runs == 0
  {
    var ss, steps :| IsRun(ss, steps) && ss[|steps|] == s;
    RunInv(ss, steps, |steps|);
  }

  lemma StartOpens(s: State, t: Tid)
    requires Reachable(s) && t !in s.threads && Startable(s)
    ensures Reachable(Starting(s, t, Opening, 0, 0, 0, SOpening(0)))
  {
    NothingWritten(s);
    var s1 := Switch(s, t, Start(SLoad, Unset, 0));
    Reach(s, Arrive(t, Start(SLoad, Unset, 0)), s1);
    var s2 := Starting(s, t, Opening, 0, 0, 0, SOpen);
    assert Swept(s2) == s2 && s1.threads[t := s2.threads[t]] == s2.threads;
    Reach(s1, Op(t, Ok), s2);
    var s3 := Starting(s, t, Opening, 0, 0, 0, SOpening(0));
    assert t in s3.threads && Reading(s3.threads[t]);
    assert s2.threads[t := s3.threads[t]] == s3.threads;
    Reach(s2, Op(t, Ok), s3);
  }

  lemma StartMeets(s: State, t: Tid)
    requires Reachable(s) && t !in s.threads && Startable(s)
    ensures Reachable(Starting(s, t, Writing, 1, 0, 0, SReading))
  {
    StartOpens(s, t);
    NothingWritten(s);
    var s3 := Starting(s, t, Opening, 0, 0, 0, SOpening(0));
    assert t in s3.threads && Reading(s3.threads[t]);
    var s4 := Starting(s, t, Writing, 1, 0, 0, SOpening(0));
    assert Swept(s4) == s4;
    Reach(s3, HelperOp(Ok), s4);
    var s5 := Starting(s, t, Writing, 1, 0, 0, SReading);
    assert Swept(s5) == s5 && s4.threads[t := s5.threads[t]] == s5.threads;
    Reach(s4, Op(t, Ok), s5);
  }

  lemma StartReads(s: State, t: Tid)
    requires Reachable(s) && t !in s.threads && Startable(s)
    ensures Reachable(Starting(s, t, UserProgram, 1, 0, 1, SReading))
  {
    StartMeets(s, t);
    NothingWritten(s);
    var s5 := Starting(s, t, Writing, 1, 0, 0, SReading);
    assert t in s5.threads && Reading(s5.threads[t]);
    var s6 := Starting(s, t, Attaching, 1, 1, 0, SReading);
    assert Swept(s6) == s6;
    Reach(s5, HelperOp(Ok), s6);
    var s7 := Starting(s, t, Attaching, 1, 0, 1, SReading);
    assert Swept(s7) == s7 && s6.threads[t := s7.threads[t]] == s7.threads;
    Reach(s6, Op(t, Ok), s7);
    var s8 := Starting(s, t, UserProgram, 1, 0, 1, SReading);
    assert Swept(s8) == s8;
    Reach(s7, HelperOp(Ok), s8);
  }

  lemma StartUnlinks(s: State, t: Tid)
    requires Reachable(s) && t !in s.threads && Startable(s)
    ensures Reachable(Starting(s, t, UserProgram, 1, 0, 1, SSave).(linked := false))
  {
    StartReads(s, t);
    NothingWritten(s);
    var s8 := Starting(s, t, UserProgram, 1, 0, 1, SReading);
    var s9 := Starting(s, t, UserProgram, 1, 0, 1, SUnlink);
    assert Swept(s9) == s9 && s8.threads[t := s9.threads[t]] == s9.threads;
    Reach(s8, Op(t, Ok), s9);
    var s10 := Starting(s, t, UserProgram, 1, 0, 1, SSave).(linked := false);
    assert Swept(s10) == s10 && s9.threads[t := s10.threads[t]] == s10.threads;
    Reach(s9, Op(t, Ok), s10);
  }

  /** From every reachable state of a created container whose helper waits, a new start can
      succeed: the status is running, the program runs, and it has run once. */
  lemma StartCanSucceed(s: State, t: Tid)
    requires Reachable(s) && t !in s.threads && Startable(s)
    ensures exists s' :: && Reachable(s') && t in s'.threads && s'.threads[t].Start? && s'.threads[t].sop.SSucceeded?
                         && s'.status == Some(Running) && s'.helper == UserProgram && s'.runs == 1 && !s'.linked
  {
    StartUnlinks(s, t);
    NothingWritten(s);
    var s10 := Starting(s, t, UserProgram, 1, 0, 1, SSave).(linked := false);
    var s11 := Starting(s, t, UserProgram, 1, 0, 1, SSucceeded).(linked := false, status := Some(Running));
    assert Swept(s11) == s11 && s10.threads[t := s11.threads[t]] == s11.threads;
    Reach(s10, Op(t, Ok), s11);
  }

  /** create can finish, and its container is then one that can be started. */
  lemma CreateCanFinish()
    ensures exists s :: && Reachable(s) && CREATE in s.threads && s.threads[CREATE] == Create(CDone)
                        && s.status == Some(Created) && Startable(s)
  {
    Boot();
    var s1 := Switch(BOOTED, CREATE, Create(CSave));
    assert Swept(s1) == s1;
    Reach(BOOTED, Op(CREATE, Ok), s1);
    var s2 := Switch(BOOTED, CREATE, Create(CDone)).(status := Some(Created));
    assert Swept(s2) == s2 && s1.threads[CREATE := Create(CDone)] == s2.threads;
    Reach(s1, Op(CREATE, Ok), s2);
  }

  // ----- the gates of exec, kill, state and delete -----

  /** The step in which a command other than start loads a running state. */
  predicate LoadsRunning(s: State, step: Step, t: Tid) {
    && OwnStep(s, step, t) && step.c.Ok? && s.status == Some(Running)
    && match s.threads[t]
       case Exec(op, _) => op.XLoad?
       case Query(op, _, _) => op.QLoad?
       case _ => false
  }

  /** It asks ps, which finds a process, or does not. */
  predicate AsksPs(s: State, step: Step, t: Tid, found: bool) {
    && OwnStep(s, step, t) && (step.c.Ok? <==> found)
    && match s.threads[t]
       case Exec(op, _) => op.XPs?
       case Query(op, _, _) => op.QPs?
       case _ => false
  }

  predicate Asking(pc: Pc) { (pc.Exec? && pc.xop.XPs?) || (pc.Query? && pc.qop.QPs?) }

  lemma AskingFrom(s: State, step: Step, s': State, t: Tid)
    requires Next(s, step, s') && t in s'.threads && Asking(s'.threads[t])
    ensures (t in s.threads && Asking(s.threads[t])) || LoadsRunning(s, step, t)
  {
    ThreadAfter(s, step, s', t);
  }

  lemma AskingHasLoaded(ss: seq<State>, steps: seq<Step>, n: nat, t: Tid)
    requires IsRun(ss, steps) && n < |ss| && t in ss[n].threads && Asking(ss[n].threads[t])
    ensures exists i :: 0 <= i < n && LoadsRunning(ss[i], steps[i], t)
  {
    forall s, step, s' | Next(s, step, s') && t in s'.threads && Asking(s'.threads[t])
      ensures (t in s.threads && Asking(s.threads[t])) || LoadsRunning(s, step, t)
    {
      AskingFrom(s, step, s', t);
    }
    LookBack(ss, steps, n, t, Asking, (s, step) => LoadsRunning(s, step, t));
  }

  /** Points that are reached only after ps has found a process. */
  predicate Answered(pc: Pc) { (pc.Exec? && pc.xop.XEntered?) || (pc.Query? && pc.qop.QSignal?) }

  lemma AnsweredFrom(s: State, step: Step, s': State, t: Tid)
    requires Next(s, step, s') && t in s'.threads && Answered(s'.threads[t])
    ensures (t in s.threads && Answered(s.threads[t])) || AsksPs(s, step, t, true)
  {
    ThreadAfter(s, step, s', t);
  }

  /** A process enters the container, and a signal is sent, only after the command has loaded a
      running state and then seen a process. */
  lemma GateHasAsked(ss: seq<State>, steps: seq<Step>, n: nat, t: Tid)
    requires IsRun(ss, steps) && n < |ss| && t in ss[n].threads && Answered(ss[n].threads[t])
    ensures exists i, j :: 0 <= i < j < n && LoadsRunning(ss[i], steps[i], t) && AsksPs(ss[j], steps[j], t, true)
  {
    forall s, step, s' | Next(s, step, s') && t in s'.threads && Answered(s'.threads[t])
      ensures (t in s.threads && Answered(s.threads[t])) || AsksPs(s, step, t, true)
    {
      AnsweredFrom(s, step, s', t);
    }
    LookBack(ss, steps, n, t, Answered, (s, step) => AsksPs(s, step, t, true));
    var j :| 0 <= j < n && AsksPs(ss[j], steps[j], t, true);
    AskingHasLoaded(ss, steps, j, t);
  }

  /** And the status is put to stopped only after it has loaded a running state and seen no process. */
  lemma StoppedHasAsked(ss: seq<State>, steps: seq<Step>, n: nat, t: Tid)
    requires IsRun(ss, steps) && n < |ss| && t in ss[n].threads && ss[n].threads[t].Query?
    requires ss[n].threads[t].qop.QSave?
    ensures exists i, j :: 0 <= i < j < n && LoadsRunning(ss[i], steps[i], t) && AsksPs(ss[j], steps[j], t, false)
  {
    var saving := (pc: Pc) => pc.Query? && pc.qop.QSave?;
    forall s, step, s' | Next(s, step, s') && t in s'.threads && saving(s'.threads[t])
      ensures (t in s.threads && saving(s.threads[t])) || AsksPs(s, step, t, false)
    {
      ThreadAfter(s, step, s', t);
    }
    LookBack(ss, steps, n, t, saving, (s, step) => AsksPs(s, step, t, false));
    var j :| 0 <= j < n && AsksPs(ss[j], steps[j], t, false);
    AskingHasLoaded(ss, steps, j, t);
  }

  /** A step of t that leaves everything else as it is. */
  lemma ReachMoved(s: State, t: Tid, pc: Pc, c: Choice, next: Pc)
    requires Reachable(Switch(s, t, pc)) && t !in s.threads
    requires CommandMove(Switch(s, t, pc), pc, c) == Move(Nothing, next)
    requires !pc.Start? && !next.Start? && Swept(s) == s
    ensures Reachable(Switch(s, t, next))
  {
    var s1, s2 := Switch(s, t, pc), Switch(s, t, next);
    SweptWith(s, t, next);
    assert Switch(s1, t, next) == s2;
    Reach(s1, Op(t, c), s2);
  }

  /** Readers of the fifo are starts only. */
  lemma SweptWith(s: State, t: Tid, pc: Pc)
    requires Swept(s) == s && t !in s.threads && !pc.Start?
    ensures Swept(Switch(s, t, pc)) == Switch(s, t, pc)
  {
    if HasReader(s) {
      var u :| u in s.threads && Reading(s.threads[u]);
      assert u in Switch(s, t, pc).threads && Reading(Switch(s, t, pc).threads[u]);
    }
  }

  /** What nobody can read has been dropped in every reachable state. */
  lemma {:induction false} RunSwept(ss: seq<State>, steps: seq<Step>, n: nat)
    requires IsRun(ss, steps) && n < |ss|
    ensures Swept(ss[n]) == ss[n]
  {
    if n > 0 {
      RunSwept(ss, steps, n - 1);
      NextSwept(ss[n - 1], steps[n - 1], ss[n]);
    }
  }

  lemma NextSwept(s: State, step: Step, s': State)
    requires Swept(s) == s && Next(s, step, s')
    ensures Swept(s') == s'
  {
    if step.Arrive? && HasReader(s) {
      var u :| u in s.threads && Reading(s.threads[u]);
      assert u in s'.threads && Reading(s'.threads[u]);
    }
    if !step.Arrive? { SweptTwice(s, step, s'); }
  }

  lemma SweptTwice(s: State, step: Step, s': State)
    requires Next(s, step, s') && !step.Arrive?
    ensures Swept(s') == s'
  {
    match step
    case Op(t, c) =>
      var m := CommandMove(s, s.threads[t], c);
      SweptOnce(Switch(Apply(s, m.eff), t, m.pc));
    case HelperOp(c) => SweptOnce(HelperMove(s, c).value);
    case HelperDies => SweptOnce(s.(helper := Dead));
    case Crash(t) => SweptOnce(Switch(s, t, Start(SFailed, s.threads[t].loaded, s.threads[t].got)));
  }

  lemma SweptOnce(s: State)
    ensures Swept(Swept(s)) == Swept(s)
  {
    assert Swept(s).threads == s.threads && Swept(s).helper == s.helper;
  }

  lemma ReachableSwept(s: State)
    requires Reachable(s)
    ensures Swept(s) == s
  {
    var ss, steps :| IsRun(ss, steps) && ss[|steps|] == s;
    RunSwept(ss, steps, |steps|);
  }

  lemma ReachArrived(s: State, t: Tid, pc: Pc)
    requires Reachable(s) && t !in s.threads && Entry(pc)
    ensures Reachable(Switch(s, t, pc))
  {
    Reach(s, Arrive(t, pc), Switch(s, t, pc));
  }

  /** From every reachable state of a running container, a new `extension exec` can enter. */
  lemma ExecCanEnter(s: State, t: Tid)
    requires Reachable(s) && t !in s.threads && s.status == Some(Running)
    ensures Reachable(Switch(s, t, Exec(XEntered, Running)))
  {
    ReachableSwept(s);
    ReachArrived(s, t, Exec(XLoad, Unset));
    ReachMoved(s, t, Exec(XLoad, Unset), Ok, Exec(XPs, Running));
    ReachMoved(s, t, Exec(XPs, Running), Ok, Exec(XEntered, Running));
  }

  /** A kill that finds a process can signal it. */
  lemma KillCanSignal(s: State, t: Tid)
    requires Reachable(s) && t !in s.threads && s.status == Some(Running)
    ensures Reachable(Switch(s, t, Query(QSignal, Running, true)))
  {
    ReachableSwept(s);
    ReachArrived(s, t, Query(QLoad, Unset, true));
    ReachMoved(s, t, Query(QLoad, Unset, true), Ok, Query(QPs, Running, true));
    ReachMoved(s, t, Query(QPs, Running, true), Ok, Query(QSignal, Running, true));
  }

  lemma QueryFindsNothing(s: State, t: Tid, kill: bool)
    requires Reachable(s) && t !in s.threads && s.status == Some(Running)
    ensures Reachable(Switch(s, t, Query(QSave, Running, kill))) && Swept(s) == s
  {
    ReachableSwept(s);
    ReachArrived(s, t, Query(QLoad, Unset, kill));
    ReachMoved(s, t, Query(QLoad, Unset, kill), Ok, Query(QPs, Running, kill));
    ReachMoved(s, t, Query(QPs, Running, kill), Fail, Query(QSave, Running, kill));
  }

  /** A state or kill that finds no process can record the container as stopped; kill then
      sends no signal. */
  lemma QueryCanRecordStopped(s: State, t: Tid, kill: bool)
    requires Reachable(s) && t !in s.threads && s.status == Some(Running)
    ensures Reachable(Switch(s, t, Query(QDone, Stopped, kill)).(status := Some(Stopped)))
  {
    QueryFindsNothing(s, t, kill);
    var s1 := Switch(s, t, Query(QSave, Running, kill));
    var s2 := Switch(s, t, Query(QDone, Stopped, kill)).(status := Some(Stopped));
    SweptWith(s, t, Query(QDone, Stopped, kill));
    assert s1.threads[t := Query(QDone, Stopped, kill)] == s2.threads && Swept(s2) == s2;
    Reach(s1, Op(t, Ok), s2);
  }

  /** delete removes only after it has loaded a state and seen no process. */
  predicate DeleteAsks(s: State, step: Step, t: Tid) {
    OwnStep(s, step, t) && s.threads[t] == Delete(DPs) && step.c.Ok?
  }

  predicate DeleteLoads(s: State, step: Step, t: Tid) {
    OwnStep(s, step, t) && s.threads[t] == Delete(DLoad) && step.c.Ok? && s.status.Some?
  }

  predicate Removing(pc: Pc) { pc == Delete(DSignal) || pc == Delete(DRemove) }

  predicate AskingDelete(pc: Pc) { pc == Delete(DPs) }

  lemma RemovingFrom(s: State, step: Step, s': State, t: Tid)
    requires Next(s, step, s') && t in s'.threads && Removing(s'.threads[t])
    ensures (t in s.threads && Removing(s.threads[t])) || DeleteAsks(s, step, t)
  {
    ThreadAfter(s, step, s', t);
  }

  lemma AskingDeleteFrom(s: State, step: Step, s': State, t: Tid)
    requires Next(s, step, s') && t in s'.threads && AskingDelete(s'.threads[t])
    ensures (t in s.threads && AskingDelete(s.threads[t])) || DeleteLoads(s, step, t)
  {
    ThreadAfter(s, step, s', t);
  }

  lemma RemovingHasAsked(ss: seq<State>, steps: seq<Step>, n: nat, t: Tid)
    requires IsRun(ss, steps) && n < |ss| && t in ss[n].threads && Removing(ss[n].threads[t])
    ensures exists j :: 0 <= j < n && DeleteAsks(ss[j], steps[j], t)
  {
    forall s, step, s' | Next(s, step, s') && t in s'.threads && Removing(s'.threads[t])
      ensures (t in s.threads && Removing(s.threads[t])) || DeleteAsks(s, step, t)
    {
      RemovingFrom(s, step, s', t);
    }
    LookBack(ss, steps, n, t, Removing, (s, step) => DeleteAsks(s, step, t));
  }

  lemma AskingDeleteHasLoaded(ss: seq<State>, steps: seq<Step>, n: nat, t: Tid)
    requires IsRun(ss, steps) && n < |ss| && t in ss[n].threads && AskingDelete(ss[n].threads[t])
    ensures exists i :: 0 <= i < n && DeleteLoads(ss[i], steps[i], t)
  {
    forall s, step, s' | Next(s, step, s') && t in s'.threads && AskingDelete(s'.threads[t])
      ensures (t in s.threads && AskingDelete(s.threads[t])) || DeleteLoads(s, step, t)
    {
      AskingDeleteFrom(s, step, s', t);
    }
    LookBack(ss, steps, n, t, AskingDelete, (s, step) => DeleteLoads(s, step, t));
  }

  lemma DeleteHasAsked(ss: seq<State>, steps: seq<Step>, n: nat, t: Tid)
    requires IsRun(ss, steps) && n < |ss| && t in ss[n].threads && ss[n].threads[t] == Delete(DRemove)
    ensures exists i, j :: 0 <= i < j < n && DeleteLoads(ss[i], steps[i], t) && DeleteAsks(ss[j], steps[j], t)
  {
    RemovingHasAsked(ss, steps, n, t);
    var j :| 0 <= j < n && DeleteAsks(ss[j], steps[j], t);
    AskingDeleteHasLoaded(ss, steps, j, t);
  }

  /** And it can remove every state there is, if nothing runs in the jail. */
  lemma DeleteCanRemove(s: State, t: Tid)
    requires Reachable(s) && t !in s.threads && s.status.Some?
    ensures exists s' :: && Reachable(s') && t in s'.threads && s'.threads[t] == Delete(DDone)
                         && s'.status == None && !s'.linked
  {
    ReachableSwept(s);
    ReachArrived(s, t, Delete(DLoad));
    ReachMoved(s, t, Delete(DLoad), Ok, Delete(DPs));
    ReachMoved(s, t, Delete(DPs), Ok, Delete(DSignal));
    ReachMoved(s, t, Delete(DSignal), Ok, Delete(DRemove));
    var s1 := Switch(s, t, Delete(DRemove));
    Reach(s1, Op(t, Ok), Swept(Switch(Apply(s1, Remove), t, Delete(DDone))));
    SweptInv(Switch(Apply(s1, Remove), t, Delete(DDone)));
  }

  // ----- why an exec is refused -----

  /** The step in which exec is refused: no state, no running one, no process, or a failure of its own. */
  predicate ExecRefusedAt(s: State, step: Step, t: Tid) {
    && OwnStep(s, step, t) && s.threads[t].Exec?
    && (|| (s.threads[t].xop.XLoad? && (step.c.Fail? || s.status != Some(Running)))
        || (s.threads[t].xop.XPs? && step.c.Fail?))
  }

  lemma RefusedExecHasACause(ss: seq<State>, steps: seq<Step>, n: nat, t: Tid)
    requires IsRun(ss, steps) && n < |ss| && t in ss[n].threads && ss[n].threads[t].Exec?
    requires ss[n].threads[t].xop.XRefused?
    ensures exists i :: 0 <= i < n && ExecRefusedAt(ss[i], steps[i], t)
  {
    var refused := (pc: Pc) => pc.Exec? && pc.xop.XRefused?;
    forall s, step, s' | Next(s, step, s') && t in s'.threads && refused(s'.threads[t])
      ensures (t in s.threads && refused(s.threads[t])) || ExecRefusedAt(s, step, t)
    {
      ThreadAfter(s, step, s', t);
    }
    LookBack(ss, steps, n, t, refused, (s, step) => ExecRefusedAt(s, step, t));
  }
}
