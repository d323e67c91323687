/** Why the discipline of `ShimClose` is needed: in every reachable state, two
    overlapping requests, each a Start whose command fails or a Delete, can close the
    channel of a created exec process twice. */
module ShimRaces {
  import opened Wrappers
  import opened RunjState
  import opened ShimProcess
  import opened Shim
  import opened ShimInvariant
  import opened ShimClose
  import opened ShimWaiters

  ghost predicate Reachable(s: State) { exists ss, steps :: IsRun(ss, steps) && ss[|steps|] == s }

  lemma Reach(s: State, step: Step, s': State)
    requires Reachable(s) && Next(s, step, s')
    ensures Reachable(s')
  {
    var ss, steps :| IsRun(ss, steps) && ss[|steps|] == s;
    var ss', steps' := ss + [s'], steps + [step];
    forall i | 0 <= i < |steps'| ensures Next(ss'[i], steps'[i], ss'[i + 1]) {}
    assert IsRun(ss', steps') && ss'[|steps'|] == s';
  }

  lemma ReachableWell(s: State)
    requires Reachable(s)
    ensures Well(s)
  {
    var ss, steps :| IsRun(ss, steps) && ss[|steps|] == s;
    RunWell(ss, steps, |steps|);
  }

  // ----- one program point of a thread, with nobody in between -----

  function Put(s: State, t: Tid, pc: Pc): State { s.(threads := s.threads[t := pc]) }

  /** t is at pc with what it brought along, the lock it needs is free, and it can execute. */
  predicate Ready(s: State, t: Tid, pc: Pc, c: Choice, eff: Effect, next: Pc) {
    && t in s.threads && s.threads[t] == pc && HoldsExactly(s, t, Outer(pc)) && RefsOk(s, pc)
    && (Inner(pc).Some? ==> Inner(pc).value !in s.locks && Inner(pc).value !in Outer(pc))
    && Execute(s, pc, c) == Move(eff, next) && EffectOk(s, eff)
  }

  /** Locks do not decide what a program point does. */
  lemma SameExecution(s: State, s1: State, pc: Pc, c: Choice)
    requires RefsOk(s, pc) && s1 == s.(locks := s1.locks)
    ensures Execute(s, pc, c) == Execute(s1, pc, c)
  {}

  lemma ApplyElsewhere(s: State, eff: Effect, locks: map<Lock, Tid>)
    requires EffectOk(s, eff)
    ensures Apply(s, eff).locks == s.locks && Apply(s, eff).threads == s.threads
    ensures Apply(s.(locks := locks), eff) == Apply(s, eff).(locks := locks)
  {}

  /** The lock is acquired and the point executed. */
  lemma Executed(s: State, t: Tid, l: Lock, pc: Pc, c: Choice, eff: Effect, next: Pc)
    requires Reachable(s) && Ready(s, t, pc, c, eff, next) && Inner(pc) == Some(l)
    ensures Reachable(Put(Apply(s, eff), t, next).(locks := s.locks[l := t]))
  {
    var s1 := s.(locks := s.locks[l := t]);
    Reach(s, Acquire(t), s1);
    SameExecution(s, s1, pc, c);
    ApplyElsewhere(s, eff, s1.locks);
    assert HoldsExactly(s1, t, Needs(pc));
    Reach(s1, Op(t, c), Put(Apply(s, eff), t, next).(locks := s1.locks));
  }

  lemma Released(s: State, t: Tid, l: Lock, locks: map<Lock, Tid>)
    requires Reachable(s) && t in s.threads && l !in Outer(s.threads[t])
    requires l !in locks && s.locks == locks[l := t]
    ensures Reachable(s.(locks := locks))
  {
    assert s.locks - {l} == locks;
    Reach(s, Release(t, l), s.(locks := locks));
  }

  /** A point that keeps what the thread brought along. */
  lemma Point(s: State, t: Tid, pc: Pc, c: Choice, eff: Effect, next: Pc)
    requires Reachable(s) && Ready(s, t, pc, c, eff, next) && Outer(next) == Outer(pc)
    ensures var s' := Put(Apply(s, eff), t, next);
            Reachable(s') && s'.locks == s.locks && HoldsExactly(s', t, Outer(next))
  {
    ApplyElsewhere(s, eff, s.locks);
    var s' := Put(Apply(s, eff), t, next);
    if Inner(pc).Some? {
      Executed(s, t, Inner(pc).value, pc, c, eff, next);
      Released(s'.(locks := s.locks[Inner(pc).value := t]), t, Inner(pc).value, s.locks);
      assert s'.(locks := s.locks) == s';
    } else {
      Reach(s, Op(t, c), s');
    }
  }

  // ----- a Start or a Delete of a created process, up to where it will close -----

  /** An exec process that is created and has neither PID nor end. */
  predicate CreatedProcess(s: State, x: ExecId, r: Ref) {
    x != "" && x in s.aux && s.aux[x] == r < |s.procs| && Fresh(s.procs[r])
  }

  /** The locks a request on the object takes are free. */
  predicate Free(s: State, r: Ref) { EventSendMu !in s.locks && Mu !in s.locks && ProcMu(r) !in s.locks }

  /** The two kinds of requests that close. */
  datatype Closing = Starting | Deleting

  /** The request has looked at the state and is going to close, unless a Start's command works. */
  function Checked(k: Closing, x: ExecId, r: Ref): Pc {
    match k
    case Starting => Start(SLock, x, r, 0)
    case Deleting => Delete(DClose, x, r)
  }

  function Closer(k: Closing): Closer { if k.Starting? then ByStart else ByDelete }

  lemma Begun(s: State, t: Tid, pc: Pc)
    requires Reachable(s) && t !in s.threads && Entry(pc)
    ensures Reachable(Put(s, t, pc)) && HoldsExactly(Put(s, t, pc), t, {})
  {
    ReachableWell(s);
    Reach(s, Arrive(t, pc), Put(s, t, pc));
  }

  /** The thread moves on and nothing else changes. */
  lemma Moved(s: State, t: Tid, pc: Pc, next: Pc)
    requires Reachable(Put(s, t, pc)) && HoldsExactly(Put(s, t, pc), t, Outer(pc)) && Outer(pc) == Outer(next)
    requires RefsOk(s, pc) && Execute(s, pc, Fail) == Move(Nothing, next)
    requires Inner(pc).Some? ==> Inner(pc).value !in s.locks && Inner(pc).value !in Outer(pc)
    ensures Reachable(Put(s, t, next)) && HoldsExactly(Put(s, t, next), t, Outer(next))
  {
    var s1 := Put(s, t, pc);
    SameMove(s, s1, pc);
    Point(s1, t, pc, Fail, Nothing, next);
    assert Put(s1, t, next) == Put(s, t, next);
  }

  /** Nor do other threads. */
  lemma SameMove(s: State, s1: State, pc: Pc)
    requires RefsOk(s, pc) && s1 == s.(threads := s1.threads)
    ensures Execute(s, pc, Fail) == Execute(s1, pc, Fail)
  {}

  lemma Check(s: State, t: Tid, k: Closing, x: ExecId, r: Ref)
    requires Reachable(s) && t !in s.threads && CreatedProcess(s, x, r) && Free(s, r)
    ensures Reachable(Put(s, t, Checked(k, x, r))) && HoldsExactly(Put(s, t, Checked(k, x, r)), t, {})
  {
    match k
    case Starting =>
      Begun(s, t, Start(SGet, x, 0, 0));
      Moved(s, t, Start(SGet, x, 0, 0), Start(SCheck, x, r, 0));
      Moved(s, t, Start(SCheck, x, r, 0), Start(SLock, x, r, 0));
    case Deleting =>
      Begun(s, t, Delete(DGet, x, 0));
      Moved(s, t, Delete(DGet, x, 0), Delete(DState, x, r));
      Moved(s, t, Delete(DState, x, r), Delete(DClose, x, r));
  }

  // ----- and how it closes -----

  function Closed(s: State, r: Ref, k: Closing): State
    requires r < |s.procs|
  {
    var o := s.procs[r];
    s.(procs := s.procs[r := Object(o.key, if k.Starting? then o.proc.WithState(Stopped) else o.proc,
                                    o.closed + [Closer(k)])])
  }

  /** With the event lock, a Start goes on to its command, which fails. */
  lemma StartRuns(s: State, t: Tid, x: ExecId, r: Ref)
    requires Reachable(s) && t in s.threads && s.threads[t] == Start(SStdio, x, r, 0) && r < |s.procs|
    requires HoldsExactly(s, t, {EventSendMu}) && ProcMu(r) !in s.locks
    ensures Reachable(Put(s, t, Start(SFailState, x, r, 0)))
    ensures HoldsExactly(Put(s, t, Start(SFailState, x, r, 0)), t, {EventSendMu})
  {
    assert Put(s, t, Start(SStdio, x, r, 0)) == s;
    Moved(s, t, Start(SStdio, x, r, 0), Start(SSpec, x, r, 0));
    Moved(s, t, Start(SSpec, x, r, 0), Start(SSpecfile, x, r, 0));
    Moved(s, t, Start(SSpecfile, x, r, 0), Start(SRun, x, r, 0));
    Moved(s, t, Start(SRun, x, r, 0), Start(SFailState, x, r, 0));
  }

  function StoppedAt(s: State, r: Ref): State
    requires r < |s.procs|
  {
    s.(procs := s.procs[r := s.procs[r].(proc := s.procs[r].proc.WithState(Stopped))])
  }

  lemma StartStops(s: State, t: Tid, x: ExecId, r: Ref)
    requires Reachable(s) && t in s.threads && s.threads[t] == Start(SFailState, x, r, 0) && r < |s.procs|
    requires HoldsExactly(s, t, {EventSendMu}) && ProcMu(r) !in s.locks
    ensures var s' := Put(StoppedAt(s, r), t, Start(SFailClose, x, r, 0));
            Reachable(s') && HoldsExactly(s', t, {EventSendMu})
  {
    var stopped := s.procs[r].proc.WithState(Stopped);
    Point(s, t, Start(SFailState, x, r, 0), Fail, Set(r, stopped), Start(SFailClose, x, r, 0));
    assert Apply(s, Set(r, stopped)) == StoppedAt(s, r);
  }

  lemma StartClosesChannel(s: State, t: Tid, x: ExecId, r: Ref, s': State)
    requires Reachable(s) && t in s.threads && s.threads[t] == Start(SFailClose, x, r, 0) && r < |s.procs|
    requires HoldsExactly(s, t, {EventSendMu})
    requires s' == Put(s.(procs := s.procs[r := s.procs[r].(closed := s.procs[r].closed + [ByStart])]), t, Done(Failed))
    ensures Reachable(s')
  {
    Reach(s, Op(t, Fail), s');
  }

  lemma StartCloses(s: State, t: Tid, x: ExecId, r: Ref)
    requires Reachable(s) && t in s.threads && s.threads[t] == Start(SFailState, x, r, 0) && r < |s.procs|
    requires HoldsExactly(s, t, {EventSendMu}) && ProcMu(r) !in s.locks
    ensures Reachable(Put(Closed(s, r, Starting), t, Done(Failed)))
  {
    StartStops(s, t, x, r);
    var s1 := Put(StoppedAt(s, r), t, Start(SFailClose, x, r, 0));
    StoppedThenClosed(s, t, x, r);
    StartClosesChannel(s1, t, x, r, Put(Closed(s, r, Starting), t, Done(Failed)));
  }

  lemma StoppedThenClosed(s: State, t: Tid, x: ExecId, r: Ref)
    requires r < |s.procs|
    ensures var s1 := Put(StoppedAt(s, r), t, Start(SFailClose, x, r, 0));
            Put(s1.(procs := s1.procs[r := s1.procs[r].(closed := s1.procs[r].closed + [ByStart])]), t, Done(Failed))
            == Put(Closed(s, r, Starting), t, Done(Failed))
  {}

  /** The event lock, taken for a Start, is given back when it has ended. */
  lemma StartEnds(s: State, t: Tid, x: ExecId, r: Ref)
    requires Reachable(s) && t in s.threads && s.threads[t] == Start(SLock, x, r, 0) && r < |s.procs|
    requires HoldsExactly(s, t, {}) && EventSendMu !in s.locks && ProcMu(r) !in s.locks
    ensures Reachable(Put(Closed(s, r, Starting), t, Done(Failed)))
  {
    var locks := s.locks[EventSendMu := t];
    Executed(s, t, EventSendMu, Start(SLock, x, r, 0), Fail, Nothing, Start(SStdio, x, r, 0));
    var s1 := Put(s, t, Start(SStdio, x, r, 0)).(locks := locks);
    StartRuns(s1, t, x, r);
    var s2 := Put(s1, t, Start(SFailState, x, r, 0));
    StartCloses(s2, t, x, r);
    var s3 := Put(Closed(s2, r, Starting), t, Done(Failed));
    Released(s3, t, EventSendMu, s.locks);
    assert s3.(locks := s.locks) == Put(Closed(s, r, Starting), t, Done(Failed));
  }

  /** Where the request is after its close. */
  function Past(k: Closing, x: ExecId, r: Ref): Pc {
    if k.Starting? then Done(Failed) else Delete(DSpecfile, x, r)
  }

  lemma CloseIt(s: State, t: Tid, k: Closing, x: ExecId, r: Ref)
    requires Reachable(s) && t in s.threads && s.threads[t] == Checked(k, x, r) && r < |s.procs|
    requires HoldsExactly(s, t, {}) && EventSendMu !in s.locks && ProcMu(r) !in s.locks
    ensures Reachable(Put(Closed(s, r, k), t, Past(k, x, r)))
  {
    match k
    case Starting => StartEnds(s, t, x, r);
    case Deleting =>
      Point(s, t, Delete(DClose, x, r), Fail, Close(r, ByDelete), Delete(DSpecfile, x, r));
      assert Put(Apply(s, Close(r, ByDelete)), t, Delete(DSpecfile, x, r))
          == Put(Closed(s, r, Deleting), t, Delete(DSpecfile, x, r));
  }

  /** Whenever a created exec process is mapped and the locks are free, any two overlapping
      requests that close, two Starts, two Deletes or one of each, can close its channel twice,
      which ends the shim with a panic. */
  lemma OverlapClosesTwice(s: State, x: ExecId, r: Ref, t: Tid, k: Closing, u: Tid, l: Closing)
    requires Reachable(s) && CreatedProcess(s, x, r) && Free(s, r)
    requires t !in s.threads && u !in s.threads && t != u
    ensures exists s' :: Reachable(s') && |s'.procs| == |s.procs| && s'.procs[r].closed == [Closer(k), Closer(l)]
  {
    Check(s, t, k, x, r);
    var s1 := Put(s, t, Checked(k, x, r));
    Check(s1, u, l, x, r);
    var s2 := Put(s1, u, Checked(l, x, r));
    CloseIt(s2, t, k, x, r);
    var s3 := Put(Closed(s2, r, k), t, Past(k, x, r));
    CloseIt(s3, u, l, x, r);
    var s4 := Put(Closed(s3, r, l), u, Past(l, x, r));
    assert s4.procs[r].closed == [Closer(k)] + [Closer(l)];
  }

  // ----- such a state is reachable -----

  const X: ExecId := "x"

  /** An Exec has made the object of X. */
  function Made(proc: Process, pc: Pc): State {
    INITIAL.(procs := [Object("", NewProcess, []), Object(X, proc, [])], aux := map[X := 1],
             threads := INITIAL.threads[1 := pc])
  }

  lemma ExecMakes()
    ensures Reachable(Made(NewProcess, Exec(ESpec, X, 1))) && HoldsExactly(Made(NewProcess, Exec(ESpec, X, 1)), 1, {})
  {
    var none: seq<Step> := [];
    assert IsRun([INITIAL], none) && [INITIAL][|none|] == INITIAL;
    var s1 := Put(INITIAL, 1, Exec(ENew, X, 0));
    Begun(INITIAL, 1, Exec(ENew, X, 0));
    Point(s1, 1, Exec(ENew, X, 0), Fail, NewObject(X), Exec(ESpec, X, 1));
    assert Put(Apply(s1, NewObject(X)), 1, Exec(ESpec, X, 1)) == Made(NewProcess, Exec(ESpec, X, 1));
  }

  lemma ExecCreates()
    ensures Reachable(Made(NewProcess.WithState(Created), Exec(EIO, X, 1)))
    ensures HoldsExactly(Made(NewProcess.WithState(Created), Exec(EIO, X, 1)), 1, {})
  {
    ExecMakes();
    var s1 := Made(NewProcess, Exec(ESpec, X, 1));
    Point(s1, 1, Exec(ESpec, X, 1), Fail, Nothing, Exec(EState, X, 1));
    var s2 := Made(NewProcess, Exec(EState, X, 1));
    assert Put(s1, 1, Exec(EState, X, 1)) == s2;
    var created := NewProcess.WithState(Created);
    Point(s2, 1, Exec(EState, X, 1), Fail, Set(1, created), Exec(EIO, X, 1));
    assert Put(Apply(s2, Set(1, created)), 1, Exec(EIO, X, 1)) == Made(created, Exec(EIO, X, 1));
  }

  /** An Exec that cannot set up its input and output leaves a created process mapped. */
  lemma FailedExecLeavesAProcess() returns (s: State)
    ensures Reachable(s) && CreatedProcess(s, X, 1) && s.locks == map[] && s.threads.Keys == {EXITS, 1}
    ensures |s.procs| == 2
  {
    ExecCreates();
    var created := NewProcess.WithState(Created);
    var s3 := Made(created, Exec(EIO, X, 1));
    Point(s3, 1, Exec(EIO, X, 1), Fail, Nothing, Done(Failed));
    s := Made(created, Done(Failed));
    assert Put(s3, 1, Done(Failed)) == s;
  }

  /** So a channel can be closed twice, by any two of the requests. */
  lemma ChannelClosedTwice(k: Closing, l: Closing)
    ensures exists s :: Reachable(s) && |s.procs| == 2 && s.procs[1].closed == [Closer(k), Closer(l)]
  {
    var s := FailedExecLeavesAProcess();
    OverlapClosesTwice(s, X, 1, 2, k, 3, l);
  }

  // ----- a Delete that overlaps an Exec -----

  /** A Wait holds the object that an Exec is making, and a Delete of it has got to pc. */
  function Waited(pc: Pc): State {
    Put(Put(Made(NewProcess, Exec(ESpec, X, 1)), 2, Wait(WBlock, X, 1)), 3, pc)
  }

  lemma WaiterBlocks()
    ensures Reachable(Put(Made(NewProcess, Exec(ESpec, X, 1)), 2, Wait(WBlock, X, 1)))
  {
    ExecMakes();
    var s := Made(NewProcess, Exec(ESpec, X, 1));
    Begun(s, 2, Wait(WGet, X, 0));
    Moved(s, 2, Wait(WGet, X, 0), Wait(WBlock, X, 1));
  }

  lemma DeletePassesBy()
    ensures Reachable(Waited(Delete(DRemove, X, 1)))
    ensures HoldsExactly(Waited(Delete(DRemove, X, 1)), 3, {})
  {
    WaiterBlocks();
    var s := Put(Made(NewProcess, Exec(ESpec, X, 1)), 2, Wait(WBlock, X, 1));
    Begun(s, 3, Delete(DGet, X, 0));
    Moved(s, 3, Delete(DGet, X, 0), Delete(DState, X, 1));
    Moved(s, 3, Delete(DState, X, 1), Delete(DSpecfile, X, 1));
    Moved(s, 3, Delete(DSpecfile, X, 1), Delete(DRemove, X, 1));
  }

  /** A Delete that sees a process whose Exec has not recorded a state yet takes it out of the
      map with its channel open, held by nobody, and a Wait blocked on it. */
  lemma OverlappingExecStrandsAWaiter()
    ensures exists s, s' :: && Reachable(s) && Reachable(s') && s'.aux == map[] && 1 < |s'.procs|
                            && X in s.aux && s.aux[X] == 1 && !WillBeClosed(s', 1)
                            && 2 in s'.threads && s'.threads[2] == Wait(WBlock, X, 1)
  {
    DeletePassesBy();
    var s := Waited(Delete(DRemove, X, 1));
    Point(s, 3, Delete(DRemove, X, 1), Fail, Unmap(X), Done(Finished));
    var s' := Put(Apply(s, Unmap(X)), 3, Done(Finished));
    assert s'.aux == map[];
  }
}
