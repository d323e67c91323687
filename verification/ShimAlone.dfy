/** A handler of the step system that runs by itself: its program points one after the
    other, with a choice of the environment for each, and no other thread in between. */
module ShimAlone {
  import opened RunjState
  import opened Wrappers
  import opened ShimProcess
  import opened Shim

  /** One program point; where it cannot go on, nothing happens. */
  function StepAlone(s: State, pc: Pc, c: Choice): (State, Pc) {
    if !RefsOk(s, pc) then (s, pc)
    else
      var m := Execute(s, pc, c);
      if m.Move? && EffectOk(s, m.eff) then (Apply(s, m.eff), m.pc) else (s, pc)
  }

  function RunAlone(s: State, pc: Pc, cs: seq<Choice>): (State, Pc) {
    if cs == [] then (s, pc)
    else
      var (s1, pc1) := RunAlone(s, pc, cs[..|cs| - 1]);
      StepAlone(s1, pc1, cs[|cs| - 1])
  }

  /** A handler that began at `entry` in `start` and has got to `at` in `now`. */
  datatype Trace = Trace(start: State, entry: Pc, choices: seq<Choice>, now: State, at: Pc) {
    predicate Ok() { RunAlone(start, entry, choices) == (now, at) }
  }

  function Begin(s: State, entry: Pc): (tr: Trace)
    ensures tr.Ok()
  {
    Trace(s, entry, [], s, entry)
  }

  /** tr1 goes on where tr was. */
  predicate Continues(tr: Trace, tr1: Trace) { tr1.Ok() && tr1.start == tr.start && tr1.entry == tr.entry }

  /** The next program point has this effect and leads there. */
  predicate Does(tr: Trace, c: Choice, eff: Effect, next: Pc) {
    RefsOk(tr.now, tr.at) && Execute(tr.now, tr.at, c) == Move(eff, next) && EffectOk(tr.now, eff)
  }

  lemma Advance(tr: Trace, c: Choice, eff: Effect, next: Pc) returns (tr1: Trace)
    requires tr.Ok() && Does(tr, c, eff, next)
    ensures Continues(tr, tr1) && tr1.now == Apply(tr.now, eff) && tr1.at == next
  {
    tr1 := Trace(tr.start, tr.entry, tr.choices + [c], Apply(tr.now, eff), next);
    assert tr1.choices[..|tr.choices|] == tr.choices;
  }

  /** tr1 goes on where tr was, and the state is the same. */
  predicate Moves(tr: Trace, tr1: Trace, pc: Pc) { Continues(tr, tr1) && tr1.now == tr.now && tr1.at == pc }

  predicate Finds(tr: Trace, x: ExecId, r: Ref) { x in tr.now.aux && tr.now.aux[x] == r < |tr.now.procs| }

  predicate Room(s: State) { |s.log| - s.taken < CAPACITY }

  // ----- what a handler leaves, as its arguments and the state before decide -----

  predicate MapOk(s: State) { forall x | x in s.aux :: s.aux[x] < |s.procs| }

  function WithObject(s: State, r: Ref, o: Object): State
    requires r < |s.procs|
  {
    s.(procs := s.procs[r := o])
  }

  predicate Startable(s: State, x: ExecId)
    requires MapOk(s)
  {
    x in s.aux && s.procs[s.aux[x]].proc.state == Created
  }

  /** A process started with PID p: recorded, running, and announced. */
  function Launched(s: State, x: ExecId, r: Ref, p: nat): State
    requires r < |s.procs|
  {
    var o := s.procs[r];
    WithObject(s, r, o.(proc := o.proc.WithPid(p).WithState(Running)))
      .(log := s.log + [TaskExecStarted(x, p)], reported := s.reported - {p})
  }

  /** A process whose command failed: stopped, and its waiters released. */
  function NotLaunched(s: State, r: Ref): State
    requires r < |s.procs|
  {
    var o := s.procs[r];
    WithObject(s, r, Object(o.key, o.proc.WithState(Stopped), o.closed + [ByStart]))
  }

  function AfterStart(s: State, x: ExecId, launched: Option<nat>): State
    requires MapOk(s)
  {
    if !Startable(s, x) then s
    else if launched.Some? then Launched(s, x, s.aux[x], launched.value)
    else NotLaunched(s, s.aux[x])
  }

  /** A new process, created. */
  function Made(s: State, x: ExecId): State {
    s.(procs := s.procs + [Object(x, NewProcess.WithState(Created), [])], aux := s.aux[x := |s.procs|])
  }

  /** It gets its spec file and is announced. */
  function Added(s: State, x: ExecId, r: Ref): State
    requires r < |s.procs|
  {
    var o := s.procs[r];
    WithObject(s, r, o.(proc := o.proc.WithSpecfile(true))).(log := s.log + [TaskExecAdded(x)])
  }

  /** A new process, created, with a spec file and announced if everything worked. */
  function AfterExec(s: State, x: ExecId, works: bool): State {
    if x in s.aux then s
    else if works then Added(Made(s, x), x, |s.procs|)
    else Made(s, x)
  }

  predicate Deletable(s: State, x: ExecId)
    requires MapOk(s)
  {
    x in s.aux && s.procs[s.aux[x]].proc.state != Running
  }

  /** A process that was never started has its waiters released; the spec file and the map entry go. */
  function Deleted(s: State, x: ExecId, r: Ref): State
    requires r < |s.procs|
  {
    var o := s.procs[r];
    var waiting := o.proc.state == Creating || o.proc.state == Created;
    WithObject(s, r, Object(o.key, o.proc.WithSpecfile(false), if waiting then o.closed + [ByDelete] else o.closed))
      .(aux := s.aux - {x})
  }

  /** The same from the spec file on. */
  function Forgotten(s: State, x: ExecId, r: Ref): State
    requires r < |s.procs|
  {
    var o := s.procs[r];
    WithObject(s, r, o.(proc := o.proc.WithSpecfile(false))).(aux := s.aux - {x})
  }

  function AfterDelete(s: State, x: ExecId): State
    requires MapOk(s)
  {
    if Deletable(s, x) then Deleted(s, x, s.aux[x]) else s
  }

  /** startPrimary: told PID p, it opens the fifo and then works or fails. */
  function AfterInit(s: State, pid: Option<nat>, opens: bool, works: bool): State {
    if pid.None? || !opens then s
    else if works then s.(releases := s.releases + 1, log := s.log + [TaskStart(pid.value, s.releases)])
    else s.(releases := s.releases + 1, failedStarts := s.failedStarts + {s.releases})
  }

  /** Create: the primary process records the PID it has been told, if it records none. */
  function AfterCreate(s: State, pid: Option<nat>): State
    requires 0 < |s.procs|
  {
    if pid.None? then s
    else
      var o := s.procs[PRIMARY];
      WithObject(s, PRIMARY, o.(proc := o.proc.WithPid(pid.value))).(log := s.log + [TaskCreate(pid.value)])
  }

  /** checkProcesses: the process of an exit is stopped and has the exit, which is announced, and
      its waiters are released. */
  function Exited(s: State, x: ExecId, r: Ref, e: Exit): State
    requires r < |s.procs|
  {
    var o := s.procs[r];
    WithObject(s, r, Object(o.key, o.proc.WithState(Stopped).WithExited(e), o.closed + [ByExit]))
      .(log := s.log + [TaskExit(x, e)])
  }

  /** Nobody records the PID. */
  predicate Unknown(s: State, p: nat)
    requires 0 < |s.procs| && MapOk(s)
  {
    s.procs[PRIMARY].proc.pid != p && forall x | x in s.aux :: s.procs[s.aux[x]].proc.pid != p
  }

  /** The primary process records the PID, or it does not and the process of x does. */
  predicate RecordsIt(s: State, p: nat, x: ExecId, r: Ref)
    requires 0 < |s.procs| && MapOk(s)
  {
    if s.procs[PRIMARY].proc.pid == p then x == "" && r == PRIMARY
    else x in s.aux && s.aux[x] == r && s.procs[r].proc.pid == p
  }

  // ----- effects, composed -----

  lemma StoppedWithExit(s: State, x: ExecId, r: Ref, e: Exit, s1: State, s2: State)
    requires r < |s.procs| && s1 == Apply(s, Set(r, s.procs[r].proc.WithState(Stopped)))
    requires s2 == Apply(s1, Set(r, s1.procs[r].proc.WithExited(e)))
    ensures s2 == WithObject(s, r, s.procs[r].(proc := s.procs[r].proc.WithState(Stopped).WithExited(e)))
  {}

  lemma ExitAnnounced(s: State, x: ExecId, r: Ref, e: Exit, s2: State, s3: State, s4: State)
    requires r < |s.procs|
    requires s2 == WithObject(s, r, s.procs[r].(proc := s.procs[r].proc.WithState(Stopped).WithExited(e)))
    requires EffectOk(s2, Send(TaskExit(x, e))) && s3 == Apply(s2, Send(TaskExit(x, e)))
    requires s4 == Apply(s3, Close(r, ByExit))
    ensures s4 == Exited(s, x, r, e)
  {}

  lemma PidAnnounced(s: State, p: nat, s1: State, s2: State)
    requires 0 < |s.procs| && s1 == Apply(s, Set(PRIMARY, s.procs[PRIMARY].proc.WithPid(p)))
    requires EffectOk(s1, Send(TaskCreate(p))) && s2 == Apply(s1, Send(TaskCreate(p)))
    ensures s2 == AfterCreate(s, Some(p))
  {}

  lemma PidRecorded(s: State, r: Ref, p: nat, s1: State, s2: State)
    requires r < |s.procs| && s1 == Apply(s, Spawned(p)) && s2 == Apply(s1, Set(r, s1.procs[r].proc.WithPid(p)))
    ensures s2 == WithObject(s, r, s.procs[r].(proc := s.procs[r].proc.WithPid(p))).(reported := s.reported - {p})
  {}

  lemma RunningRecorded(s: State, x: ExecId, r: Ref, p: nat, s2: State, s3: State, s4: State)
    requires r < |s.procs|
    requires s2 == WithObject(s, r, s.procs[r].(proc := s.procs[r].proc.WithPid(p))).(reported := s.reported - {p})
    requires s3 == Apply(s2, Set(r, s2.procs[r].proc.WithState(Running)))
    requires EffectOk(s3, Send(TaskExecStarted(x, p))) && s4 == Apply(s3, Send(TaskExecStarted(x, p)))
    ensures s4 == Launched(s, x, r, p)
  {}

  lemma ProcessMade(s: State, x: ExecId, s1: State, s2: State)
    requires s1 == Apply(s, NewObject(x))
    requires s2 == Apply(s1, Set(|s.procs|, s1.procs[|s.procs|].proc.WithState(Created)))
    ensures s2 == Made(s, x)
  {}

  lemma ProcessAdded(s: State, x: ExecId, r: Ref, s1: State, s2: State)
    requires r < |s.procs| && s1 == Apply(s, Set(r, s.procs[r].proc.WithSpecfile(true)))
    requires EffectOk(s1, Send(TaskExecAdded(x))) && s2 == Apply(s1, Send(TaskExecAdded(x)))
    ensures s2 == Added(s, x, r)
  {}

  lemma StoppedThenClosed(s: State, r: Ref, s1: State, s2: State)
    requires r < |s.procs| && s1 == Apply(s, Set(r, s.procs[r].proc.WithState(Stopped)))
    requires s2 == Apply(s1, Close(r, ByStart))
    ensures s2 == NotLaunched(s, r)
  {}

  lemma ClosedThenForgotten(s: State, x: ExecId, r: Ref, s1: State)
    requires r < |s.procs|
    requires s1 == if s.procs[r].proc.state == Creating || s.procs[r].proc.state == Created
                   then Apply(s, Close(r, ByDelete)) else s
    ensures r < |s1.procs| && Forgotten(s1, x, r) == Deleted(s, x, r)
  {}

  // ----- startAux -----

  lemma StartMissing(tr: Trace, x: ExecId) returns (tr1: Trace)
    requires tr.Ok() && tr.at == Start(SGet, x, 0, 0) && x !in tr.now.aux && 0 < |tr.now.procs|
    ensures Moves(tr, tr1, Done(Failed))
  {
    tr1 := Advance(tr, Fail, Nothing, Done(Failed));
  }

  lemma StartRefused(tr: Trace, x: ExecId, r: Ref) returns (tr1: Trace)
    requires tr.Ok() && tr.at == Start(SGet, x, 0, 0) && Finds(tr, x, r) && tr.now.procs[r].proc.state != Created
    ensures Moves(tr, tr1, Done(Failed))
  {
    tr1 := Advance(tr, Fail, Nothing, Start(SCheck, x, r, 0));
    tr1 := Advance(tr1, Fail, Nothing, Done(Failed));
  }

  /** The event lock, the streams, the specification and its file, up to the command. */
  lemma StartPrepares(tr: Trace, x: ExecId, r: Ref) returns (tr1: Trace)
    requires tr.Ok() && tr.at == Start(SGet, x, 0, 0) && Finds(tr, x, r) && tr.now.procs[r].proc.state == Created
    ensures Moves(tr, tr1, Start(SRun, x, r, 0))
  {
    tr1 := Advance(tr, Fail, Nothing, Start(SCheck, x, r, 0));
    tr1 := Advance(tr1, Fail, Nothing, Start(SLock, x, r, 0));
    tr1 := StartReadsObject(tr1, x, r);
  }

  lemma StartReadsObject(tr: Trace, x: ExecId, r: Ref) returns (tr1: Trace)
    requires tr.Ok() && tr.at == Start(SLock, x, r, 0) && r < |tr.now.procs|
    ensures Moves(tr, tr1, Start(SRun, x, r, 0))
  {
    tr1 := Advance(tr, Fail, Nothing, Start(SStdio, x, r, 0));
    tr1 := Advance(tr1, Fail, Nothing, Start(SSpec, x, r, 0));
    tr1 := Advance(tr1, Fail, Nothing, Start(SSpecfile, x, r, 0));
    tr1 := Advance(tr1, Fail, Nothing, Start(SRun, x, r, 0));
  }

  lemma StartFails(tr: Trace, x: ExecId, r: Ref) returns (tr1: Trace)
    requires tr.Ok() && tr.at == Start(SRun, x, r, 0) && r < |tr.now.procs|
    ensures Moves(tr, tr1, Start(SFailState, x, r, 0))
    ensures Does(tr1, Fail, Set(r, tr1.now.procs[r].proc.WithState(Stopped)), Start(SFailClose, x, r, 0))
  {
    tr1 := Advance(tr, Fail, Nothing, Start(SFailState, x, r, 0));
  }

  lemma StartFailCloses(tr: Trace, x: ExecId, r: Ref)
    requires tr.at == Start(SFailClose, x, r, 0) && r < |tr.now.procs|
    ensures Does(tr, Fail, Close(r, ByStart), Done(Failed))
  {}

  lemma StartLaunches(tr: Trace, x: ExecId, r: Ref, p: nat) returns (tr1: Trace)
    requires tr.Ok() && tr.at == Start(SRun, x, r, 0) && r < |tr.now.procs| && p != 0
    ensures Continues(tr, tr1) && tr1.at == Start(SSetPid, x, r, p) && tr1.now == Apply(tr.now, Spawned(p))
    ensures Does(tr1, Fail, Set(r, tr1.now.procs[r].proc.WithPid(p)), Start(SConsole, x, r, p))
  {
    tr1 := Advance(tr, Succeed(p), Spawned(p), Start(SSetPid, x, r, p));
  }

  lemma StartSetsConsole(tr: Trace, x: ExecId, r: Ref, p: nat) returns (tr1: Trace)
    requires tr.Ok() && tr.at == Start(SConsole, x, r, p) && r < |tr.now.procs|
    ensures Moves(tr, tr1, Start(SSetState, x, r, p))
    ensures Does(tr1, Fail, Set(r, tr1.now.procs[r].proc.WithState(Running)), Start(SSend, x, r, p))
  {
    tr1 := Advance(tr, Fail, Nothing, Start(SSetState, x, r, p));
  }

  lemma StartSends(tr: Trace, x: ExecId, r: Ref, p: nat)
    requires tr.at == Start(SSend, x, r, p) && r < |tr.now.procs| && Room(tr.now)
    ensures Does(tr, Fail, Send(TaskExecStarted(x, p)), Done(Finished))
  {}

  // ----- startPrimary -----

  lemma InitRefused(tr: Trace) returns (tr1: Trace)
    requires tr.Ok() && tr.at == Init(IState, 0, 0) && 0 < |tr.now.procs|
    ensures Moves(tr, tr1, Done(Failed))
  {
    tr1 := Advance(tr, Fail, Nothing, Done(Failed));
  }

  lemma InitPrepares(tr: Trace, p: nat) returns (tr1: Trace)
    requires tr.Ok() && tr.at == Init(IState, 0, 0) && 0 < |tr.now.procs|
    ensures Moves(tr, tr1, Init(IRun, p, 0))
  {
    tr1 := Advance(tr, Succeed(p), Nothing, Init(ILock, p, 0));
    tr1 := Advance(tr1, Fail, Nothing, Init(IRun, p, 0));
  }

  /** The command fails before it has opened the fifo. */
  lemma InitNotOpened(tr: Trace, p: nat) returns (tr1: Trace)
    requires tr.Ok() && tr.at == Init(IRun, p, 0) && 0 < |tr.now.procs|
    ensures Moves(tr, tr1, Done(Failed))
  {
    tr1 := Advance(tr, Fail, Nothing, Done(Failed));
  }

  lemma InitOpens(tr: Trace, p: nat) returns (tr1: Trace)
    requires tr.Ok() && tr.at == Init(IRun, p, 0) && 0 < |tr.now.procs|
    ensures Continues(tr, tr1) && tr1.now == Apply(tr.now, Opened) && tr1.at == Init(IReleased, p, tr.now.releases)
  {
    tr1 := Advance(tr, Succeed(0), Opened, Init(IReleased, p, tr.now.releases));
  }

  lemma InitFails(tr: Trace, p: nat, k: nat) returns (tr1: Trace)
    requires tr.Ok() && tr.at == Init(IReleased, p, k) && 0 < |tr.now.procs|
    ensures Continues(tr, tr1) && tr1.now == Apply(tr.now, StartFailed(k)) && tr1.at == Done(Failed)
  {
    tr1 := Advance(tr, Fail, StartFailed(k), Done(Failed));
  }

  /** What startPrimary has done when it does not get through. */
  lemma InitGivesUp(tr: Trace, pid: Option<nat>, opens: bool) returns (tr1: Trace)
    requires tr.Ok() && tr.at == Init(IState, 0, 0) && 0 < |tr.now.procs|
    ensures Continues(tr, tr1) && tr1.at == Done(Failed) && tr1.now == AfterInit(tr.now, pid, opens, false)
  {
    if pid.None? {
      tr1 := InitRefused(tr);
    } else {
      tr1 := InitPrepares(tr, pid.value);
      if opens {
        tr1 := InitOpens(tr1, pid.value);
        tr1 := InitFails(tr1, pid.value, tr.now.releases);
      } else {
        tr1 := InitNotOpened(tr1, pid.value);
      }
    }
  }

  /** And when it does, up to the event. */
  lemma InitGetsThrough(tr: Trace, p: nat) returns (tr1: Trace)
    requires tr.Ok() && tr.at == Init(IState, 0, 0) && 0 < |tr.now.procs| && Room(tr.now)
    ensures Continues(tr, tr1) && tr1.at == Init(ISend, p, tr.now.releases) && tr1.now == Apply(tr.now, Opened)
    ensures Does(tr1, Fail, Send(TaskStart(p, tr.now.releases)), Done(Finished))
    ensures Apply(tr1.now, Send(TaskStart(p, tr.now.releases))) == AfterInit(tr.now, Some(p), true, true)
  {
    tr1 := InitPrepares(tr, p);
    tr1 := InitOpens(tr1, p);
    tr1 := Advance(tr1, Succeed(0), Nothing, Init(ISend, p, tr.now.releases));
  }

  // ----- Create -----

  lemma CreateRefused(tr: Trace) returns (tr1: Trace)
    requires tr.Ok() && tr.at == Create(CBundle, 0) && 0 < |tr.now.procs|
    ensures Moves(tr, tr1, Done(Failed))
  {
    tr1 := Advance(tr, Fail, Nothing, Create(CRun, 0));
    tr1 := Advance(tr1, Fail, Nothing, Done(Failed));
  }

  lemma CreateRuns(tr: Trace) returns (tr1: Trace)
    requires tr.Ok() && tr.at == Create(CBundle, 0) && 0 < |tr.now.procs|
    ensures Moves(tr, tr1, Create(CState, 0))
  {
    tr1 := Advance(tr, Fail, Nothing, Create(CRun, 0));
    tr1 := Advance(tr1, Succeed(0), Nothing, Create(CStdio, 0));
    tr1 := Advance(tr1, Fail, Nothing, Create(CConsole, 0));
    tr1 := Advance(tr1, Fail, Nothing, Create(CState, 0));
  }

  lemma CreateAsks(tr: Trace, pid: Option<nat>) returns (tr1: Trace)
    requires tr.Ok() && tr.at == Create(CState, 0) && 0 < |tr.now.procs|
    ensures Moves(tr, tr1, if pid.Some? then Create(CSetPid, pid.value) else Done(Failed))
    ensures pid.Some? ==> Does(tr1, Fail, Set(PRIMARY, tr1.now.procs[PRIMARY].proc.WithPid(pid.value)),
                               Create(CSend, pid.value))
  {
    if pid.Some? {
      tr1 := Advance(tr, Succeed(pid.value), Nothing, Create(CSetPid, pid.value));
    } else {
      tr1 := Advance(tr, Fail, Nothing, Done(Failed));
    }
  }

  lemma CreateSends(tr: Trace, p: nat)
    requires tr.at == Create(CSend, p) && 0 < |tr.now.procs| && Room(tr.now)
    ensures Does(tr, Fail, Send(TaskCreate(p)), Done(Finished))
  {}

  // ----- Wait -----

  /** A Wait for the primary process has nothing to look up. */
  function WaitEntry(x: ExecId): Pc { if x == "" then Wait(WBlock, "", PRIMARY) else Wait(WGet, x, 0) }

  lemma WaitMissing(tr: Trace, x: ExecId) returns (tr1: Trace)
    requires tr.Ok() && tr.at == Wait(WGet, x, 0) && x !in tr.now.aux && 0 < |tr.now.procs|
    ensures Moves(tr, tr1, Done(Failed))
  {
    tr1 := Advance(tr, Fail, Nothing, Done(Failed));
  }

  lemma WaitFinds(tr: Trace, x: ExecId, r: Ref) returns (tr1: Trace)
    requires tr.Ok() && tr.at == Wait(WGet, x, 0) && Finds(tr, x, r)
    ensures Moves(tr, tr1, Wait(WBlock, x, r))
  {
    tr1 := Advance(tr, Fail, Nothing, Wait(WBlock, x, r));
  }

  lemma WaitReturns(tr: Trace, x: ExecId, r: Ref) returns (tr1: Trace)
    requires tr.Ok() && tr.at == Wait(WBlock, x, r) && r < |tr.now.procs| && tr.now.procs[r].closed != []
    ensures Moves(tr, tr1, Done(Waited(r, tr.now.procs[r].proc.exit)))
  {
    tr1 := Advance(tr, Fail, Nothing, Wait(WExit, x, r));
    tr1 := Advance(tr1, Fail, Nothing, Done(Waited(r, tr.now.procs[r].proc.exit)));
  }

  // ----- deleteAux -----

  lemma DeleteMissing(tr: Trace, x: ExecId) returns (tr1: Trace)
    requires tr.Ok() && tr.at == Delete(DGet, x, 0) && x !in tr.now.aux && 0 < |tr.now.procs|
    ensures Moves(tr, tr1, Done(Failed))
  {
    tr1 := Advance(tr, Fail, Nothing, Done(Failed));
  }

  lemma DeleteLooks(tr: Trace, x: ExecId, r: Ref) returns (tr1: Trace)
    requires tr.Ok() && tr.at == Delete(DGet, x, 0) && Finds(tr, x, r)
    ensures Moves(tr, tr1, match tr.now.procs[r].proc.state
                           case Running => Done(Failed)
                           case Creating | Created => Delete(DClose, x, r)
                           case Unset | Stopped => Delete(DSpecfile, x, r))
  {
    tr1 := Advance(tr, Fail, Nothing, Delete(DState, x, r));
    tr1 := Advance(tr1, Fail, Nothing, match tr.now.procs[r].proc.state
                                       case Running => Done(Failed)
                                       case Creating | Created => Delete(DClose, x, r)
                                       case Unset | Stopped => Delete(DSpecfile, x, r));
  }

  lemma DeleteCloses(tr: Trace, x: ExecId, r: Ref)
    requires tr.at == Delete(DClose, x, r) && r < |tr.now.procs|
    ensures Does(tr, Fail, Close(r, ByDelete), Delete(DSpecfile, x, r))
  {}

  lemma DeleteSeesSpecfile(tr: Trace, x: ExecId, r: Ref) returns (tr1: Trace)
    requires tr.Ok() && tr.at == Delete(DSpecfile, x, r) && r < |tr.now.procs|
    ensures Moves(tr, tr1, Delete(if tr.now.procs[r].proc.specfile then DForget else DRemove, x, r))
    ensures tr.now.procs[r].proc.specfile ==>
              Does(tr1, Fail, Set(r, tr1.now.procs[r].proc.WithSpecfile(false)), Delete(DRemove, x, r))
  {
    tr1 := Advance(tr, Fail, Nothing, Delete(if tr.now.procs[r].proc.specfile then DForget else DRemove, x, r));
  }

  lemma DeleteRemoves(tr: Trace, x: ExecId, r: Ref)
    requires tr.at == Delete(DRemove, x, r) && r < |tr.now.procs|
    ensures Does(tr, Fail, Unmap(x), Done(Finished))
  {}

  // ----- Exec -----

  lemma ExecBegins(tr: Trace, x: ExecId) returns (tr1: Trace)
    requires tr.Ok() && tr.at == Exec(ENew, x, 0) && 0 < |tr.now.procs|
    ensures Continues(tr, tr1)
    ensures if x in tr.now.aux then tr1.now == tr.now && tr1.at == Done(Failed)
            else tr1.now == Apply(tr.now, NewObject(x)) && tr1.at == Exec(ESpec, x, |tr.now.procs|)
  {
    if x in tr.now.aux {
      tr1 := Advance(tr, Fail, Nothing, Done(Failed));
    } else {
      tr1 := Advance(tr, Fail, NewObject(x), Exec(ESpec, x, |tr.now.procs|));
    }
  }

  lemma ExecSetsSpec(tr: Trace, x: ExecId, r: Ref) returns (tr1: Trace)
    requires tr.Ok() && tr.at == Exec(ESpec, x, r) && r < |tr.now.procs|
    ensures Moves(tr, tr1, Exec(EState, x, r))
    ensures Does(tr1, Fail, Set(r, tr1.now.procs[r].proc.WithState(Created)), Exec(EIO, x, r))
  {
    tr1 := Advance(tr, Fail, Nothing, Exec(EState, x, r));
  }

  lemma ExecPrepares(tr: Trace, x: ExecId, r: Ref, ioWorks: bool, tempWorks: bool) returns (tr1: Trace)
    requires tr.Ok() && tr.at == Exec(EIO, x, r) && r < |tr.now.procs|
    ensures Moves(tr, tr1, if ioWorks && tempWorks then Exec(ESpecfile, x, r) else Done(Failed))
    ensures ioWorks && tempWorks ==> Does(tr1, Fail, Set(r, tr1.now.procs[r].proc.WithSpecfile(true)),
                                          Exec(ESend, x, r))
  {
    if !ioWorks {
      tr1 := Advance(tr, Fail, Nothing, Done(Failed));
    } else {
      tr1 := Advance(tr, Succeed(0), Nothing, Exec(EStdio, x, r));
      tr1 := Advance(tr1, Fail, Nothing, Exec(ETemp, x, r));
      tr1 := Advance(tr1, if tempWorks then Succeed(0) else Fail, Nothing,
                     if tempWorks then Exec(ESpecfile, x, r) else Done(Failed));
    }
  }

  lemma ExecSends(tr: Trace, x: ExecId, r: Ref)
    requires tr.at == Exec(ESend, x, r) && r < |tr.now.procs| && Room(tr.now)
    ensures Does(tr, Fail, Send(TaskExecAdded(x)), Done(Finished))
  {}

  // ----- checkProcesses -----

  const IDLE: Pc := Reap(RIdle, NO_EXIT, {}, "", PRIMARY)

  lemma ReapLooksAtPrimary(tr: Trace, e: Exit) returns (tr1: Trace)
    requires tr.Ok() && tr.at == Reap(RPrimary, e, {}, "", PRIMARY) && 0 < |tr.now.procs|
    ensures Moves(tr, tr1, if tr.now.procs[PRIMARY].proc.pid == e.pid then Reap(RKill, e, {}, "", PRIMARY)
                           else Reap(RScan, e, tr.now.aux.Keys, "", PRIMARY))
  {
    if tr.now.procs[PRIMARY].proc.pid == e.pid {
      tr1 := Advance(tr, Fail, Nothing, Reap(RKill, e, {}, "", PRIMARY));
    } else {
      tr1 := Advance(tr, Fail, Nothing, Reap(RLockMu, e, {}, "", PRIMARY));
      tr1 := Advance(tr1, Fail, Nothing, Reap(RScan, e, tr.now.aux.Keys, "", PRIMARY));
    }
  }

  /** Where the exit goroutine is when it has found the process of an exit. */
  function Found(e: Exit, x: ExecId, r: Ref): Pc { Reap(if x == "" then RKill else RSetState, e, {}, x, r) }

  /** And where it is when it has looked at one entry of the map. */
  function Probed(s: State, e: Exit, todo: set<ExecId>, x: ExecId, r: Ref): Pc
    requires r < |s.procs|
  {
    if s.procs[r].proc.pid == e.pid then Found(e, x, r) else Reap(RScan, e, todo - {x}, "", PRIMARY)
  }

  lemma ReapProbes(tr: Trace, e: Exit, todo: set<ExecId>, x: ExecId, r: Ref) returns (tr1: Trace)
    requires tr.Ok() && tr.at == Reap(RScan, e, todo, "", PRIMARY) && x in todo && Finds(tr, x, r)
    ensures Moves(tr, tr1, Probed(tr.now, e, todo, x, r))
  {
    tr1 := Advance(tr, Pick(x), Nothing, Reap(RProbe, e, todo - {x}, x, r));
    tr1 := Advance(tr1, Fail, Nothing, Probed(tr.now, e, todo, x, r));
  }

  lemma ReapGivesUp(tr: Trace, e: Exit) returns (tr1: Trace)
    requires tr.Ok() && tr.at == Reap(RScan, e, {}, "", PRIMARY) && 0 < |tr.now.procs|
    ensures Moves(tr, tr1, IDLE)
  {
    tr1 := Advance(tr, Fail, Nothing, IDLE);
  }

  lemma ReapKills(tr: Trace, e: Exit, x: ExecId, r: Ref) returns (tr1: Trace)
    requires tr.Ok() && tr.at == Reap(RKill, e, {}, x, r) && r < |tr.now.procs|
    ensures Moves(tr, tr1, Reap(RSetState, e, {}, x, r))
  {
    tr1 := Advance(tr, Fail, Nothing, Reap(RSetState, e, {}, x, r));
  }

  lemma ReapSetsState(tr: Trace, e: Exit, x: ExecId, r: Ref)
    requires tr.at == Reap(RSetState, e, {}, x, r) && r < |tr.now.procs|
    ensures Does(tr, Fail, Set(r, tr.now.procs[r].proc.WithState(Stopped)), Reap(RSetExited, e, {}, x, r))
  {}

  lemma ReapSetsExited(tr: Trace, e: Exit, x: ExecId, r: Ref)
    requires tr.at == Reap(RSetExited, e, {}, x, r) && r < |tr.now.procs|
    ensures Does(tr, Fail, Set(r, tr.now.procs[r].proc.WithExited(e)), Reap(RSend, e, {}, x, r))
  {}

  lemma ReapSends(tr: Trace, e: Exit, x: ExecId, r: Ref)
    requires tr.at == Reap(RSend, e, {}, x, r) && r < |tr.now.procs| && Room(tr.now)
    ensures Does(tr, Fail, Send(TaskExit(x, e)), Reap(RStdio, e, {}, x, r))
  {}

  lemma ReapCloses(tr: Trace, e: Exit, x: ExecId, r: Ref) returns (tr1: Trace)
    requires tr.Ok() && tr.at == Reap(RStdio, e, {}, x, r) && r < |tr.now.procs|
    ensures Moves(tr, tr1, Reap(RClose, e, {}, x, r)) && Does(tr1, Fail, Close(r, ByExit), IDLE)
  {
    tr1 := Advance(tr, Fail, Nothing, Reap(RClose, e, {}, x, r));
  }
}
