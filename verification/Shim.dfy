/** The containerd shim as a step system: RPC handlers, the exit-processing
    goroutine and the event forwarder interleave freely.

    Every thread is at a program point (`Pc`).  At a program point the thread
    keeps the locks in `Outer(pc)`, which it brought along, and first acquires
    `Inner(pc)`, if any.  Acquiring a lock, releasing a lock and executing the
    program point are three separate steps, so between any two of them every
    other thread may run.  A lock that is not in `Outer` may be released at any
    time, so two program points that need the same lock are not one section.

    What a program point does to the shared state is one `Effect`; `Execute` says which
    effect and which successor a choice of the environment (a command that works or
    fails, a map iteration order) leads to. */
module Shim {
  import opened Wrappers
  import opened RunjState
  import opened ShimProcess

  type ExecId = string
  type Tid = nat
  type Ref = nat // index into State.procs

  const PRIMARY: Ref := 0 // the jail's main process
  const EXITS: Tid := 0 // the exit-processing goroutine
  const CAPACITY := 128 // room in the event queue

  datatype Lock = EventSendMu | Mu | ProcMu(r: Ref)

  datatype Event =
    | TaskCreate(pid: nat)
    | TaskStart(pid: nat, start: nat)
    | TaskExecAdded(x: ExecId)
    | TaskExecStarted(x: ExecId, pid: nat)
    | TaskExit(x: ExecId, exit: Exit)

  datatype Result = Failed | Finished | Waited(r: Ref, exit: Exit)

  datatype Closer = ByExit | ByStart | ByDelete

  /** A process object under the exec id it was made for, together with the
      history of the close operations on its channel. */
  datatype Object = Object(key: ExecId, proc: Process, closed: seq<Closer>)

  // Exec: newAuxiliary, SetSpec, SetState, setupIO, SetStdio, CreateTemp, SetSpecfile, sendL
  datatype ExecOp = ENew | ESpec | EState | EIO | EStdio | ETemp | ESpecfile | ESend
  // startAux; from SStdio to SSend the event lock is held
  datatype StartOp = SGet | SCheck | SLock | SStdio | SSpec | SSpecfile | SRun
                   | SFailState | SFailClose | SSetPid | SConsole | SSetState | SSend
  // startPrimary: `runj state`, then `runj start` under the event lock
  datatype InitOp = IState | ILock | IRun | IReleased | ISend
  // deleteAux
  datatype DeleteOp = DGet | DState | DClose | DSpecfile | DForget | DRemove
  // Kill, State, ResizePty, Connect: look a process up, read fields, run a command
  datatype PeekOp = PGet | PField | PRun
  datatype WaitOp = WGet | WBlock | WExit
  datatype CreateOp = CBundle | CRun | CStdio | CConsole | CState | CSetPid | CSend
  // processExits, findProcess, checkProcesses
  datatype ReapOp = RIdle | RPrimary | RLockMu | RScan | RProbe
                  | RKill | RSetState | RSetExited | RSend | RStdio | RClose

  datatype Pc =
    | Exec(eop: ExecOp, x: ExecId, r: Ref)
    | Start(sop: StartOp, x: ExecId, r: Ref, p: nat)
    | Init(iop: InitOp, p: nat, k: nat)
    | Delete(dop: DeleteOp, x: ExecId, r: Ref)
    | Peek(pop: PeekOp, x: ExecId, r: Ref)
    | Wait(wop: WaitOp, x: ExecId, r: Ref)
    | Create(cop: CreateOp, p: nat)
    | Reap(rop: ReapOp, e: Exit, todo: set<ExecId>, x: ExecId, r: Ref)
    | Done(result: Result)

  /** `log` is every event ever sent, in order; the queue is `log[taken..]`, so
      `log[..taken]` is what the forwarder took for publication.  `reported` holds
      the PIDs whose present incarnation the reaper has reported; `delivered` is
      every exit it ever reported.  `releases` counts the `runj start` commands
      that opened the fifo, `failedStarts` those that failed after that. */
  datatype State = State(
    procs: seq<Object>, aux: map<ExecId, Ref>,
    threads: map<Tid, Pc>, locks: map<Lock, Tid>,
    log: seq<Event>, taken: nat,
    exits: seq<Exit>, reported: set<nat>, delivered: set<Exit>,
    releases: nat, failedStarts: set<nat>)

  datatype Effect =
    | Nothing | NewObject(x: ExecId) | Unmap(x: ExecId)
    | Set(r: Ref, proc: Process) | Close(r: Ref, closer: Closer)
    | Send(event: Event) | TakeExit | Spawned(p: nat) | Opened | StartFailed(k: nat)

  datatype Choice = Succeed(p: nat) | Fail | Pick(x: ExecId)

  datatype Move = Blocked | Move(eff: Effect, pc: Pc)

  const GIVE_UP := Move(Nothing, Done(Failed))

  // ----- which locks a program point needs -----

  function Inner(pc: Pc): Option<Lock> {
    match pc
    case Exec(op, _, r) =>
      (match op case ENew => Some(Mu) case EIO | ETemp => None case ESend => Some(EventSendMu)
       case _ => Some(ProcMu(r)))
    case Start(op, _, r, _) =>
      (match op case SGet => Some(Mu) case SLock => Some(EventSendMu)
       case SRun | SFailClose | SSend => None case _ => Some(ProcMu(r)))
    case Init(op, _, _) => if op.ILock? then Some(EventSendMu) else None
    case Delete(op, _, r) =>
      (match op case DGet | DRemove => Some(Mu) case DClose => None case _ => Some(ProcMu(r)))
    case Peek(op, _, r) => (match op case PGet => Some(Mu) case PField => Some(ProcMu(r)) case PRun => None)
    case Wait(op, _, r) => (match op case WGet => Some(Mu) case WBlock => None case WExit => Some(ProcMu(r)))
    case Create(op, _) =>
      (match op case CBundle => Some(Mu) case CRun | CState => None case CSend => Some(EventSendMu)
       case _ => Some(ProcMu(PRIMARY)))
    case Reap(op, _, _, _, r) =>
      (match op case RPrimary => Some(ProcMu(PRIMARY)) case RLockMu => Some(Mu) case RSend => Some(EventSendMu)
       case RIdle | RScan | RKill | RClose => None case _ => Some(ProcMu(r)))
    case Done(_) => None
  }

  function Outer(pc: Pc): set<Lock> {
    match pc
    case Start(op, _, _, _) => if op.SGet? || op.SCheck? || op.SLock? then {} else {EventSendMu}
    case Init(op, _, _) => if op.IState? || op.ILock? then {} else {EventSendMu}
    case Reap(op, _, _, _, _) => if op.RScan? || op.RProbe? then {Mu} else {}
    case _ => {}
  }

  function Needs(pc: Pc): set<Lock> {
    Outer(pc) + match Inner(pc) case None => {} case Some(l) => {l}
  }

  // ----- what a program point does -----

  /** Program points that hold a reference to a process object. */
  predicate HasRef(pc: Pc) {
    match pc
    case Exec(op, _, _) => !op.ENew?
    case Start(op, _, _, _) => !op.SGet?
    case Delete(op, _, _) => !op.DGet?
    case Peek(op, _, _) => op.PField?
    case Wait(op, _, _) => !op.WGet?
    case Reap(op, _, _, _, _) => op.RProbe? || HandlesExit(pc)
    case _ => false
  }

  /** checkProcesses has found the object and has not yet closed its channel. */
  predicate HandlesExit(pc: Pc) {
    pc.Reap? && (pc.rop.RKill? || pc.rop.RSetState? || pc.rop.RSetExited? || pc.rop.RSend? || pc.rop.RStdio?
                 || pc.rop.RClose?)
  }

  predicate RefsOk(s: State, pc: Pc) {
    && 0 < |s.procs|
    && (HasRef(pc) ==> pc.r < |s.procs|)
  }

  function ExecuteExec(s: State, pc: Pc, c: Choice): Move
    requires pc.Exec? && RefsOk(s, pc)
  {
    var Exec(op, x, r) := pc;
    match op
    case ENew => if x in s.aux then GIVE_UP else Move(NewObject(x), Exec(ESpec, x, |s.procs|))
    case ESpec => Move(Nothing, Exec(EState, x, r))
    case EState => Move(Set(r, s.procs[r].proc.WithState(Created)), Exec(EIO, x, r))
    case EIO => if c.Fail? then GIVE_UP else Move(Nothing, Exec(EStdio, x, r))
    case EStdio => Move(Nothing, Exec(ETemp, x, r))
    case ETemp => if c.Fail? then GIVE_UP else Move(Nothing, Exec(ESpecfile, x, r))
    case ESpecfile => Move(Set(r, s.procs[r].proc.WithSpecfile(true)), Exec(ESend, x, r))
    case ESend => Move(Send(TaskExecAdded(x)), Done(Finished))
  }

  function ExecuteStart(s: State, pc: Pc, c: Choice): Move
    requires pc.Start? && RefsOk(s, pc)
  {
    var Start(op, x, r, p) := pc;
    match op
    case SGet => if x in s.aux then Move(Nothing, Start(SCheck, x, s.aux[x], 0)) else GIVE_UP
    case SCheck => if s.procs[r].proc.state != Created then GIVE_UP else Move(Nothing, Start(SLock, x, r, 0))
    case SLock => Move(Nothing, Start(SStdio, x, r, 0))
    case SStdio => Move(Nothing, Start(SSpec, x, r, 0))
    case SSpec => Move(Nothing, Start(SSpecfile, x, r, 0))
    case SSpecfile => Move(Nothing, Start(SRun, x, r, 0))
    case SRun =>
      if c.Succeed? && c.p != 0 then Move(Spawned(c.p), Start(SSetPid, x, r, c.p))
      else Move(Nothing, Start(SFailState, x, r, 0))
    case SFailState => Move(Set(r, s.procs[r].proc.WithState(Stopped)), Start(SFailClose, x, r, 0))
    case SFailClose => Move(Close(r, ByStart), Done(Failed))
    case SSetPid => Move(Set(r, s.procs[r].proc.WithPid(p)), Start(SConsole, x, r, p))
    case SConsole => Move(Nothing, Start(SSetState, x, r, p))
    case SSetState => Move(Set(r, s.procs[r].proc.WithState(Running)), Start(SSend, x, r, p))
    case SSend => Move(Send(TaskExecStarted(x, p)), Done(Finished))
  }

  function ExecuteInit(s: State, pc: Pc, c: Choice): Move
    requires pc.Init?
  {
    var Init(op, p, k) := pc;
    match op
    case IState => if c.Succeed? then Move(Nothing, Init(ILock, c.p, 0)) else GIVE_UP
    case ILock => Move(Nothing, Init(IRun, p, 0))
    case IRun => if c.Fail? then GIVE_UP else Move(Opened, Init(IReleased, p, s.releases))
    case IReleased => if c.Fail? then Move(StartFailed(k), Done(Failed)) else Move(Nothing, Init(ISend, p, k))
    case ISend => Move(Send(TaskStart(p, k)), Done(Finished))
  }

  function ExecuteDelete(s: State, pc: Pc, c: Choice): Move
    requires pc.Delete? && RefsOk(s, pc)
  {
    var Delete(op, x, r) := pc;
    match op
    case DGet => if x in s.aux then Move(Nothing, Delete(DState, x, s.aux[x])) else GIVE_UP
    case DState =>
      (match s.procs[r].proc.state
       case Running => GIVE_UP
       case Creating | Created => Move(Nothing, Delete(DClose, x, r))
       case Unset | Stopped => Move(Nothing, Delete(DSpecfile, x, r)))
    case DClose => Move(Close(r, ByDelete), Delete(DSpecfile, x, r))
    case DSpecfile => Move(Nothing, Delete(if s.procs[r].proc.specfile then DForget else DRemove, x, r))
    case DForget => Move(Set(r, s.procs[r].proc.WithSpecfile(false)), Delete(DRemove, x, r))
    case DRemove => Move(Unmap(x), Done(Finished))
  }

  function ExecutePeek(s: State, pc: Pc, c: Choice): Move
    requires pc.Peek? && RefsOk(s, pc)
  {
    var Peek(op, x, r) := pc;
    match op
    case PGet => if x in s.aux then Move(Nothing, Peek(PField, x, s.aux[x])) else GIVE_UP
    case PField =>
      (match c
       case Succeed(_) => Move(Nothing, Peek(PRun, x, r))
       case Fail => GIVE_UP
       case Pick(_) => Move(Nothing, pc))
    case PRun => Move(Nothing, Done(if c.Fail? then Failed else Finished))
  }

  function ExecuteWait(s: State, pc: Pc): Move
    requires pc.Wait? && RefsOk(s, pc)
  {
    var Wait(op, x, r) := pc;
    match op
    case WGet => if x in s.aux then Move(Nothing, Wait(WBlock, x, s.aux[x])) else GIVE_UP
    case WBlock => if s.procs[r].closed == [] then Blocked else Move(Nothing, Wait(WExit, x, r))
    case WExit => Move(Nothing, Done(Waited(r, s.procs[r].proc.exit)))
  }

  function ExecuteCreate(s: State, pc: Pc, c: Choice): Move
    requires pc.Create? && RefsOk(s, pc)
  {
    var Create(op, p) := pc;
    match op
    case CBundle => Move(Nothing, Create(CRun, 0))
    case CRun => if c.Fail? then GIVE_UP else Move(Nothing, Create(CStdio, 0))
    case CStdio => Move(Nothing, Create(CConsole, 0))
    case CConsole => Move(Nothing, Create(CState, 0))
    case CState => if c.Succeed? then Move(Nothing, Create(CSetPid, c.p)) else GIVE_UP
    case CSetPid => Move(Set(PRIMARY, s.procs[PRIMARY].proc.WithPid(p)), Create(CSend, p))
    case CSend => Move(Send(TaskCreate(p)), Done(Finished))
  }

  function ExecuteReap(s: State, pc: Pc, c: Choice): Move
    requires pc.Reap? && RefsOk(s, pc)
  {
    var Reap(op, e, todo, x, r) := pc;
    match op
    case RIdle => if s.exits == [] then Blocked else Move(TakeExit, Reap(RPrimary, s.exits[0], {}, "", PRIMARY))
    case RPrimary =>
      Move(Nothing, Reap(if s.procs[PRIMARY].proc.pid == e.pid then RKill else RLockMu, e, {}, "", PRIMARY))
    case RLockMu => Move(Nothing, Reap(RScan, e, s.aux.Keys, "", PRIMARY))
    case RScan =>
      if todo == {} then Move(Nothing, Reap(RIdle, NO_EXIT, {}, "", PRIMARY))
      else if c.Pick? && c.x in todo && c.x in s.aux
      then Move(Nothing, Reap(RProbe, e, todo - {c.x}, c.x, s.aux[c.x]))
      else Blocked
    case RProbe =>
      if s.procs[r].proc.pid != e.pid then Move(Nothing, Reap(RScan, e, todo, "", PRIMARY))
      else Move(Nothing, Reap(if x == "" then RKill else RSetState, e, {}, x, r))
    case RKill => Move(Nothing, Reap(RSetState, e, {}, x, r))
    case RSetState => Move(Set(r, s.procs[r].proc.WithState(Stopped)), Reap(RSetExited, e, {}, x, r))
    case RSetExited => Move(Set(r, s.procs[r].proc.WithExited(e)), Reap(RSend, e, {}, x, r))
    case RSend => Move(Send(TaskExit(x, e)), Reap(RStdio, e, {}, x, r))
    case RStdio => Move(Nothing, Reap(RClose, e, {}, x, r))
    case RClose => Move(Close(r, ByExit), Reap(RIdle, NO_EXIT, {}, "", PRIMARY))
  }

  function Execute(s: State, pc: Pc, c: Choice): Move
    requires RefsOk(s, pc)
  {
    match pc
    case Exec(_, _, _) => ExecuteExec(s, pc, c)
    case Start(_, _, _, _) => ExecuteStart(s, pc, c)
    case Init(_, _, _) => ExecuteInit(s, pc, c)
    case Delete(_, _, _) => ExecuteDelete(s, pc, c)
    case Peek(_, _, _) => ExecutePeek(s, pc, c)
    case Wait(_, _, _) => ExecuteWait(s, pc)
    case Create(_, _) => ExecuteCreate(s, pc, c)
    case Reap(_, _, _, _, _) => ExecuteReap(s, pc, c)
    case Done(_) => Blocked
  }

  predicate EffectOk(s: State, eff: Effect) {
    match eff
    case Set(r, _) => r < |s.procs|
    case Close(r, _) => r < |s.procs|
    case Send(_) => |s.log| - s.taken < CAPACITY
    case TakeExit => s.exits != []
    case _ => true
  }

  function Apply(s: State, eff: Effect): State
    requires EffectOk(s, eff)
  {
    match eff
    case Nothing => s
    case NewObject(x) =>
      s.(procs := s.procs + [Object(x, NewProcess, [])], aux := s.aux[x := |s.procs|])
    case Unmap(x) => s.(aux := s.aux - {x})
    case Set(r, proc) => s.(procs := s.procs[r := s.procs[r].(proc := proc)])
    case Close(r, closer) => s.(procs := s.procs[r := s.procs[r].(closed := s.procs[r].closed + [closer])])
    case Send(event) => s.(log := s.log + [event])
    case TakeExit => s.(exits := s.exits[1..])
    case Spawned(p) => s.(reported := s.reported - {p})
    case Opened => s.(releases := s.releases + 1)
    case StartFailed(k) => s.(failedStarts := s.failedStarts + {k})
  }

  // ----- steps -----

  /** The program points a request begins at. */
  predicate Entry(pc: Pc) {
    match pc
    case Exec(op, _, _) => op.ENew?
    case Start(op, x, _, _) => op.SGet? && x != ""
    case Init(op, _, _) => op.IState?
    case Delete(op, x, _) => op.DGet? && x != ""
    case Peek(op, x, r) => op.PRun? || op.PGet? || (op.PField? && x == "" && r == PRIMARY)
    case Wait(op, x, r) => if x == "" then op.WBlock? && r == PRIMARY else op.WGet?
    case Create(op, _) => op.CBundle?
    case _ => false
  }

  datatype Step =
    | Arrive(t: Tid, pc: Pc)        // a request comes in
    | Acquire(t: Tid)
    | Release(t: Tid, l: Lock)
    | Op(t: Tid, c: Choice)
    | Forward                       // the forwarder takes the next event
    | ReapExit(e: Exit)             // the reaper reports an exit
    | Reuse(p: nat)                 // the kernel gives p to a process the shim does not manage

  predicate HoldsExactly(s: State, t: Tid, ls: set<Lock>) {
    && (forall l | l in s.locks :: s.locks[l] == t ==> l in ls)
    && (forall l | l in ls :: l in s.locks && s.locks[l] == t)
  }

  predicate CanOp(s: State, t: Tid, c: Choice) {
    && t in s.threads
    && HoldsExactly(s, t, Needs(s.threads[t]))
    && RefsOk(s, s.threads[t])
    && var m := Execute(s, s.threads[t], c);
    && m.Move? && EffectOk(s, m.eff)
  }

  function DoOp(s: State, t: Tid, c: Choice): State
    requires CanOp(s, t, c)
  {
    var m := Execute(s, s.threads[t], c);
    Apply(s, m.eff).(threads := s.threads[t := m.pc])
  }

  predicate Next(s: State, step: Step, s': State) {
    match step
    case Arrive(t, pc) => t !in s.threads && Entry(pc) && s' == s.(threads := s.threads[t := pc])
    case Acquire(t) =>
      && t in s.threads
      && Inner(s.threads[t]).Some?
      && Inner(s.threads[t]).value !in s.locks
      && HoldsExactly(s, t, Outer(s.threads[t]))
      && s' == s.(locks := s.locks[Inner(s.threads[t]).value := t])
    case Release(t, l) =>
      && t in s.threads
      && l in s.locks && s.locks[l] == t && l !in Outer(s.threads[t])
      && s' == s.(locks := s.locks - {l})
    case Op(t, c) => CanOp(s, t, c) && s' == DoOp(s, t, c)
    case Forward => s.taken < |s.log| && s' == s.(taken := s.taken + 1)
    case ReapExit(e) =>
      && e.pid != 0 && e.after == s.releases
      && s' == s.(exits := s.exits + [e], reported := s.reported + {e.pid}, delivered := s.delivered + {e})
    case Reuse(p) => s' == s.(reported := s.reported - {p})
  }

  const INITIAL := State([Object("", NewProcess, [])], map[], map[EXITS := Reap(RIdle, NO_EXIT, {}, "", PRIMARY)],
                         map[], [], 0, [], {}, {}, 0, {})

  /** A run: states and the steps between them. */
  predicate IsRun(ss: seq<State>, steps: seq<Step>) {
    && |ss| == |steps| + 1
    && ss[0] == INITIAL
    && forall i | 0 <= i < |steps| :: Next(ss[i], steps[i], ss[i + 1])
  }
}
