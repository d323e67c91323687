/** One container from `runj create` to `runj delete`: the create command, its
    runj-entrypoint helper, and any number of overlapping start, state, kill,
    extension exec and delete commands, which meet only in the state file and in
    the exec fifo.

    Loading and saving the state are single steps (`StateFile` shows why a reader
    never sees half a state).  The fifo is kept as the kernel keeps it: an open for
    writing waits for a reader, an open for reading waits for a writer, a read
    takes all buffered bytes or waits while a writer is open, end of file comes
    when there is neither, and bytes nobody can read any more are discarded. */
module Lifecycle {
  import opened Wrappers
  import opened RunjState

  type Tid = nat

  /** The helper process: console setup, open for writing, one byte, attach to the
      jail, and finally the user's program. */
  datatype Helper = NotSpawned | Booting | Opening | Writing | Attaching | UserProgram | Dead

  datatype StartOp =
    | SLoad | SPs | SOpen
    | SOpening(gen: nat)  // blocked in open, gen writers have opened before
    | SReading | SUnlink | SSave | SSucceeded | SFailed

  datatype Pc =
    | Start(sop: StartOp, loaded: Status, got: nat)
    | Query(qop: QueryOp, loaded: Status, kill: bool)
    | Exec(xop: ExecOp, loaded: Status)
    | Delete(dop: DeleteOp)
    | Create(cop: CreateOp)

  datatype QueryOp = QLoad | QPs | QSave | QSignal | QDone
  datatype ExecOp = XLoad | XPs | XEntered | XRefused
  datatype DeleteOp = DLoad | DPs | DSignal | DRemove | DDone
  datatype CreateOp = CFifo | CSpawn | CHooks | CSave | CUndoKill | CUndoRemove | CDone

  const CREATE: Tid := 0 // the thread of the create command

  /** `status` is the persisted status, if the state directory exists.  `opens`
      counts the opens for writing; `written`, `taken` and `discarded` count bytes of
      the fifo, `runs` how often the user program was executed, `winner` the start
      whose open for reading the helper's open met. */
  datatype State = State(
    status: Option<Status>, linked: bool, buffered: nat, opens: nat,
    written: nat, taken: nat, discarded: nat,
    helper: Helper, runs: nat, threads: map<Tid, Pc>)

  const INITIAL := State(Some(Creating), false, 0, 0, 0, 0, 0, NotSpawned, 0, map[CREATE := Create(CFifo)])

  datatype Choice = Ok | Fail

  datatype Step =
    | Arrive(t: Tid, pc: Pc)
    | Op(t: Tid, c: Choice)
    | HelperOp(c: Choice)
    | HelperDies          // the helper or the user program exits or is killed
    | Crash(t: Tid)       // a start command is killed

  predicate Entry(pc: Pc) {
    || pc == Start(SLoad, Unset, 0)
    || (pc.Query? && pc.qop.QLoad?) || (pc.Exec? && pc.xop.XLoad?) || pc == Delete(DLoad)
  }

  // ----- the fifo -----

  /** Commands whose open for reading is pending or done. */
  predicate Reading(pc: Pc) {
    pc.Start? && (pc.sop.SOpening? || pc.sop.SReading? || pc.sop.SUnlink?)
  }

  predicate HasReader(s: State) { exists t :: t in s.threads && Reading(s.threads[t]) }

  predicate HasWriter(s: State) { s.helper.Writing? || s.helper.Attaching? }

  /** The kernel drops what is buffered once no descriptor is open. */
  function Swept(s: State): State {
    if HasReader(s) || HasWriter(s) then s
    else s.(discarded := s.discarded + s.buffered, buffered := 0)
  }

  // ----- commands -----

  datatype Effect = Nothing | Drain | Link | Unlink | Spawn | Kill | Save(st: Status) | Remove

  datatype Move = Blocked | Move(eff: Effect, pc: Pc)

  function Apply(s: State, eff: Effect): State {
    match eff
    case Nothing => s
    case Drain => s.(buffered := 0, taken := s.taken + s.buffered)
    case Link => s.(linked := true)
    case Unlink => s.(linked := false)
    case Spawn => s.(helper := Booting)
    case Kill => s.(helper := Dead)
    case Save(st) => s.(status := Some(st))
    case Remove => s.(status := None, linked := false)
  }

  /** Save: the error of its rename is ignored, so it may leave the old status. */
  function Saving(st: Status, c: Choice): Effect {
    if c.Ok? then Save(st) else Nothing
  }

  function StartMove(s: State, pc: Pc, c: Choice): Move
    requires pc.Start?
  {
    var Start(op, loaded, got) := pc;
    var failed := Move(Nothing, Start(SFailed, loaded, got));
    match op
    case SLoad =>
      if s.status.None? || c.Fail? then failed
      else Move(Nothing, Start(if s.status.value == Running then SPs else SOpen, s.status.value, got))
    // a container recorded as running may only be started when ps finds no process
    case SPs => if c.Fail? then Move(Nothing, Start(SOpen, loaded, got)) else failed
    case SOpen =>
      if !s.linked || c.Fail? then failed else Move(Nothing, Start(SOpening(s.opens), loaded, got))
    case SOpening(gen) =>
      if HasWriter(s) || s.opens > gen then Move(Nothing, Start(SReading, loaded, got)) else Blocked
    case SReading =>
      if s.buffered > 0 then Move(Drain, Start(SReading, loaded, got + s.buffered))
      else if HasWriter(s) then Blocked
      else if got == 0 then failed
      else Move(Nothing, Start(SUnlink, loaded, got))
    case SUnlink => if !s.linked || c.Fail? then failed else Move(Unlink, Start(SSave, loaded, got))
    case SSave =>
      // creating the temporary file fails when the directory is gone
      if s.status.None? then failed else Move(Saving(Running, c), Start(SSucceeded, loaded, got))
    case SSucceeded => Blocked
    case SFailed => Blocked
  }

  /** state and kill: a running container without processes is recorded as stopped;
      kill then signals only a container it knows to be running. */
  function QueryMove(s: State, pc: Pc, c: Choice): Move
    requires pc.Query?
  {
    var Query(op, loaded, kill) := pc;
    var done := Move(Nothing, Query(QDone, loaded, kill));
    match op
    case QLoad =>
      if s.status.None? || c.Fail? || s.status.value != Running then done
      else Move(Nothing, Query(QPs, Running, kill))
    case QPs =>
      if c.Fail? then Move(Nothing, Query(QSave, loaded, kill))
      else Move(Nothing, Query(if kill then QSignal else QDone, loaded, kill))
    case QSave => if s.status.None? then done else Move(Saving(Stopped, c), Query(QDone, Stopped, kill))
    case QSignal => done
    case QDone => Blocked
  }

  function ExecMove(s: State, pc: Pc, c: Choice): Move
    requires pc.Exec?
  {
    var Exec(op, loaded) := pc;
    match op
    case XLoad =>
      if s.status.None? || c.Fail? || s.status.value != Running then Move(Nothing, Exec(XRefused, loaded))
      else Move(Nothing, Exec(XPs, Running))
    case XPs => Move(Nothing, Exec(if c.Ok? then XEntered else XRefused, loaded))
    case XEntered => Blocked
    case XRefused => Blocked
  }

  function DeleteMove(s: State, pc: Pc, c: Choice): Move
    requires pc.Delete?
  {
    match pc.dop
    case DLoad => Move(Nothing, Delete(if s.status.None? || c.Fail? then DDone else DPs))
    case DPs => Move(Nothing, Delete(if c.Fail? then DDone else DSignal))
    case DSignal => Move(Nothing, Delete(if c.Fail? then DDone else DRemove))
    case DRemove => Move(Remove, Delete(DDone))
    case DDone => Blocked
  }

  /** create, from the making of the fifo on. */
  function CreateMove(s: State, pc: Pc, c: Choice): Move
    requires pc.Create?
  {
    match pc.cop
    case CFifo => if c.Fail? || s.status.None? then Move(Nothing, Create(CUndoRemove)) else Move(Link, Create(CSpawn))
    case CSpawn => if c.Fail? then Move(Nothing, Create(CUndoRemove)) else Move(Spawn, Create(CHooks))
    case CHooks => Move(Nothing, Create(if c.Fail? then CUndoKill else CSave))
    case CSave => Move(if s.status.None? then Nothing else Saving(Created, c), Create(CDone))
    case CUndoKill => Move(Kill, Create(CUndoRemove))
    case CUndoRemove => Move(Remove, Create(CDone))
    case CDone => Blocked
  }

  function CommandMove(s: State, pc: Pc, c: Choice): Move {
    match pc
    case Start(_, _, _) => StartMove(s, pc, c)
    case Query(_, _, _) => QueryMove(s, pc, c)
    case Exec(_, _) => ExecMove(s, pc, c)
    case Delete(_) => DeleteMove(s, pc, c)
    case Create(_) => CreateMove(s, pc, c)
  }

  /** The helper opens the fifo by name, meets a reader, writes its byte and goes on
      to the user program; any failure ends it.  Its descriptor is close-on-exec. */
  function HelperMove(s: State, c: Choice): Option<State> {
    var dead := Some(s.(helper := Dead));
    match s.helper
    case Booting => if c.Fail? || !s.linked then dead else Some(s.(helper := Opening))
    case Opening => if HasReader(s) then Some(s.(helper := Writing, opens := s.opens + 1)) else None
    case Writing =>
      if c.Fail? || !HasReader(s) then dead
      else Some(s.(helper := Attaching, buffered := s.buffered + 1, written := s.written + 1))
    case Attaching => if c.Fail? then dead else Some(s.(helper := UserProgram, runs := s.runs + 1))
    case NotSpawned => None
    case UserProgram => None
    case Dead => None
  }

  function Switch(s: State, t: Tid, pc: Pc): State { s.(threads := s.threads[t := pc]) }

  predicate Next(s: State, step: Step, s': State) {
    match step
    case Arrive(t, pc) => t !in s.threads && Entry(pc) && s' == Switch(s, t, pc)
    case Op(t, c) =>
      && t in s.threads
      && var m := CommandMove(s, s.threads[t], c);
         m.Move? && s' == Swept(Switch(Apply(s, m.eff), t, m.pc))
    case HelperOp(c) => var h := HelperMove(s, c); h.Some? && s' == Swept(h.value)
    case HelperDies => !s.helper.NotSpawned? && !s.helper.Dead? && s' == Swept(s.(helper := Dead))
    case Crash(t) =>
      && t in s.threads && s.threads[t].Start? && !s.threads[t].sop.SSucceeded?
      && s' == Swept(Switch(s, t, Start(SFailed, s.threads[t].loaded, s.threads[t].got)))
  }

  predicate IsRun(ss: seq<State>, steps: seq<Step>) {
    && |ss| == |steps| + 1 && ss[0] == INITIAL
    && forall i | 0 <= i < |steps| :: Next(ss[i], steps[i], ss[i + 1])
  }
}
