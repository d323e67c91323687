/** The shim's objects and handlers as they stand in the code: a service with its map
    of managed processes, and Exec, startAux, deleteAux and checkProcesses as methods
    over them.  Each handler, running by itself, does to the objects exactly what its
    program points in the step system do to the state; the locks and the interleaving
    are in `Shim`. */
module ShimObjects {
  import opened Wrappers
  import opened RunjState
  import opened ShimProcess
  import opened Shim
  import opened ShimAlone

  class ManagedProcess {
    var pid: nat
    var exit: Exit
    var state: Status
    var specfile: string
    var closed: bool // waitblock
    ghost const key: ExecId
    ghost const index: Ref // its place among the objects of the service
    ghost var closers: seq<Closer> // who closed waitblock

    ghost function Value(): Object
      reads this
    {
      Object(key, Process(pid, exit, state, specfile != ""), closers)
    }

    constructor (ghost id: ExecId, ghost place: Ref)
      ensures Value() == Object(id, NewProcess, []) && !closed && index == place
    {
      pid, exit, state, specfile, closed := 0, NO_EXIT, Unset, "", false;
      key, index, closers := id, place, [];
    }

    method SetPID(p: nat) returns (ok: bool)
      modifies this
      ensures Value() == old(Value()).(proc := old(Value()).proc.WithPid(p)) && closed == old(closed)
      ensures ok <==> pid == p
      ensures old(pid) != 0 ==> pid == old(pid)
    {
      if pid != 0 && pid != p { return false; }
      pid := p;
      return true;
    }

    method SetExited(e: Exit)
      modifies this
      ensures Value() == old(Value()).(proc := old(Value()).proc.WithExited(e)) && closed == old(closed)
    {
      exit := e;
    }

    method SetState(st: Status)
      modifies this
      ensures Value() == old(Value()).(proc := old(Value()).proc.WithState(st)) && closed == old(closed)
    {
      state := st;
    }

    method SetSpecfile(name: string)
      modifies this
      ensures Value() == old(Value()).(proc := old(Value()).proc.WithSpecfile(name != "")) && closed == old(closed)
      ensures specfile == name
    {
      specfile := name;
    }

    method CloseWaitblock(ghost closer: Closer)
      modifies this
      ensures Value() == old(Value()).(closed := old(Value()).closed + [closer]) && closed
    {
      closed := true;
      closers := closers + [closer];
    }
  }

  /** The objects, one by one, have these values. */
  ghost predicate Shown(objects: seq<ManagedProcess>, procs: seq<Object>)
    reads objects
  {
    && |procs| == |objects|
    && forall i | 0 <= i < |objects| ::
         procs[i] == objects[i].Value() && (objects[i].closed <==> procs[i].closed != [])
  }

  lemma ShownWith(objects: seq<ManagedProcess>, procs: seq<Object>, aux: ManagedProcess)
    requires Shown(objects, procs) && (aux.closed <==> aux.Value().closed != [])
    ensures Shown(objects + [aux], procs + [aux.Value()])
  {}

  ghost predicate Placed(objects: seq<ManagedProcess>) {
    forall i | 0 <= i < |objects| :: objects[i].index == i
  }

  lemma PlacedWith(objects: seq<ManagedProcess>, aux: ManagedProcess)
    requires Placed(objects) && aux.index == |objects|
    ensures Placed(objects + [aux])
  {}

  /** The map leads to the objects that its references name, none of them the primary one. */
  predicate Mapped(objects: seq<ManagedProcess>, refs: map<ExecId, Ref>, auxiliary: map<ExecId, ManagedProcess>) {
    && refs.Keys == auxiliary.Keys
    && forall x | x in refs :: PRIMARY != refs[x] < |objects| && objects[refs[x]] == auxiliary[x]
  }

  lemma MappedWith(objects: seq<ManagedProcess>, refs: map<ExecId, Ref>, auxiliary: map<ExecId, ManagedProcess>,
                   id: ExecId, aux: ManagedProcess)
    requires 0 < |objects| && Mapped(objects, refs, auxiliary) && id !in auxiliary
    ensures Mapped(objects + [aux], refs[id := |objects|], auxiliary[id := aux])
  {}

  class Service {
    const primary: ManagedProcess
    var auxiliary: map<ExecId, ManagedProcess>
    var events: seq<Event> // what was sent, in order
    ghost var objects: seq<ManagedProcess> // every process object made so far
    ghost var refs: map<ExecId, Ref>

    /** The map holds objects other than the primary one, each under the id it was made for. */
    ghost predicate Valid()
      reads this
    {
      && 0 < |objects| && objects[PRIMARY] == primary
      && Placed(objects) && Mapped(objects, refs, auxiliary)
    }

    /** The step system's view of the service. */
    ghost predicate Shows(s: State)
      reads this, objects
    {
      Shown(objects, s.procs) && s.aux == refs && s.log == events
    }

    /** The service shows where a handler has got to. */
    ghost predicate Follows(tr: Trace)
      reads this, objects
    {
      Valid() && tr.Ok() && Shows(tr.now)
    }

    constructor ()
      ensures Valid() && Shows(INITIAL)
    {
      primary := new ManagedProcess("", PRIMARY);
      auxiliary, events := map[], [];
      new;
      objects, refs := [primary], map[];
    }

    method NewAuxiliary(id: ExecId, ghost s: State) returns (aux: ManagedProcess?)
      requires Valid() && Shows(s)
      modifies this
      ensures Valid()
      ensures aux == null <==> id in old(auxiliary)
      ensures if aux == null then Shows(s) && objects == old(objects)
              else
                && Shows(Apply(s, NewObject(id))) && fresh(aux) && objects == old(objects) + [aux]
                && refs[id] == |old(objects)| && auxiliary[id] == aux
    {
      if id in auxiliary { return null; }
      aux := new ManagedProcess(id, |objects|);
      AddObject(id, aux, s);
    }

    method AddObject(id: ExecId, aux: ManagedProcess, ghost s: State)
      requires Valid() && Shows(s) && id !in auxiliary && aux.index == |objects|
      requires aux.Value() == Object(id, NewProcess, []) && !aux.closed
      modifies this
      ensures Valid() && Shows(Apply(s, NewObject(id)))
      ensures objects == old(objects) + [aux] && refs[id] == |old(objects)| && id in auxiliary && auxiliary[id] == aux
    {
      ShownWith(objects, s.procs, aux);
      PlacedWith(objects, aux);
      MappedWith(objects, refs, auxiliary, id, aux);
      auxiliary := auxiliary[id := aux];
      refs := refs[id := |objects|];
      objects := objects + [aux];
    }

    method GetAuxiliary(id: ExecId) returns (aux: ManagedProcess?)
      ensures aux == null <==> id !in auxiliary
      ensures aux != null ==> aux == auxiliary[id]
    {
      aux := if id in auxiliary then auxiliary[id] else null;
    }

    method DeleteAuxiliary(id: ExecId, ghost s: State)
      requires Valid() && Shows(s)
      modifies this
      ensures Valid() && Shows(Apply(s, Unmap(id))) && objects == old(objects)
      ensures auxiliary == old(auxiliary) - {id} && events == old(events)
    {
      auxiliary := auxiliary - {id};
      refs := refs - {id};
    }

    // ----- one program point: the object or the queue changes as the step system says -----

    method Send(event: Event, ghost tr: Trace, ghost c: Choice, ghost next: Pc) returns (ghost tr1: Trace)
      requires Follows(tr) && Does(tr, c, Effect.Send(event), next)
      modifies this
      ensures Follows(tr1) && Continues(tr, tr1) && tr1.at == next
      ensures objects == old(objects) && auxiliary == old(auxiliary) && refs == old(refs)
      ensures tr1.now == Apply(tr.now, Effect.Send(event)) && events == old(events) + [event]
    {
      tr1 := Advance(tr, c, Effect.Send(event), next);
      events := events + [event];
    }

    method SetState(proc: ManagedProcess, st: Status, ghost r: Ref, ghost tr: Trace, ghost c: Choice, ghost next: Pc)
      returns (ghost tr1: Trace)
      requires Follows(tr) && r < |objects| && objects[r] == proc
      requires Does(tr, c, Set(r, tr.now.procs[r].proc.WithState(st)), next)
      modifies proc
      ensures Follows(tr1) && Continues(tr, tr1) && tr1.at == next
      ensures tr1.now == Apply(tr.now, Set(r, tr.now.procs[r].proc.WithState(st)))
      ensures proc.state == st && proc.pid == old(proc.pid)
    {
      tr1 := Advance(tr, c, Set(r, tr.now.procs[r].proc.WithState(st)), next);
      proc.SetState(st);
    }

    method Close(proc: ManagedProcess, closer: Closer, ghost r: Ref, ghost tr: Trace, ghost c: Choice, ghost next: Pc)
      returns (ghost tr1: Trace)
      requires Follows(tr) && r < |objects| && objects[r] == proc
      requires Does(tr, c, Effect.Close(r, closer), next)
      modifies proc
      ensures Follows(tr1) && Continues(tr, tr1) && tr1.at == next && tr1.now == Apply(tr.now, Effect.Close(r, closer))
      ensures proc.closed && proc.state == old(proc.state)
    {
      tr1 := Advance(tr, c, Effect.Close(r, closer), next);
      proc.CloseWaitblock(closer);
    }

    method SetPID(proc: ManagedProcess, pid: nat, ghost r: Ref, ghost tr: Trace, ghost c: Choice, ghost next: Pc)
      returns (ghost tr1: Trace)
      requires Follows(tr) && r < |objects| && objects[r] == proc
      requires Does(tr, c, Set(r, tr.now.procs[r].proc.WithPid(pid)), next)
      modifies proc
      ensures Follows(tr1) && Continues(tr, tr1) && tr1.at == next
      ensures tr1.now == Apply(tr.now, Set(r, tr.now.procs[r].proc.WithPid(pid)))
      ensures proc.pid == if old(proc.pid) == 0 then pid else old(proc.pid)
    {
      tr1 := Advance(tr, c, Set(r, tr.now.procs[r].proc.WithPid(pid)), next);
      var _ := proc.SetPID(pid); // its error is ignored
    }

    method SetExited(proc: ManagedProcess, e: Exit, ghost r: Ref, ghost tr: Trace, ghost c: Choice, ghost next: Pc)
      returns (ghost tr1: Trace)
      requires Follows(tr) && r < |objects| && objects[r] == proc
      requires Does(tr, c, Set(r, tr.now.procs[r].proc.WithExited(e)), next)
      modifies proc
      ensures Follows(tr1) && Continues(tr, tr1) && tr1.at == next
      ensures tr1.now == Apply(tr.now, Set(r, tr.now.procs[r].proc.WithExited(e)))
    {
      tr1 := Advance(tr, c, Set(r, tr.now.procs[r].proc.WithExited(e)), next);
      proc.SetExited(e);
    }

    method SetSpecfile(proc: ManagedProcess, name: string, ghost r: Ref, ghost tr: Trace, ghost c: Choice,
                       ghost next: Pc)
      returns (ghost tr1: Trace)
      requires Follows(tr) && r < |objects| && objects[r] == proc
      requires Does(tr, c, Set(r, tr.now.procs[r].proc.WithSpecfile(name != "")), next)
      modifies proc
      ensures Follows(tr1) && Continues(tr, tr1) && tr1.at == next
      ensures tr1.now == Apply(tr.now, Set(r, tr.now.procs[r].proc.WithSpecfile(name != "")))
      ensures proc.specfile == name && proc.closed == old(proc.closed)
    {
      tr1 := Advance(tr, c, Set(r, tr.now.procs[r].proc.WithSpecfile(name != "")), next);
      proc.SetSpecfile(name);
    }

    // ----- the handlers -----

    /** deleteAux: without such a process, or while it runs, nothing happens. */
    method DeleteAux(id: ExecId, ghost s: State) returns (ok: bool, ghost tr: Trace)
      requires Valid() && Shows(s)
      modifies this, objects
      ensures MapOk(s) && (ok <==> Deletable(s, id))
      ensures Follows(tr) && tr.start == s && tr.entry == Delete(DGet, id, 0)
      ensures tr.at == Done(if ok then Finished else Failed) && tr.now == AfterDelete(s, id)
      ensures ok <==> id in old(auxiliary) && old(auxiliary[id].state) != Running
      ensures ok ==> auxiliary == old(auxiliary) - {id} && old(auxiliary[id]).specfile == ""
      ensures ok && (old(auxiliary[id].state) == Creating || old(auxiliary[id].state) == Created) ==>
                old(auxiliary[id]).closed
      ensures !ok ==> auxiliary == old(auxiliary)
      ensures events == old(events)
    {
      tr := Begin(s, Delete(DGet, id, 0));
      var aux := GetAuxiliary(id);
      if aux == null {
        tr := DeleteMissing(tr, id);
        return false, tr;
      }
      ghost var r := refs[id];
      tr := DeleteLooks(tr, id, r);
      var auxState := aux.state;
      if auxState == Running { return false, tr; }
      tr := DeleteFound(id, aux, tr, r);
      ok := true;
    }

    method DeleteFound(id: ExecId, aux: ManagedProcess, ghost before: Trace, ghost r: Ref) returns (ghost tr: Trace)
      requires Follows(before) && r < |objects| && objects[r] == aux
      requires before.at == if aux.state == Creating || aux.state == Created then Delete(DClose, id, r)
                            else Delete(DSpecfile, id, r)
      modifies this, aux
      ensures Follows(tr) && Continues(before, tr) && tr.at == Done(Finished)
      ensures r < |before.now.procs| && tr.now == Deleted(before.now, id, r)
      ensures auxiliary == old(auxiliary) - {id} && events == old(events) && aux.specfile == ""
      ensures old(aux.state) == Creating || old(aux.state) == Created ==> aux.closed
    {
      tr := CloseBeforeStart(id, aux, before, r);
      ClosedThenForgotten(before.now, id, r, tr.now);
      tr := ForgetProcess(id, aux, tr, r);
    }

    /** A process that was never started has waiters that nobody else will release. */
    method CloseBeforeStart(id: ExecId, aux: ManagedProcess, ghost before: Trace, ghost r: Ref)
      returns (ghost tr: Trace)
      requires Follows(before) && r < |objects| && objects[r] == aux
      requires before.at == if aux.state == Creating || aux.state == Created then Delete(DClose, id, r)
                            else Delete(DSpecfile, id, r)
      modifies aux
      ensures Follows(tr) && Continues(before, tr) && tr.at == Delete(DSpecfile, id, r)
      ensures tr.now == if before.at.dop.DClose? then Apply(before.now, Effect.Close(r, ByDelete)) else before.now
      ensures old(aux.state) == Creating || old(aux.state) == Created ==> aux.closed
    {
      tr := before;
      if aux.state == Creating || aux.state == Created {
        DeleteCloses(tr, id, r);
        tr := Close(aux, ByDelete, r, tr, Fail, Delete(DSpecfile, id, r));
      }
    }

    /** The rest of deleteAux: the spec file, then the map. */
    method ForgetProcess(id: ExecId, aux: ManagedProcess, ghost before: Trace, ghost r: Ref) returns (ghost tr: Trace)
      requires Follows(before) && before.at == Delete(DSpecfile, id, r) && r < |objects| && objects[r] == aux
      modifies this, aux
      ensures Follows(tr) && Continues(before, tr) && tr.at == Done(Finished) && objects == old(objects)
      ensures r < |before.now.procs| && tr.now == Forgotten(before.now, id, r)
      ensures auxiliary == old(auxiliary) - {id} && events == old(events)
      ensures aux.specfile == "" && aux.closed == old(aux.closed)
    {
      tr := DeleteSeesSpecfile(before, id, r);
      if aux.specfile != "" {
        tr := SetSpecfile(aux, "", r, tr, Fail, Delete(DRemove, id, r));
      }
      DeleteRemoves(tr, id, r);
      ghost var s := tr.now;
      tr := Advance(tr, Fail, Unmap(id), Done(Finished));
      DeleteAuxiliary(id, s);
    }

    /** startAux; `launched` is the PID that `runj extension exec` came up with, if it did. */
    method StartAux(id: ExecId, launched: Option<nat>, ghost s: State) returns (ok: bool, ghost tr: Trace)
      requires Valid() && Shows(s) && Room(s) && launched != Some(0)
      modifies this, objects
      ensures MapOk(s) && (ok <==> Startable(s, id) && launched.Some?)
      ensures Follows(tr) && tr.start == s && tr.entry == Start(SGet, id, 0, 0)
      ensures tr.at == Done(if ok then Finished else Failed) && tr.now == AfterStart(s, id, launched)
      ensures auxiliary == old(auxiliary)
      ensures ok <==> id in auxiliary && old(auxiliary[id].state) == Created && launched.Some?
      ensures events == if ok then old(events) + [TaskExecStarted(id, launched.value)] else old(events)
      ensures ok ==> auxiliary[id].state == Running
      ensures ok ==> auxiliary[id].pid == if old(auxiliary[id].pid) == 0 then launched.value else old(auxiliary[id].pid)
      ensures id in auxiliary && old(auxiliary[id].state) == Created && launched.None? ==>
                auxiliary[id].state == Stopped && auxiliary[id].closed
    {
      tr := Begin(s, Start(SGet, id, 0, 0));
      var proc := GetAuxiliary(id);
      if proc == null {
        tr := StartMissing(tr, id);
        return false, tr;
      }
      ghost var r := refs[id];
      if proc.state != Created {
        tr := StartRefused(tr, id, r);
        return false, tr;
      }
      tr := StartPrepares(tr, id, r);
      tr := RecordOutcome(id, proc, launched, tr, r);
      ok := launched.Some?;
    }

    method RecordOutcome(id: ExecId, proc: ManagedProcess, launched: Option<nat>, ghost before: Trace, ghost r: Ref)
      returns (ghost tr: Trace)
      requires Follows(before) && before.at == Start(SRun, id, r, 0) && r < |objects| && objects[r] == proc
      requires Room(before.now) && launched != Some(0)
      modifies this, proc
      ensures Follows(tr) && Continues(before, tr) && tr.at == Done(if launched.Some? then Finished else Failed)
      ensures r < |before.now.procs|
      ensures tr.now
              == if launched.Some? then Launched(before.now, id, r, launched.value) else NotLaunched(before.now, r)
      ensures auxiliary == old(auxiliary)
      ensures events == if launched.Some? then old(events) + [TaskExecStarted(id, launched.value)] else old(events)
      ensures launched.Some? ==>
                proc.state == Running && proc.pid == if old(proc.pid) == 0 then launched.value else old(proc.pid)
      ensures launched.None? ==> proc.state == Stopped && proc.closed
    {
      if launched.Some? {
        tr := RecordStart(id, proc, launched.value, before, r);
      } else {
        tr := RecordFailure(id, proc, before, r);
      }
    }

    /** The command failed: the process is stopped before it ran. */
    method RecordFailure(id: ExecId, proc: ManagedProcess, ghost before: Trace, ghost r: Ref) returns (ghost tr: Trace)
      requires Follows(before) && before.at == Start(SRun, id, r, 0) && r < |objects| && objects[r] == proc
      modifies proc
      ensures Follows(tr) && Continues(before, tr) && tr.at == Done(Failed)
      ensures r < |before.now.procs| && tr.now == NotLaunched(before.now, r)
      ensures proc.state == Stopped && proc.closed
    {
      tr := StartFails(before, id, r);
      tr := SetState(proc, Stopped, r, tr, Fail, Start(SFailClose, id, r, 0));
      ghost var s1 := tr.now;
      StartFailCloses(tr, id, r);
      tr := Close(proc, ByStart, r, tr, Fail, Done(Failed));
      StoppedThenClosed(before.now, r, s1, tr.now);
    }

    /** The process runs: its PID, then its state, and then the event. */
    method RecordStart(id: ExecId, proc: ManagedProcess, pid: nat, ghost before: Trace, ghost r: Ref)
      returns (ghost tr: Trace)
      requires Follows(before) && before.at == Start(SRun, id, r, 0) && r < |objects| && objects[r] == proc
      requires Room(before.now) && pid != 0
      modifies this, proc
      ensures Follows(tr) && Continues(before, tr) && tr.at == Done(Finished)
      ensures r < |before.now.procs| && tr.now == Launched(before.now, id, r, pid)
      ensures auxiliary == old(auxiliary) && events == old(events) + [TaskExecStarted(id, pid)]
      ensures proc.state == Running && proc.pid == if old(proc.pid) == 0 then pid else old(proc.pid)
    {
      tr := StartLaunches(before, id, r, pid);
      ghost var s1 := tr.now;
      tr := SetPID(proc, pid, r, tr, Fail, Start(SConsole, id, r, pid));
      PidRecorded(before.now, r, pid, s1, tr.now);
      tr := RecordRunning(id, proc, pid, before.now, tr, r);
    }

    method RecordRunning(id: ExecId, proc: ManagedProcess, pid: nat, ghost s: State, ghost before: Trace, ghost r: Ref)
      returns (ghost tr: Trace)
      requires Follows(before) && before.at == Start(SConsole, id, r, pid) && r < |objects| && objects[r] == proc
      requires Room(before.now) && r < |s.procs|
      requires before.now
               == WithObject(s, r, s.procs[r].(proc := s.procs[r].proc.WithPid(pid))).(reported := s.reported - {pid})
      modifies this, proc
      ensures Follows(tr) && Continues(before, tr) && tr.at == Done(Finished)
      ensures tr.now == Launched(s, id, r, pid)
      ensures auxiliary == old(auxiliary) && events == old(events) + [TaskExecStarted(id, pid)]
      ensures proc.state == Running && proc.pid == old(proc.pid)
    {
      tr := StartSetsConsole(before, id, r, pid);
      tr := SetState(proc, Running, r, tr, Fail, Start(SSend, id, r, pid));
      ghost var s3 := tr.now;
      StartSends(tr, id, r, pid);
      tr := Send(TaskExecStarted(id, pid), tr, Fail, Done(Finished));
      RunningRecorded(s, id, r, pid, before.now, s3, tr.now);
    }

    /** Exec; `file` is the name of the file that holds the process's specification, if it could be made. */
    method Exec(id: ExecId, ioWorks: bool, file: Option<string>, ghost s: State) returns (ok: bool, ghost tr: Trace)
      requires Valid() && Shows(s) && Room(s) && file != Some("")
      modifies this
      ensures ok <==> id !in old(auxiliary) && ioWorks && file.Some?
      ensures ok ==> id in auxiliary && auxiliary[id].specfile == file.value && auxiliary[id].state == Created
      ensures ok ==> auxiliary[id].pid == 0 && !auxiliary[id].closed && fresh(auxiliary[id])
      ensures events == if ok then old(events) + [TaskExecAdded(id)] else old(events)
      ensures Follows(tr) && tr.start == s && tr.entry == Pc.Exec(ENew, id, 0)
      ensures tr.at == Done(if ok then Finished else Failed) && tr.now == AfterExec(s, id, ioWorks && file.Some?)
    {
      tr := Begin(s, Pc.Exec(ENew, id, 0));
      var aux;
      aux, tr := MakeProcess(id, tr);
      if aux == null { return false, tr; }
      ghost var r := refs[id];
      tr := ExecPrepares(tr, id, r, ioWorks, file.Some?);
      if !ioWorks || file.None? { return false, tr; }
      tr := AddProcess(id, aux, file.value, tr, r);
      ok := true;
    }

    /** An exec id that is in use is refused; otherwise there is a created process. */
    method MakeProcess(id: ExecId, ghost before: Trace) returns (aux: ManagedProcess?, ghost tr: Trace)
      requires Follows(before) && before.at == Pc.Exec(ENew, id, 0)
      modifies this
      ensures aux == null <==> id in old(auxiliary)
      ensures Follows(tr) && Continues(before, tr)
      ensures if aux == null then tr.now == before.now && tr.at == Done(Failed)
              else
                && fresh(aux) && id in auxiliary && auxiliary[id] == aux && refs[id] == |before.now.procs|
                && tr.now == ShimAlone.Made(before.now, id) && tr.at == Pc.Exec(EIO, id, refs[id])
    {
      tr := ExecBegins(before, id);
      aux := NewAuxiliary(id, before.now);
      if aux == null { return; }
      ghost var s1 := tr.now;
      tr := ExecSetsSpec(tr, id, refs[id]);
      tr := SetState(aux, Created, refs[id], tr, Fail, Pc.Exec(EIO, id, refs[id]));
      ProcessMade(before.now, id, s1, tr.now);
    }

    method AddProcess(id: ExecId, aux: ManagedProcess, file: string, ghost before: Trace, ghost r: Ref)
      returns (ghost tr: Trace)
      requires Follows(before) && before.at == Pc.Exec(ESpecfile, id, r) && r < |objects| && objects[r] == aux
      requires Does(before, Fail, Set(r, before.now.procs[r].proc.WithSpecfile(true)), Pc.Exec(ESend, id, r))
      requires Room(before.now) && file != ""
      modifies this, aux
      ensures Follows(tr) && Continues(before, tr) && tr.at == Done(Finished) && aux.specfile == file
      ensures auxiliary == old(auxiliary)
      ensures tr.now == Added(before.now, id, r)
    {
      tr := SetSpecfile(aux, file, r, before, Fail, Pc.Exec(ESend, id, r));
      ghost var s1 := tr.now;
      ExecSends(tr, id, r);
      tr := Send(TaskExecAdded(id), tr, Fail, Done(Finished));
      ProcessAdded(before.now, id, r, s1, tr.now);
    }

    /** The primary process wins; otherwise some auxiliary process with that PID,
        under its own exec id; nothing exactly when nobody records the PID. */
    method FindProcess(e: Exit, ghost s: State)
      returns (proc: ManagedProcess?, id: ExecId, ghost r: Ref, ghost tr: Trace)
      requires Valid() && Shows(s)
      ensures proc == primary <==> primary.pid == e.pid
      ensures proc == primary ==> id == "" && r == PRIMARY
      ensures proc != null && proc != primary ==> id in auxiliary && auxiliary[id] == proc && r == refs[id]
      ensures proc != null ==> proc.pid == e.pid
      ensures proc == null <==> primary.pid != e.pid && forall x | x in auxiliary :: auxiliary[x].pid != e.pid
      ensures tr.Ok() && tr.start == tr.now == s && tr.entry == Reap(RPrimary, e, {}, "", PRIMARY)
      ensures tr.at == if proc == null then IDLE
                       else Found(e, id, r)
    {
      tr := Begin(s, Reap(RPrimary, e, {}, "", PRIMARY));
      tr := ReapLooksAtPrimary(tr, e);
      if e.pid == primary.pid { return primary, "", PRIMARY, tr; }
      proc, id, r, tr := FindAuxiliary(e, s, tr);
    }

    method FindAuxiliary(e: Exit, ghost s: State, ghost before: Trace)
      returns (proc: ManagedProcess?, id: ExecId, ghost r: Ref, ghost tr: Trace)
      requires Valid() && Shows(s) && before.Ok() && before.now == s
      requires before.at == Reap(RScan, e, auxiliary.Keys, "", PRIMARY)
      ensures proc != null ==> id in auxiliary && auxiliary[id] == proc && proc.pid == e.pid && r == refs[id]
      ensures proc == null <==> forall x | x in auxiliary :: auxiliary[x].pid != e.pid
      ensures Moves(before, tr, if proc == null then IDLE else Found(e, id, r))
    {
      tr := before;
      var todo := auxiliary.Keys;
      while todo != {}
        invariant todo <= auxiliary.Keys
        invariant forall x | x in auxiliary.Keys - todo :: auxiliary[x].pid != e.pid
        invariant Moves(before, tr, Reap(RScan, e, todo, "", PRIMARY))
        decreases |todo|
      {
        var x :| x in todo;
        tr := ReapProbes(tr, e, todo, x, refs[x]);
        if auxiliary[x].pid == e.pid { return auxiliary[x], x, refs[x], tr; }
        todo := todo - {x};
      }
      tr := ReapGivesUp(tr, e);
      return null, "", PRIMARY, tr;
    }

    /** checkProcesses: an exit of a process nobody knows is dropped; otherwise the exit is
        recorded, then its event sent, and then the waiters are released. */
    method CheckProcesses(e: Exit, ghost s: State)
      returns (proc: ManagedProcess?, id: ExecId, ghost r: Ref, ghost tr: Trace)
      requires Valid() && Shows(s) && Room(s)
      modifies this, objects
      ensures Follows(tr) && tr.start == s && tr.entry == Reap(RPrimary, e, {}, "", PRIMARY)
      ensures tr.at == IDLE && 0 < |s.procs| && MapOk(s)
      ensures if proc == null then Unknown(s, e.pid) && tr.now == s
              else RecordsIt(s, e.pid, id, r) && tr.now == Exited(s, id, r, e)
      ensures proc == null ==> events == old(events)
      ensures proc != null ==>
                && proc.state == Stopped && proc.exit == e && proc.closed
                && events == old(events) + [TaskExit(id, e)]
    {
      proc, id, r, tr := FindProcess(e, s);
      if proc == null { return; }
      if id == "" {
        // the end of the primary process kills all others; a failure is logged only
        tr := ReapKills(tr, e, id, r);
      }
      tr := RecordExit(proc, id, e, tr, r);
    }

    method RecordExit(proc: ManagedProcess, id: ExecId, e: Exit, ghost before: Trace, ghost r: Ref)
      returns (ghost tr: Trace)
      requires Follows(before) && before.at == Reap(RSetState, e, {}, id, r) && r < |objects| && objects[r] == proc
      requires Room(before.now)
      modifies this, proc
      ensures Follows(tr) && Continues(before, tr) && tr.at == IDLE && objects == old(objects)
      ensures r < |before.now.procs| && tr.now == Exited(before.now, id, r, e)
    {
      ReapSetsState(before, e, id, r);
      tr := SetState(proc, Stopped, r, before, Fail, Reap(RSetExited, e, {}, id, r));
      ghost var s1 := tr.now;
      ReapSetsExited(tr, e, id, r);
      tr := SetExited(proc, e, r, tr, Fail, Reap(RSend, e, {}, id, r));
      StoppedWithExit(before.now, id, r, e, s1, tr.now);
      tr := AnnounceExit(proc, id, e, before.now, tr, r);
    }

    method AnnounceExit(proc: ManagedProcess, id: ExecId, e: Exit, ghost s: State, ghost before: Trace, ghost r: Ref)
      returns (ghost tr: Trace)
      requires Follows(before) && before.at == Reap(RSend, e, {}, id, r) && r < |objects| && objects[r] == proc
      requires Room(before.now) && r < |s.procs|
      requires before.now == WithObject(s, r, s.procs[r].(proc := s.procs[r].proc.WithState(Stopped).WithExited(e)))
      modifies this, proc
      ensures Follows(tr) && Continues(before, tr) && tr.at == IDLE && objects == old(objects)
      ensures tr.now == Exited(s, id, r, e)
    {
      ReapSends(before, e, id, r);
      tr := Send(TaskExit(id, e), before, Fail, Reap(RStdio, e, {}, id, r));
      ghost var s3 := tr.now;
      tr := ReapCloses(tr, e, id, r);
      tr := Close(proc, ByExit, r, tr, Fail, IDLE);
      ExitAnnounced(s, id, r, e, before.now, s3, tr.now);
    }

    // ----- the primary process -----

    /** startPrimary: `runj state` answers a PID or fails; `runj start`, the number-th to open the
        fifo if it does, works or fails.  The answer is the PID in the response. */
    method StartPrimary(pid: Option<nat>, ghost opens: bool, works: bool, number: nat, ghost s: State)
      returns (answer: Option<nat>, ghost tr: Trace)
      requires Valid() && Shows(s) && Room(s) && number == s.releases && (works ==> opens)
      modifies this
      ensures answer == if works then pid else None
      ensures events == if answer.Some? then old(events) + [TaskStart(answer.value, number)] else old(events)
      ensures Follows(tr) && tr.start == s && tr.entry == Init(IState, 0, 0)
      ensures tr.at == Done(if answer.Some? then Finished else Failed) && tr.now == AfterInit(s, pid, opens, works)
    {
      tr := Begin(s, Init(IState, 0, 0));
      if pid.None? || !works {
        tr := InitGivesUp(tr, pid, opens);
        return None, tr;
      }
      tr := InitGetsThrough(tr, pid.value);
      tr := Send(TaskStart(pid.value, number), tr, Fail, Done(Finished));
      answer := pid;
    }

    /** Create: `runj create` works or fails, and then `runj state` answers a PID or fails. */
    method CreateTask(works: bool, pid: Option<nat>, ghost s: State) returns (answer: Option<nat>, ghost tr: Trace)
      requires Valid() && Shows(s) && Room(s)
      modifies this, primary
      ensures answer == if works then pid else None
      ensures events == if answer.Some? then old(events) + [TaskCreate(answer.value)] else old(events)
      ensures primary.pid == if answer.Some? && old(primary.pid) == 0 then answer.value else old(primary.pid)
      ensures Follows(tr) && tr.start == s && tr.entry == Create(CBundle, 0) && 0 < |s.procs|
      ensures tr.at == Done(if answer.Some? then Finished else Failed) && tr.now == AfterCreate(s, answer)
    {
      tr := Begin(s, Create(CBundle, 0));
      if !works {
        tr := CreateRefused(tr);
        return None, tr;
      }
      tr := CreateRuns(tr);
      tr := CreateAsks(tr, pid);
      if pid.None? { return None, tr; }
      tr := SetPID(primary, pid.value, PRIMARY, tr, Fail, Create(CSend, pid.value));
      ghost var s1 := tr.now;
      CreateSends(tr, pid.value);
      tr := Send(TaskCreate(pid.value), tr, Fail, Done(Finished));
      PidAnnounced(s, pid.value, s1, tr.now);
      answer := pid;
    }

    /** Wait: refused where there is no such process; without an exit it is still waiting. */
    method WaitFor(id: ExecId, ghost s: State) returns (found: bool, exit: Option<Exit>, ghost tr: Trace)
      requires Valid() && Shows(s)
      ensures found <==> id == "" || id in auxiliary
      ensures found ==> exit == if ProcessOf(id).closed then Some(ProcessOf(id).exit) else None
      ensures !found ==> exit == None
      ensures Follows(tr) && tr.start == tr.now == s && tr.entry == WaitEntry(id)
      ensures tr.at == if !found then Done(Failed)
                       else if exit.Some? then Done(Waited(RefOf(id), exit.value)) else Wait(WBlock, id, RefOf(id))
    {
      tr := Begin(s, WaitEntry(id));
      var proc: ManagedProcess? := primary;
      if id != "" {
        proc := GetAuxiliary(id);
        if proc == null {
          tr := WaitMissing(tr, id);
          return false, None, tr;
        }
        tr := WaitFinds(tr, id, refs[id]);
      }
      if !proc.closed { return true, None, tr; }
      tr := WaitReturns(tr, id, RefOf(id));
      return true, Some(proc.exit), tr;
    }

    function ProcessOf(id: ExecId): (proc: ManagedProcess)
      requires id == "" || id in auxiliary
      reads this
    {
      if id == "" then primary else auxiliary[id]
    }

    ghost function RefOf(id: ExecId): Ref
      requires Valid() && (id == "" || id in auxiliary)
      reads this
    {
      if id == "" then PRIMARY else refs[id]
    }
  }
}
