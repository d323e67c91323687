/** `runj create` and `runj delete` as they run on a host.  Every command and
    kernel call may fail: `works(n)` decides the n-th acquiring call,
    `undoWorks(n)` the n-th undo call, and the theorems hold for all of them. */
module Host {
  import opened Wrappers
  import opened RunjState
  import opened Mounts
  import opened Transaction
  import opened HostCalls
  import opened HostWorlds

  predicate InRange(w: World, nextJid: nat, nextPid: nat) {
    && HOST < nextJid
    && (forall i | i in w.ifaces :: w.ifaces[i] < nextJid)
    && (forall p | p in w.procs :: p < nextPid)
  }

  class Machine {
    var w: World
    var nextJid: nat
    var nextPid: nat
    var calls: nat
    var undoCalls: nat
    const works: nat -> bool
    const undoWorks: nat -> bool

    ghost predicate Valid()
      reads this
    {
      InRange(w, nextJid, nextPid)
    }

    ghost predicate UndoReliable() { AllUndone(undoWorks) }

    constructor (w: World, nextJid: nat, nextPid: nat, works: nat -> bool, undoWorks: nat -> bool)
      requires InRange(w, nextJid, nextPid)
      ensures Valid() && this.w == w && this.works == works && this.undoWorks == undoWorks && calls == 0
      ensures undoCalls == 0
      ensures this.nextJid == nextJid && this.nextPid == nextPid
    {
      this.w, this.nextJid, this.nextPid := w, nextJid, nextPid;
      this.works, this.undoWorks := works, undoWorks;
      calls, undoCalls := 0, 0;
    }

    method Attempt() returns (ok: bool)
      modifies this`calls
      ensures ok == works(old(calls)) && calls == old(calls) + 1
    {
      ok := works(calls);
      calls := calls + 1;
    }

    /** The hooks of one kind, up to the first that fails. */
    method RunHooks(n: nat) returns (failed: Option<nat>)
      modifies this`calls
      ensures failed == HookOutcome(n, 0, works, old(calls))
      ensures failed.None? ==> calls == old(calls) + n
      ensures failed.Some? ==> failed.value < n && calls == old(calls) + failed.value + 1
      ensures AllWork(works, old(calls), if failed.Some? then calls - 1 else calls)
      ensures failed.Some? ==> !works(calls - 1)
    {
      for h := 0 to n
        modifies this`calls
        invariant AllWork(works, old(calls), calls)
        invariant calls == old(calls) + h && HookOutcome(n, h, works, calls) == HookOutcome(n, 0, works, old(calls))
      {
        var ok := Attempt();
        if !ok { return Some(h); }
      }
      return None;
    }

    // ----- jail/mount.go -----

    method Unmount(targets: seq<Dir>) returns (err: Option<nat>)
      requires Valid()
      modifies this`w, this`undoCalls
      ensures Valid()
      ensures w == old(w).(mounts := w.mounts)
      ensures undoCalls == old(undoCalls) + |targets|
      ensures (w.mounts, err) == UnmountAll(old(w.mounts), targets, undoWorks, old(undoCalls))
    {
      err := None;
      var i := |targets|;
      assert targets[..i] == targets;
      while 0 < i
        invariant 0 <= i <= |targets| && Valid()
        invariant w == old(w).(mounts := w.mounts) && undoCalls == old(undoCalls) + |targets| - i
        invariant Rest(w.mounts, err, targets[..i], undoWorks, undoCalls)
                  == UnmountAll(old(w.mounts), targets, undoWorks, old(undoCalls))
      {
        i := i - 1;
        RestNext(w.mounts, err, targets, i, undoWorks, undoCalls);
        var now := Attempted(w.mounts, targets[i], undoWorks(undoCalls));
        undoCalls := undoCalls + 1;
        if now.Some? {
          w := w.(mounts := now.value);
        } else if err.None? {
          err := Some(i);
        }
      }
    }

    method MountOne(m: OciMount, e: Entry) returns (step: Step)
      requires Valid()
      modifies this`calls, this`w
      ensures Valid() && w == if step.Done? then old(w).(mounts := old(w).mounts + [e]) else old(w)
      ensures step == StepOutcome(m, works, old(calls))
      ensures step.Done? ==> calls == old(calls) + StepCalls(m)
    {
      if m.fstype == "nullfs" {
        var stat := Attempt();
        if !stat { return NotPrepared; }
        var prepared := Attempt();
        if !prepared { return NotPrepared; }
      }
      var ok := Attempt();
      if !ok { return Refused; }
      w := w.(mounts := w.mounts + [e]);
      return Done;
    }

    /** One mount behind the first i; when it is refused, those are unmounted again. */
    method MountNext(m: OciMount, e: Entry, unwind: seq<Dir>, ghost es: seq<Entry>, ghost i: nat, ghost table: Table)
      returns (step: Step)
      requires Valid() && i < |es| && es[i] == e && w.mounts == table + es[..i] && unwind == Places(es[..i])
      modifies this`calls, this`w, this`undoCalls
      ensures Valid() && step == StepOutcome(m, works, old(calls))
      ensures step.Done? ==> w == old(w).(mounts := table + es[..i + 1]) && calls == old(calls) + StepCalls(m)
      ensures step.NotPrepared? ==>
                w == old(w).(mounts := MountsLeft(table, es, PrepareFailed(i), undoWorks, old(undoCalls)))
      ensures step.Refused? ==>
                w == old(w).(mounts := MountsLeft(table, es, CallFailed(i), undoWorks, old(undoCalls)))
      ensures undoCalls == old(undoCalls) + if step.Refused? then i else 0
      ensures unwind + [e.at] == Places(es[..i + 1])
    {
      step := MountOne(m, e);
      OneMore(table, es, i);
      LeftAt(table, es, i, undoWorks, undoCalls);
      if step.Refused? { var _ := Unmount(unwind); }
    }

    /** A mount that fails unwinds the ones before it; a nullfs mount whose
        preparation fails leaves them in place, because that error is shadowed. */
    method Mount(cwd: Dir, root: Path, ms: seq<OciMount>) returns (r: MountResult)
      requires Valid()
      modifies this`w, this`undoCalls, this`calls
      ensures Valid()
      ensures r == MountOutcome(ms, 0, works, old(calls))
      ensures w == old(w).(mounts := MountsLeft(old(w.mounts), EntriesOf(cwd, root, ms), r, undoWorks, old(undoCalls)))
      ensures r.Mounted? ==> calls == old(calls) + MountCalls(ms, 0)
      ensures undoCalls == old(undoCalls) + if r.CallFailed? then r.i else 0
    {
      ghost var es := EntriesOf(cwd, root, ms);
      var unwind: seq<Dir> := [];
      var i := 0;
      while i < |ms|
        invariant 0 <= i <= |ms| && Valid()
        invariant w == old(w).(mounts := old(w.mounts) + es[..i])
        invariant unwind == Places(es[..i]) && undoCalls == old(undoCalls)
        invariant MountOutcome(ms, i, works, calls) == MountOutcome(ms, 0, works, old(calls))
        invariant calls + MountCalls(ms, i) == old(calls) + MountCalls(ms, 0)
      {
        var e := EntryOf(cwd, root, ms[i]);
        var step := MountNext(ms[i], e, unwind, es, i, old(w.mounts));
        if step.NotPrepared? { return PrepareFailed(i); }
        if step.Refused? { return CallFailed(i); }
        unwind := unwind + [e.at];
        i := i + 1;
      }
      LeftAt(old(w.mounts), es, i, undoWorks, undoCalls);
      return Mounted;
    }

    // ----- jail/vnet.go -----

    /** Moves the interfaces into the jail; a failure leaves those before it inside. */
    method MoveIn(ifaces: seq<string>, jid: nat) returns (failed: Option<nat>)
      requires Valid() && HOST < jid < nextJid
      requires forall i | i in w.ifaces :: w.ifaces[i] != jid
      modifies this`w, this`calls
      ensures Valid() && w == old(w).(ifaces := w.ifaces)
      ensures failed == InterfaceOutcome(old(w.ifaces), ifaces, 0, works, old(calls))
      ensures failed.GetOr(|ifaces|) <= |ifaces|
      ensures MovedIn(old(w.ifaces), ifaces[..failed.GetOr(|ifaces|)], jid, w.ifaces)
      ensures failed.None? ==> calls == old(calls) + |ifaces|
    {
      var i := 0;
      assert ifaces[..0] == [];
      while i < |ifaces|
        invariant 0 <= i <= |ifaces| && Valid()
        invariant w == old(w).(ifaces := w.ifaces)
        invariant MovedIn(old(w.ifaces), ifaces[..i], jid, w.ifaces)
        invariant calls == old(calls) + i
        invariant InterfaceOutcome(old(w.ifaces), ifaces, i, works, calls)
                  == InterfaceOutcome(old(w.ifaces), ifaces, 0, works, old(calls))
      {
        var iface := ifaces[i];
        var ok := Attempt();
        MovesNext(old(w.ifaces), ifaces, i, jid, w.ifaces);
        // ifconfig finds only what the host still owns
        if !ok || iface !in w.ifaces || w.ifaces[iface] != HOST { return Some(i); }
        w := w.(ifaces := w.ifaces[iface := jid]);
        i := i + 1;
      }
      assert ifaces[..i] == ifaces;
      return None;
    }

    /** `ifconfig -vnet` for each interface until one fails. */
    method MoveBack(ifaces: seq<string>, jid: nat)
      requires Valid()
      modifies this`w, this`undoCalls
      ensures Valid() && w == old(w).(ifaces := w.ifaces)
      ensures (w, undoCalls) == TryMoveOut(old(w), ifaces, jid, undoWorks, old(undoCalls))
    {
      var i := 0;
      assert ifaces[0..] == ifaces;
      while i < |ifaces|
        invariant 0 <= i <= |ifaces| && Valid()
        invariant w == old(w).(ifaces := w.ifaces)
        invariant TryMoveOut(w, ifaces[i..], jid, undoWorks, undoCalls)
                  == TryMoveOut(old(w), ifaces, jid, undoWorks, old(undoCalls))
      {
        var ok := undoWorks(undoCalls);
        undoCalls := undoCalls + 1;
        if !ok || ifaces[i] !in w.ifaces || w.ifaces[ifaces[i]] != jid { return; }
        w := w.(ifaces := w.ifaces[ifaces[i] := HOST]);
        assert ifaces[i..][1..] == ifaces[i + 1..];
        i := i + 1;
      }
    }

    // ----- cmd/runj/create.go -----

    /** state.Create: the directory, the exclusive file, and its first content. */
    method ClaimState(id: string, bundleName: string) returns (failed: Option<Site>)
      requires Valid()
      modifies this`w, this`calls
      ensures Valid()
      ensures failed == ClaimOutcome(old(w), id, works, old(calls))
      ensures w == match failed
                   case None => WithRecord(old(w), id, Some(CreatingRecord(id, bundleName)))
                   case Some(StateUnsaved) => WithRecord(old(w), id, None)
                   case _ => old(w)
      ensures failed.None? ==> calls == old(calls) + 2
    {
      var ok := Attempt(); // MkdirAll and OpenFile with O_EXCL
      if !ok || id in w.state { return Some(StateTaken); }
      w := w.(state := w.state[id := None]);
      ok := Attempt();
      if !ok { return Some(StateUnsaved); }
      w := w.(state := w.state[id := Some(Record(id, 0, Creating, bundleName, 0, ""))]);
      return None;
    }

    /** The configuration and the jail itself. */
    method MakeJail(id: string, cfg: Config, socket: ConsoleSocket) returns (failed: Option<Site>, jid: nat)
      requires Valid()
      modifies this`w, this`calls, this`nextJid
      ensures Valid() && jid == old(nextJid)
      ensures failed == JailOutcome(old(w), id, cfg, socket, works, old(calls))
      ensures w == if failed.None? then WithJail(old(w), old(w.mounts), old(w.ifaces), id, jid) else old(w)
      ensures failed.None? ==> jid < nextJid && calls == old(calls) + 2
    {
      jid := nextJid;
      var ok := Attempt(); // StoreConfig and LoadConfig
      if !ok || !ConfigOk(cfg, socket) { return Some(BadConfig), jid; }
      ok := Attempt();
      if !ok || id in w.jails { return Some(JailSet), jid; }
      nextJid := nextJid + 1;
      w := w.(jails := w.jails[id := jid]);
      return None, jid;
    }

    /** create's mounts, with the jail there; the undo actions lead back to the world
        before, except for mounts a nullfs preparation leaves. */
    method AcquireMounts(id: string, jid: nat, ghost pid: nat, cwd: Dir, root: Path, ms: seq<OciMount>,
                         ghost vnet: seq<string>, ghost w0: World)
      returns (failed: Option<Site>, undos: seq<Undo>)
      requires Valid() && w == WithJail(w0, w0.mounts, w0.ifaces, id, jid)
      requires id !in w0.jails && forall i | i in w0.ifaces :: w0.ifaces[i] != jid
      modifies this`w, this`calls, this`undoCalls
      ensures Valid()
      ensures failed == MountSite(MountOutcome(ms, 0, works, old(calls)))
      ensures var es := EntriesOf(cwd, root, ms);
              if failed.None? then
                && w == WithJail(w0, w0.mounts + es, w0.ifaces, id, jid)
                && undos == JailUndos(id, jid, es)
                && calls == old(calls) + MountCalls(ms, 0) && undoCalls == old(undoCalls)
              else
                UndoReliable() ==> RolledBack(w, undos) == Undisturbed(w0, id, es, failed.value)
      ensures StopsAt(w0, id, jid, pid, EntriesOf(cwd, root, ms), vnet, failed, w, undos, undoWorks,
                      old(undoCalls), undoCalls)
    {
      var es := EntriesOf(cwd, root, ms);
      undos := [RemoveState(id)] + [RemoveJail(id, jid)];
      StopsWithin(ms, 0, works, calls);
      ghost var u := undoCalls;
      var m := Mount(cwd, root, ms);
      if m.Mounted? { return None, undos + [UnmountTargets(Places(es))]; }
      RollbackFailedMounts(w0, es, m, undoWorks, u, id, jid);
      MountingStops(w0, id, jid, pid, es, vnet, m, undoWorks, u);
      failed := MountSite(m);
    }

    /** create up to the jail with its mounts. */
    method AcquireJail(id: string, ghost pid: nat, cwd: Dir, root: Path, cfg: Config, socket: ConsoleSocket)
      returns (failed: Option<Site>, undos: seq<Undo>, jid: nat)
      requires Valid()
      modifies this`w, this`calls, this`undoCalls, this`nextJid
      ensures Valid() && jid == old(nextJid)
      ensures failed == JailedOutcome(old(w), id, cfg, socket, works, old(calls))
      ensures var es := EntriesOf(cwd, root, cfg.mounts);
              if failed.None? then
                && id !in old(w).jails && jid < nextJid
                && w == WithJail(old(w), old(w.mounts) + es, old(w.ifaces), id, jid)
                && undos == JailUndos(id, jid, es)
                && calls == old(calls) + 2 + MountCalls(cfg.mounts, 0) && undoCalls == old(undoCalls)
              else
                Ends(old(w), id, jid, es, cfg.vnet, pid, failed, w, RolledBack(w, undos), UndoReliable())
      ensures StopsAt(old(w), id, jid, pid, EntriesOf(cwd, root, cfg.mounts), cfg.vnet, failed, w, undos, undoWorks,
                      old(undoCalls), undoCalls)
    {
      ghost var w0 := w;
      failed, jid := MakeJail(id, cfg, socket);
      if failed.Some? {
        undos := [RemoveState(id)];
        RollbackState(w, id);
        JailStops(w, id, jid, pid, EntriesOf(cwd, root, cfg.mounts), cfg.vnet, failed.value, undoWorks, undoCalls);
        return;
      }
      failed, undos := AcquireMounts(id, jid, pid, cwd, root, cfg.mounts, cfg.vnet, w0);
    }

    /** create's interfaces; those moved before a failure come back with the jail. */
    method AcquireInterfaces(id: string, jid: nat, ghost pid: nat, es: seq<Entry>, vnet: seq<string>, ghost w0: World)
      returns (failed: Option<Site>, undos: seq<Undo>)
      requires Valid()
      requires id !in w0.jails && HOST < jid < nextJid && forall i | i in w0.ifaces :: w0.ifaces[i] != jid
      requires w == WithJail(w0, w0.mounts + es, w0.ifaces, id, jid)
      modifies this`w, this`calls
      ensures Valid() && RolledBack(w, undos) == WithoutState(w0, id)
      ensures failed == InterfaceSite(InterfaceOutcome(w0.ifaces, vnet, 0, works, old(calls)))
      ensures failed.None? ==>
                && w == WithJail(w0, w0.mounts + es, Owned(w0.ifaces, vnet, jid), id, jid)
                && MovedIn(w0.ifaces, vnet, jid, w.ifaces)
                && calls == old(calls) + |vnet|
                && undos == JailUndos(id, jid, es) + [MoveOut(vnet, jid)]
      ensures StopsAt(w0, id, jid, pid, es, vnet, failed, w, undos, undoWorks, undoCalls, undoCalls)
    {
      undos := JailUndos(id, jid, es);
      var v := MoveIn(vnet, jid);
      RollbackMounts(w0, es, w.ifaces, id, jid);
      if v.Some? {
        MovingStops(w0, id, jid, pid, es, vnet, v.value, w, undoWorks, undoCalls);
        return Some(InterfaceMove(v.value)), undos;
      }
      assert vnet[..|vnet|] == vnet;
      assert w.ifaces == Owned(w0.ifaces, vnet, jid);
      RollbackInterfaces(w0, es, vnet, w, undos, id, jid);
      return None, undos + [MoveOut(vnet, jid)];
    }

    /** create's entrypoint process, pid file and hooks. */
    method StartEntrypoint(before: seq<Undo>, cfg: Config, pidFile: bool)
      returns (failed: Option<Site>, undos: seq<Undo>, pid: nat)
      requires Valid()
      modifies this`w, this`calls, this`nextPid
      ensures Valid() && pid == old(nextPid) && RolledBack(w, undos) == RolledBack(old(w), before)
      ensures failed == EntrypointOutcome(cfg, pidFile, works, old(calls))
      ensures failed.None? ==>
                && w == old(w).(procs := old(w).procs + {pid}) && pid !in old(w).procs
                && calls == old(calls) + EntrypointCalls(cfg, pidFile)
      ensures pid !in old(w).procs
      ensures failed.Some? ==>
                && Registered(failed.value) >= 4
                && w == (if failed.value.Entrypoint? then old(w) else old(w).(procs := old(w).procs + {pid}))
                && undos == if failed.value.Entrypoint? then before else before + [KillEntrypoint(pid)]
    {
      pid, undos := nextPid, before;
      var ok := Attempt(); // SetupEntrypoint: fifo, console socket, process
      if !ok { return Some(Entrypoint), undos, pid; }
      nextPid := nextPid + 1;
      RollbackEntrypoint(w, before, pid);
      w := w.(procs := w.procs + {pid});
      undos := undos + [KillEntrypoint(pid)];
      failed := WritePidAndRunHooks(cfg, pidFile);
    }

    method WritePidAndRunHooks(cfg: Config, pidFile: bool) returns (failed: Option<Site>)
      modifies this`calls
      ensures failed == FinishOutcome(cfg, pidFile, works, old(calls))
      ensures failed.None? ==> calls == old(calls) + EntrypointCalls(cfg, pidFile) - 1
    {
      if pidFile {
        var ok := Attempt();
        if !ok { return Some(PidFile); }
      }
      var hook := RunHooks(cfg.createHooks);
      return if hook.None? then None else Some(Hook(hook.value));
    }

    /** The deferred actions of a failed create, last registered first. */
    method RunDeferred(undos: seq<Undo>)
      requires Valid()
      modifies this`w, this`undoCalls
      ensures Valid()
      ensures (w, undoCalls) == TryRollBack(old(w), undos, undoWorks, old(undoCalls))
    {
      var i := |undos|;
      assert undos[..i] == undos;
      while 0 < i
        invariant 0 <= i <= |undos| && Valid()
        invariant TryRollBack(w, undos[..i], undoWorks, undoCalls)
                  == TryRollBack(old(w), undos, undoWorks, old(undoCalls))
      {
        i := i - 1;
        assert undos[..i + 1][..i] == undos[..i];
        RunUndo(undos[i]);
      }
    }

    method RunUndo(u: Undo)
      requires Valid()
      modifies this`w, this`undoCalls
      ensures Valid()
      ensures (w, undoCalls) == TryUndo(old(w), u, undoWorks, old(undoCalls))
    {
      match u
      case UnmountTargets(ts) => var _ := Unmount(ts);
      case MoveOut(ifaces, jid) => MoveBack(ifaces, jid);
      case _ =>
        var ok := undoWorks(undoCalls);
        undoCalls := undoCalls + 1;
        if ok { w := Undone(w, u); }
    }

    /** Everything between the first deferred action and the final Save, not undone yet. */
    method Acquire(id: string, cwd: Dir, root: Path, cfg: Config, socket: ConsoleSocket, pidFile: bool)
      returns (failed: Option<Site>, undos: seq<Undo>, jid: nat, pid: nat)
      requires Valid()
      modifies this`w, this`calls, this`undoCalls, this`nextJid, this`nextPid
      ensures Valid() && jid == old(nextJid) && pid == old(nextPid)
      ensures failed == AcquireOutcome(old(w), id, cfg, socket, pidFile, works, old(calls))
      ensures Ends(old(w), id, jid, EntriesOf(cwd, root, cfg.mounts), cfg.vnet, pid, failed,
                   w, RolledBack(w, undos), UndoReliable())
      ensures failed.None? ==> calls == old(calls) + AcquireCalls(cfg, pidFile)
      ensures StopsAt(old(w), id, jid, pid, EntriesOf(cwd, root, cfg.mounts), cfg.vnet, failed, w, undos, undoWorks,
                      old(undoCalls), undoCalls)
    {
      ghost var w0 := w;
      var es := EntriesOf(cwd, root, cfg.mounts);
      pid := nextPid;
      ghost var k := calls;
      failed, undos, jid := AcquireJail(id, pid, cwd, root, cfg, socket);
      AcquireStages(w0, id, cfg, socket, pidFile, works, k, failed);
      if failed.Some? { return; }
      failed, undos, pid := AcquireRest(id, jid, es, cfg, pidFile, w0);
    }

    method StartContainer(id: string, jid: nat, es: seq<Entry>, cfg: Config, pidFile: bool, before: seq<Undo>,
                          ghost w0: World)
      returns (failed: Option<Site>, undos: seq<Undo>, pid: nat)
      requires Valid() && before == JailUndos(id, jid, es) + [MoveOut(cfg.vnet, jid)]
      requires id !in w0.jails && Movable(w0.ifaces, cfg.vnet)
      requires w == WithJail(w0, w0.mounts + es, Owned(w0.ifaces, cfg.vnet, jid), id, jid)
      modifies this`w, this`calls, this`nextPid
      ensures Valid() && pid == old(nextPid) && RolledBack(w, undos) == RolledBack(old(w), before)
      ensures failed == EntrypointOutcome(cfg, pidFile, works, old(calls))
      ensures failed.None? ==>
                && w == old(w).(procs := old(w).procs + {pid})
                && calls == old(calls) + EntrypointCalls(cfg, pidFile)
      ensures StopsAt(w0, id, jid, pid, es, cfg.vnet, failed, w, undos, undoWorks, undoCalls, undoCalls)
    {
      failed, undos, pid := StartEntrypoint(before, cfg, pidFile);
      if failed.Some? {
        RunningStops(w0, id, jid, pid, es, cfg.vnet, failed.value, w, undoWorks, undoCalls);
      }
    }

    /** Interfaces, the entrypoint process, the pid file and the hooks. */
    method AcquireRest(id: string, jid: nat, es: seq<Entry>, cfg: Config, pidFile: bool, ghost w0: World)
      returns (failed: Option<Site>, undos: seq<Undo>, pid: nat)
      requires Valid()
      requires id !in w0.jails && HOST < jid < nextJid && forall i | i in w0.ifaces :: w0.ifaces[i] != jid
      requires w == WithJail(w0, w0.mounts + es, w0.ifaces, id, jid)
      modifies this`w, this`calls, this`nextPid
      ensures Valid() && pid == old(nextPid)
      ensures failed == RestOutcome(w0.ifaces, cfg, pidFile, works, old(calls))
      ensures Ends(w0, id, jid, es, cfg.vnet, pid, failed, w, RolledBack(w, undos), UndoReliable())
      ensures failed.None? ==> calls == old(calls) + |cfg.vnet| + EntrypointCalls(cfg, pidFile)
      ensures StopsAt(w0, id, jid, pid, es, cfg.vnet, failed, w, undos, undoWorks, undoCalls, undoCalls)
    {
      ghost var k := calls;
      pid := nextPid;
      failed, undos := AcquireInterfaces(id, jid, pid, es, cfg.vnet, w0);
      if failed.None? {
        AllAcquired(w0, id, jid, es, cfg.vnet, pid);
        failed, undos, pid := StartContainer(id, jid, es, cfg, pidFile, undos, w0);
      }
      RestStages(w0.ifaces, cfg, pidFile, works, k, failed);
      RestEnds(w0, id, jid, es, cfg, pid, failed, w, RolledBack(w, undos), UndoReliable(), pidFile, works, k);
    }

    /** A failure runs the deferred actions. */
    method AcquireOrUndo(id: string, cwd: Dir, root: Path, cfg: Config, socket: ConsoleSocket, pidFile: bool)
      returns (failed: Option<Site>, jid: nat, pid: nat)
      requires Valid()
      modifies this`w, this`calls, this`undoCalls, this`nextJid, this`nextPid
      ensures Valid() && jid == old(nextJid) && pid == old(nextPid)
      ensures failed == AcquireOutcome(old(w), id, cfg, socket, pidFile, works, old(calls))
      ensures Ends(old(w), id, jid, EntriesOf(cwd, root, cfg.mounts), cfg.vnet, pid, failed, w, w, UndoReliable())
      ensures failed.None? ==> calls == old(calls) + AcquireCalls(cfg, pidFile)
      ensures failed.Some? ==> Registered(failed.value) >= 1
      ensures PartlyUndone(old(w), w, id, jid, pid,
                           EntriesOf(cwd, root, cfg.mounts), cfg.vnet, failed, undoWorks, old(undoCalls), undoCalls)
    {
      ghost var w0 := w;
      var undos;
      failed, undos, jid, pid := Acquire(id, cwd, root, cfg, socket, pidFile);
      if failed.Some? {
        if UndoReliable() { RollBackReliable(w, undos, undoWorks, undoCalls); }
        ghost var n := FailureRemains(w0, id, jid, pid, EntriesOf(cwd, root, cfg.mounts), cfg.vnet, failed, w, undos,
                                      undoWorks, old(undoCalls), undoCalls);
        RunDeferred(undos);
      }
    }

    /** From the claimed state to the final Save. */
    method AcquireAndSave(id: string, cwd: Dir, root: Path, bundleName: string, cfg: Config, socket: ConsoleSocket,
                          pidFile: bool, ghost w0: World)
      returns (failed: Option<Site>, jid: nat, pid: nat)
      requires Valid() && id !in w0.state && w == WithRecord(w0, id, Some(CreatingRecord(id, bundleName)))
      modifies this`w, this`calls, this`undoCalls, this`nextJid, this`nextPid
      ensures Valid() && jid == old(nextJid) && pid == old(nextPid)
      ensures failed == Then(AcquireOutcome(w0, id, cfg, socket, pidFile, works, old(calls)),
                             if works(old(calls) + AcquireCalls(cfg, pidFile)) then None else Some(FinalSave))
      ensures failed.None? || failed.value.FinalSave? || UndoReliable() ==>
                w == CreatedWorld(w0, id, bundleName, cfg, EntriesOf(cwd, root, cfg.mounts), jid, pid, failed)
      ensures failed.None? ==> calls == old(calls) + AcquireCalls(cfg, pidFile) + 1
      ensures failed.None? || failed.value.FinalSave? ==> id !in w0.jails && MovedIn(w0.ifaces, cfg.vnet, jid, w.ifaces)
      ensures PartlyUndone(WithRecord(w0, id, Some(CreatingRecord(id, bundleName))), w, id, jid, pid,
                           EntriesOf(cwd, root, cfg.mounts), cfg.vnet, failed, undoWorks, old(undoCalls), undoCalls)
    {
      ghost var w1, k := w, calls;
      ghost var es := EntriesOf(cwd, root, cfg.mounts);
      SameAcquireOutcome(w0, w1, id, cfg, socket, pidFile, works, k);
      AcquireSites(w0, id, cfg, socket, pidFile, works, k);
      failed, jid, pid := AcquireOrUndo(id, cwd, root, cfg, socket, pidFile);
      EndsCreated(w0, w1, w, id, bundleName, jid, pid, es, cfg, failed, UndoReliable());
      if failed.Some? { return; }
      var ok := Attempt();
      if !ok { return Some(FinalSave), jid, pid; }
      LastRecord(w0, id, bundleName, cfg, es, jid, pid);
      w := w.(state := w.state[id := Some(Record(id, 0, Created, bundleName, pid, cfg.version))]);
    }

    /** The whole command.  It fails at the site its calls decide.  A failed create restores
        the world, except that
        - a Save that fails inside state.Create leaves an empty state file,
        - a nullfs preparation that fails leaves the mounts before it, and
        - a final Save that fails comes after all other undo actions have declined. */
    method RunCreate(id: string, cwd: Dir, root: Path, bundleName: string, cfg: Config, socket: ConsoleSocket,
                     pidFile: bool)
      returns (failed: Option<Site>, jid: nat, pid: nat)
      requires Valid()
      modifies this`w, this`calls, this`undoCalls, this`nextJid, this`nextPid
      ensures Valid() && jid == old(nextJid) && pid == old(nextPid)
      ensures failed == CreateOutcome(old(w), id, cfg, socket, pidFile, works, old(calls))
      ensures failed.None? || failed.value.FinalSave? || UndoReliable() ==>
                w == CreatedWorld(old(w), id, bundleName, cfg, EntriesOf(cwd, root, cfg.mounts), jid, pid, failed)
      ensures failed.None? ==> calls == old(calls) + 3 + AcquireCalls(cfg, pidFile)
      ensures failed.None? || failed.value.FinalSave? ==>
                id !in old(w).jails && id !in old(w).state && MovedIn(old(w.ifaces), cfg.vnet, jid, w.ifaces)
      ensures PartlyUndone(WithRecord(old(w), id, Some(CreatingRecord(id, bundleName))), w, id, jid, pid,
                           EntriesOf(cwd, root, cfg.mounts), cfg.vnet, failed, undoWorks, old(undoCalls), undoCalls)
    {
      jid, pid := nextJid, nextPid;
      ghost var w0 := w;
      ClaimDecides(w, id, bundleName, cfg, socket, pidFile, EntriesOf(cwd, root, cfg.mounts), jid, pid, works, calls);
      failed := ClaimState(id, bundleName);
      if failed.Some? { return; }
      failed, jid, pid := AcquireAndSave(id, cwd, root, bundleName, cfg, socket, pidFile, w0);
    }

    /** create, and when a failure leaves something behind. */
    method Create(id: string, cwd: Dir, bundle: Path, bundleName: string, cfg: Config, socket: ConsoleSocket,
                  pidFile: bool)
      returns (failed: Option<Site>, jid: nat, pid: nat)
      requires Valid()
      modifies this`w, this`calls, this`undoCalls, this`nextJid, this`nextPid
      ensures Valid() && jid == old(nextJid) && pid == old(nextPid)
      ensures failed == CreateOutcome(old(w), id, cfg, socket, pidFile, works, old(calls))
      ensures failed.None? || failed.value.FinalSave? || UndoReliable() ==>
                w == CreatedWorld(old(w), id, bundleName, cfg, EntriesOf(cwd, CreateRoot(bundle, cfg.root), cfg.mounts),
                                  jid, pid, failed)
      ensures UndoReliable() && failed.Some? ==>
                (w == old(w) <==> !LeavesSomething(old(w), id, cfg, socket, pidFile, works, old(calls)))
      ensures failed.None? <==> && id !in old(w).state && Creatable(old(w), id, cfg, socket)
                                && AllWork(works, old(calls), old(calls) + 3 + AcquireCalls(cfg, pidFile))
      ensures failed.None? ==> calls == old(calls) + 3 + AcquireCalls(cfg, pidFile)
      ensures failed.None? || failed.value.FinalSave? ==>
                Unclaimed(old(w), id, jid, pid) && MovedIn(old(w.ifaces), cfg.vnet, jid, w.ifaces)
      ensures failed.None? ==> RecordedAs(old(w), w, id, bundleName, cfg.version)
      ensures failed == Some(FinalSave) ==> RecordedEarly(old(w), w, id, bundleName)
      ensures failed.None? || failed.value.FinalSave? ==>
                Equipped(old(w), w, id, cwd, CreateRoot(bundle, cfg.root), cfg, jid)
      ensures PartlyUndone(WithRecord(old(w), id, Some(CreatingRecord(id, bundleName))), w, id, jid, pid,
                           EntriesOf(cwd, CreateRoot(bundle, cfg.root), cfg.mounts), cfg.vnet, failed, undoWorks,
                           old(undoCalls), undoCalls)
      ensures failed.Some? && Registered(failed.value) >= 1 ==>
                0 < undoCalls && (id in w.state <==> !undoWorks(undoCalls - 1))
      ensures failed.Some? && Registered(failed.value) >= 2 ==>
                1 < undoCalls && (id in w.jails <==> !undoWorks(undoCalls - 2))
      ensures failed.Some? && Registered(failed.value) == 5 ==> (pid in w.procs <==> !undoWorks(old(undoCalls)))
    {
      ghost var w0 := w;
      CreateSucceedsWhen(w, id, cfg, socket, pidFile, works, calls);
      if CreateOutcome(w, id, cfg, socket, pidFile, works, calls).Some? {
        CreateAllOrNothing(w, id, bundleName, cfg, socket, pidFile,
                           EntriesOf(cwd, CreateRoot(bundle, cfg.root), cfg.mounts), nextJid, nextPid, works, calls);
      }
      failed, jid, pid := RunCreate(id, cwd, CreateRoot(bundle, cfg.root), bundleName, cfg, socket, pidFile);
      CreatedMeans(w0, w, id, bundleName, cwd, CreateRoot(bundle, cfg.root), cfg, socket, pidFile, jid, pid, failed,
                   works, old(calls), undoWorks, old(undoCalls), undoCalls);
    }

    // ----- cmd/runj/delete.go -----

    /** delete asks for the state and for processes, and ends a recorded entrypoint. */
    method CheckStopped(id: string, processes: bool) returns (failed: Option<DeleteSite>)
      requires Valid()
      modifies this`w, this`calls
      ensures Valid()
      ensures failed == CheckOutcome(old(w), id, processes, works, old(calls))
      ensures w == if failed.None? then EntrypointSignalled(old(w), id) else old(w)
      ensures failed.None? ==> calls == old(calls) + 2
    {
      var ok := Attempt();
      if !ok || id !in w.state || w.state[id].None? { return Some(NoState); }
      ok := Attempt(); // ps
      if !ok || processes { return Some(StillRunning); }
      // CleanupEntrypoint: SIGTERM to the recorded PID, if any
      w := w.(procs := Signalled(w.procs, w.state[id].value.pid));
      return None;
    }

    method DestroyJail(id: string) returns (failed: Option<DeleteSite>)
      requires Valid()
      modifies this`w, this`calls
      ensures Valid()
      ensures failed == DestroyOutcome(old(w), id, works, old(calls))
      ensures w == if failed == Some(NoJail) then old(w) else JailDestroyed(old(w), id)
      ensures failed.None? ==> calls == old(calls) + 2
    {
      if id !in w.jails { return Some(NoJail); }
      var ok := Attempt();
      if !ok { return Some(NoJail); }
      w := JailGone(w, id, w.jails[id]);
      ok := Attempt(); // LoadConfig
      return if ok then None else Some(NoConfig);
    }

    /** delete unmounts below the root path of the stored configuration, without create's rewriting of it. */
    method UnmountStored(cwd: Dir, cfg: Config) returns (failed: Option<DeleteSite>)
      requires Valid()
      modifies this`w, this`undoCalls
      ensures Valid()
      ensures failed == UnmountOutcome(old(w), DeleteTargets(cwd, cfg.root, cfg.mounts), undoWorks, old(undoCalls))
      ensures w == Unmounting(old(w), DeleteTargets(cwd, cfg.root, cfg.mounts), undoWorks, old(undoCalls))
    {
      var targets := DeleteTargets(cwd, cfg.root, cfg.mounts);
      if targets.None? { return Some(Crash); }
      var err := Unmount(targets.value);
      return if err.Some? then Some(UnmountFailed) else None;
    }

    /** The state directory goes before the last hooks run. */
    method ForgetState(id: string, hooks: nat) returns (failed: Option<DeleteSite>)
      requires Valid()
      modifies this`w, this`calls
      ensures Valid()
      ensures failed == ForgetOutcome(hooks, works, old(calls))
      ensures w == if failed == Some(StateKept) then old(w) else WithoutState(old(w), id)
    {
      var ok := Attempt();
      if !ok { return Some(StateKept); }
      w := w.(state := w.state - {id});
      var hook := RunHooks(hooks);
      return if hook.None? then None else Some(PoststopHook(hook.value));
    }

    /** The jail with its interfaces, then the mounts, then the state. */
    method Release(id: string, cwd: Dir, cfg: Config) returns (failed: Option<DeleteSite>)
      requires Valid()
      modifies this`w, this`calls, this`undoCalls
      ensures Valid()
      ensures failed == ReleaseOutcome(old(w), id, DeleteTargets(cwd, cfg.root, cfg.mounts), cfg.poststopHooks,
                                       works, old(calls), undoWorks, old(undoCalls))
      ensures w == ReleasedWorld(old(w), id, DeleteTargets(cwd, cfg.root, cfg.mounts), failed, undoWorks,
                                 old(undoCalls))
    {
      SameForgotten(w, JailDestroyed(w, id), DeleteTargets(cwd, cfg.root, cfg.mounts), cfg.poststopHooks,
                    works, calls + 2, undoWorks, undoCalls);
      failed := DestroyJail(id);
      if failed.Some? { return; }
      failed := UnmountAndForget(id, cwd, cfg);
    }

    method UnmountAndForget(id: string, cwd: Dir, cfg: Config) returns (failed: Option<DeleteSite>)
      requires Valid()
      modifies this`w, this`calls, this`undoCalls
      ensures Valid()
      ensures failed == ForgottenOutcome(old(w), DeleteTargets(cwd, cfg.root, cfg.mounts), cfg.poststopHooks,
                                         works, old(calls), undoWorks, old(undoCalls))
      ensures w == ForgottenWorld(old(w), id, DeleteTargets(cwd, cfg.root, cfg.mounts), failed, undoWorks,
                                  old(undoCalls))
    {
      failed := UnmountStored(cwd, cfg);
      if failed.Some? { return; }
      failed := ForgetState(id, cfg.poststopHooks);
    }

    /** The whole command: it ends at the site its calls decide, and leaves what is said for that site. */
    method RunDelete(id: string, cwd: Dir, cfg: Config, processes: bool) returns (failed: Option<DeleteSite>)
      requires Valid()
      modifies this`w, this`calls, this`undoCalls
      ensures Valid()
      ensures failed == DeleteOutcome(old(w), id, DeleteTargets(cwd, cfg.root, cfg.mounts), processes,
                                      cfg.poststopHooks,
                                      works, old(calls), undoWorks, old(undoCalls))
      ensures w == DeletedWorld(old(w), id, DeleteTargets(cwd, cfg.root, cfg.mounts), failed, undoWorks, old(undoCalls))
    {
      SignalDecidesNothing(w, id, DeleteTargets(cwd, cfg.root, cfg.mounts), cfg.poststopHooks, works, calls + 2,
                           undoWorks, undoCalls);
      failed := CheckStopped(id, processes);
      if failed.Some? { return; }
      failed := Release(id, cwd, cfg);
    }

    /** delete, and what is gone by the site it ends at. */
    method Delete(id: string, cwd: Dir, cfg: Config, processes: bool) returns (failed: Option<DeleteSite>)
      requires Valid()
      modifies this`w, this`calls, this`undoCalls
      ensures Valid()
      ensures failed == DeleteOutcome(old(w), id, DeleteTargets(cwd, cfg.root, cfg.mounts), processes,
                                      cfg.poststopHooks,
                                      works, old(calls), undoWorks, old(undoCalls))
      ensures w == DeletedWorld(old(w), id, DeleteTargets(cwd, cfg.root, cfg.mounts), failed, undoWorks, old(undoCalls))
      ensures if failed == Some(NoState) || failed == Some(StillRunning) then w == old(w)
              else
                && id in old(w).state && old(w).state[id].Some?
                && GoneBy(old(w), w, id, DeleteTargets(cwd, cfg.root, cfg.mounts), failed, undoWorks, old(undoCalls))
    {
      DeletedMeans(w, id, DeleteTargets(cwd, cfg.root, cfg.mounts), processes, cfg.poststopHooks, works, calls,
                   undoWorks, undoCalls);
      failed := RunDelete(id, cwd, cfg, processes);
    }

    /** create, then the commands and the end of the program, then delete.  The world is as it
        was before create, so that the id is free again, if and only if delete's targets unwind
        create's mounts and all its calls up to the removal of the state work. */
    method CreateThenDelete(id: string, cwd0: Dir, bundle: Path, bundleName: string, cfg: Config,
                            socket: ConsoleSocket, pidFile: bool, st: Status, pidKept: bool, cwd1: Dir)
      returns (created: Option<Site>, deleted: Option<DeleteSite>)
      requires Valid()
      modifies this
      ensures created == CreateOutcome(old(w), id, cfg, socket, pidFile, works, old(calls))
      ensures var k := old(calls) + 3 + AcquireCalls(cfg, pidFile);
              UndoReliable() && created.None? ==>
                && (w == old(w) <==> Unwinds(cwd0, cwd1, bundle, cfg) && AllWork(works, k, k + 5))
                && (deleted.None? && w == old(w)
                    <==> Unwinds(cwd0, cwd1, bundle, cfg) && AllWork(works, k, k + 5 + cfg.poststopHooks))
                && (cfg.root.NoRoot? && cfg.mounts != [] && AllWork(works, k, k + 4) ==>
                      deleted == Some(Crash) && id !in w.jails && id in w.state)
    {
      ghost var w0 := w;
      var jid, pid;
      deleted := None;
      created, jid, pid := Create(id, cwd0, bundle, bundleName, cfg, socket, pidFile);
      if created.Some? { return; }
      // start, state and kill save the state; then the program ends
      ghost var running := w;
      var r := Record(id, 0, st, bundleName, if pidKept then pid else 0, cfg.version);
      ProgramEnds(id, r, pid);
      ghost var es := EntriesOf(cwd0, CreateRoot(bundle, cfg.root), cfg.mounts);
      HeldAtExit(w0, running, w, id, bundleName, jid, pid, es, cfg, r);
      if UndoReliable() {
        DeleteAfterExit(w0, w, id, jid, pid, cwd0, cwd1, bundle, cfg, works, calls, undoWorks, undoCalls);
      }
      deleted := Delete(id, cwd1, cfg, false);
    }

    method ProgramEnds(id: string, r: Record, pid: nat)
      requires Valid()
      modifies this`w
      ensures Valid() && w == WithRecord(old(w), id, Some(r)).(procs := old(w).procs - {pid})
    {
      w := w.(state := w.state[id := Some(r)], procs := w.procs - {pid});
    }
  }
}
