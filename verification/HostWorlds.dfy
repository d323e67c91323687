/** What `runj create` leaves of the world, and when that is nothing; what its undo
    actions lead back to; and where `runj delete` looks for the mounts. */
module HostWorlds {
  import opened Wrappers
  import opened RunjState
  import opened Mounts
  import opened Transaction
  import opened HostCalls

  // ----- what create leaves -----

  /** Id, jail and process are new, and no interface belonged to the jail. */
  predicate Unclaimed(w: World, id: string, jid: nat, pid: nat) {
    && id !in w.state && id !in w.jails && pid !in w.procs && HOST < jid
    && forall i | i in w.ifaces :: w.ifaces[i] != jid
  }

  function CreatedRecord(id: string, bundle: string, pid: nat, cfg: Config): Record {
    Record(id, 0, Created, bundle, pid, cfg.version)
  }

  function CreatingRecord(id: string, bundle: string): Record { Record(id, 0, Creating, bundle, 0, "") }

  /** The world after a create that ended at a site, when its undo calls work. */
  function CreatedWorld(w: World, id: string, bundle: string, cfg: Config, es: seq<Entry>, jid: nat, pid: nat,
                        site: Option<Site>): World {
    match site
    case None => WithRecord(Acquired(w, id, jid, es, cfg.vnet, pid), id, Some(CreatedRecord(id, bundle, pid, cfg)))
    case Some(FinalSave) => WithRecord(Acquired(w, id, jid, es, cfg.vnet, pid), id, Some(CreatingRecord(id, bundle)))
    case Some(StateUnsaved) => WithRecord(w, id, None)
    case Some(NullfsPrepare(i)) => w.(mounts := w.mounts + Front(es, i))
    case _ => w
  }

  function WithRecord(w: World, id: string, r: Option<Record>): World { w.(state := w.state[id := r]) }

  /** A container that create has made is recorded as created, with the version of its configuration
      and the PID of the one process that is new. */
  predicate RecordedAs(before: World, now: World, id: string, bundle: string, version: string) {
    && id in now.state && now.state[id].Some? && now.state - {id} == before.state
    && var r := now.state[id].value;
       && r.id == id && r.jid == 0 && r.status == Created && r.bundle == bundle && r.ociVersion == version
       && r.pid >= 0 && r.pid !in before.procs && now.procs == before.procs + {r.pid}
  }

  /** What it was recorded as while create was at work. */
  predicate RecordedEarly(before: World, now: World, id: string, bundle: string) {
    && id in now.state && now.state[id].Some? && now.state - {id} == before.state
    && var r := now.state[id].value;
       r.id == id && r.jid == 0 && r.status == Creating && r.bundle == bundle && r.pid == 0 && r.ociVersion == ""
  }

  /** It has a jail of its own, which owns its interfaces, and its mounts on top of the others. */
  predicate Equipped(before: World, now: World, id: string, cwd: Dir, root: Path, cfg: Config, jid: nat) {
    && now.jails == before.jails[id := jid] && now.ifaces.Keys == before.ifaces.Keys
    && (forall i | i in now.ifaces :: now.ifaces[i] == if i in cfg.vnet then jid else before.ifaces[i])
    && MountedOn(before.mounts, now.mounts, cwd, root, cfg.mounts)
  }

  predicate MountedOn(before: Table, now: Table, cwd: Dir, root: Path, ms: seq<OciMount>) {
    && |now| == |before| + |ms| && before <= now
    && forall i | 0 <= i < |ms| :: MountedAs(now[|before| + i], cwd, root, ms[i])
  }

  /** An entry of the mount table for a mount: mount(8) needs a source. */
  predicate MountedAs(e: Entry, cwd: Dir, root: Path, m: OciMount) {
    && e.at == Resolve(cwd, Join(root, m.dest)) && e.fstype == m.fstype
    && e.source == if m.source != "" then m.source else "null"
  }

  lemma EntriesMounted(before: Table, cwd: Dir, root: Path, ms: seq<OciMount>)
    ensures MountedOn(before, before + EntriesOf(cwd, root, ms), cwd, root, ms)
  {}

  /** What success means, and what is there when only the last Save has failed. */
  lemma CreatedHolds(w: World, id: string, bundle: string, cwd: Dir, root: Path, cfg: Config, jid: nat, pid: nat)
    requires Unclaimed(w, id, jid, pid)
    ensures var now := CreatedWorld(w, id, bundle, cfg, EntriesOf(cwd, root, cfg.mounts), jid, pid, None);
            RecordedAs(w, now, id, bundle, cfg.version) && Equipped(w, now, id, cwd, root, cfg, jid)
    ensures var now := CreatedWorld(w, id, bundle, cfg, EntriesOf(cwd, root, cfg.mounts), jid, pid, Some(FinalSave));
            RecordedEarly(w, now, id, bundle) && Equipped(w, now, id, cwd, root, cfg, jid)
  {
    EquippedWhenAcquired(w, id, cwd, root, cfg, jid, pid);
  }

  lemma EquippedWhenAcquired(w: World, id: string, cwd: Dir, root: Path, cfg: Config, jid: nat, pid: nat)
    ensures Equipped(w, Acquired(w, id, jid, EntriesOf(cwd, root, cfg.mounts), cfg.vnet, pid), id, cwd, root, cfg, jid)
  {
    EntriesMounted(w.mounts, cwd, root, cfg.mounts);
  }

  // ----- what a failed create leaves when undo calls fail, too -----

  /** How many deferred actions are registered when create fails there. */
  function Registered(site: Site): nat {
    match site
    case StateTaken | StateUnsaved | FinalSave => 0
    case BadConfig | JailSet => 1
    case NullfsPrepare(_) | MountCall(_) => 2
    case InterfaceMove(_) => 3
    case Entrypoint => 4
    case PidFile | Hook(_) => 5
  }

  /** The interfaces that had moved into the jail. */
  function Moved(vnet: seq<string>, site: Site): seq<string> {
    if site.InterfaceMove? && site.i <= |vnet| then vnet[..site.i] else if Registered(site) >= 4 then vnet else []
  }

  /** The mount table at the failure; a refused mount has unwound, from undo call u on. */
  function TableAt(table: Table, es: seq<Entry>, site: Site, ok: nat -> bool, u: nat): Table {
    match site
    case NullfsPrepare(i) => table + Front(es, i)
    case MountCall(i) => UnmountAll(table + Front(es, i), Places(Front(es, i)), ok, u).0
    case _ => if Registered(site) >= 3 then table + es else table
  }

  /** The world at the failure. */
  function HeldAt(w: World, id: string, jid: nat, pid: nat, es: seq<Entry>, vnet: seq<string>, site: Site,
                  ok: nat -> bool, u: nat): World {
    w.(jails := if Registered(site) >= 2 then w.jails[id := jid] else w.jails,
       mounts := TableAt(w.mounts, es, site, ok, u),
       ifaces := Owned(w.ifaces, Moved(vnet, site), jid),
       procs := if Registered(site) == 5 then w.procs + {pid} else w.procs)
  }

  /** A stage that has failed has registered its actions and holds what it has got. */
  predicate StopsAt(w0: World, id: string, jid: nat, pid: nat, es: seq<Entry>, vnet: seq<string>, failed: Option<Site>,
                    w: World, undos: seq<Undo>, ok: nat -> bool, u: nat, u1: nat) {
    failed.Some? ==>
      && Registered(failed.value) >= 1
      && undos == AllUndos(id, jid, Places(es), vnet, pid)[..Registered(failed.value)]
      && w == HeldAt(w0, id, jid, pid, es, vnet, failed.value, ok, u)
      && u1 == u + (if failed.value.MountCall? then failed.value.i else 0)
      && (Registered(failed.value) >= 2 ==> id !in w0.jails)
      && (Registered(failed.value) == 5 ==> pid !in w0.procs)
      && Movable(w0.ifaces, Moved(vnet, failed.value))
  }

  /** What a create that failed there leaves, when its undo calls may fail: u is the first of them
      and u1 the next one after the last.  The state is gone exactly if its own removal works, the
      jail exactly if its own does, the process exactly if its own does; all targets are tried, and
      the interfaces that stay in the jail are those behind the first that is refused, if the jail
      stays. */
  predicate Remains(w0: World, w: World, id: string, jid: nat, pid: nat, es: seq<Entry>, vnet: seq<string>, site: Site,
                    ok: nat -> bool, u: nat, u1: nat, n: nat) {
    var m := Registered(site);
    && n <= |Moved(vnet, site)| && u < u1 && (m >= 2 ==> u + 2 <= u1) && (m >= 3 ==> u + |es| + 2 <= u1)
    && w.state == (if ok(u1 - 1) then w0.state - {id} else w0.state)
    && w.jails == (if m < 2 || ok(u1 - 2) then w0.jails else w0.jails[id := jid])
    && w.mounts == (if m < 3 then TableAt(w0.mounts, es, site, ok, u)
                    else UnmountAll(w0.mounts + es, Places(es), ok, u1 - 2 - |es|).0)
    && w.ifaces == Owned(w0.ifaces, if m < 2 || ok(u1 - 2) then [] else Moved(vnet, site)[n..], jid)
    && (m >= 4 && n < |vnet| ==> !ok(if m == 5 then u + 1 + n else u + n))
    && w.procs == (if m == 5 && !ok(u) then w0.procs + {pid} else w0.procs)
  }

  /** A create that failed behind its first Save has undone what its working undo calls undo. */
  ghost predicate PartlyUndone(w0: World, w: World, id: string, jid: nat, pid: nat, es: seq<Entry>, vnet: seq<string>,
                               failed: Option<Site>, ok: nat -> bool, u: nat, u1: nat) {
    failed.Some? && Registered(failed.value) >= 1 ==>
      exists n :: Remains(w0, w, id, jid, pid, es, vnet, failed.value, ok, u, u1, n)
  }

  /** In short: which of them are still there. */
  lemma PartlyUndoneMeans(before: World, r: Option<Record>, w: World, id: string, jid: nat, pid: nat, es: seq<Entry>,
                          vnet: seq<string>, site: Site, ok: nat -> bool, u: nat, u1: nat)
    requires Registered(site) >= 1 && id !in before.state && pid !in before.procs
    requires Registered(site) >= 2 ==> id !in before.jails
    requires PartlyUndone(WithRecord(before, id, r), w, id, jid, pid, es, vnet, Some(site), ok, u, u1)
    ensures u < u1 && (id in w.state <==> !ok(u1 - 1)) && w.state - {id} == before.state
    ensures Registered(site) >= 2 ==> u + 2 <= u1 && (id in w.jails <==> !ok(u1 - 2)) && w.jails - {id} == before.jails
    ensures Registered(site) == 5 ==> (pid in w.procs <==> !ok(u)) && w.procs - {pid} == before.procs
    ensures Registered(site) < 5 ==> w.procs == before.procs
  {
    assert before.state[id := r] - {id} == before.state;
    PutBack(before, id, jid, pid);
  }

  /** Rolling back from there. */
  lemma FailureRemains(w0: World, id: string, jid: nat, pid: nat, es: seq<Entry>, vnet: seq<string>,
                       failed: Option<Site>, w: World, undos: seq<Undo>, ok: nat -> bool, u: nat, u1: nat)
    returns (n: nat)
    requires failed.Some? && StopsAt(w0, id, jid, pid, es, vnet, failed, w, undos, ok, u, u1)
    requires HOST < jid && forall i | i in w0.ifaces :: w0.ifaces[i] != jid
    ensures var (w2, u2) := TryRollBack(w, undos, ok, u1);
            Remains(w0, w2, id, jid, pid, es, vnet, failed.value, ok, u, u2, n)
  {
    var m := Registered(failed.value);
    n := EachIsTried(w, id, jid, Places(es), vnet, pid, m, ok, u1);
    var (w2, u2) := TryRollBack(w, undos, ok, u1);
    TriedRemains(w0, id, jid, pid, es, vnet, failed.value, w, w2, ok, u, u1, u2, n);
  }

  lemma TriedRemains(w0: World, id: string, jid: nat, pid: nat, es: seq<Entry>, vnet: seq<string>, site: Site,
                     w: World, w2: World, ok: nat -> bool, u: nat, u1: nat, u2: nat, n: nat)
    requires Registered(site) >= 1 && w == HeldAt(w0, id, jid, pid, es, vnet, site, ok, u)
    requires u1 == u + (if site.MountCall? then site.i else 0)
    requires Registered(site) >= 2 ==> id !in w0.jails
    requires Registered(site) == 5 ==> pid !in w0.procs
    requires Movable(w0.ifaces, Moved(vnet, site))
    requires HOST < jid && forall i | i in w0.ifaces :: w0.ifaces[i] != jid
    requires TriedEach(w, id, jid, Places(es), vnet, pid, Registered(site), ok, u1, w2, u2, n)
    ensures Remains(w0, w2, id, jid, pid, es, vnet, site, ok, u, u2, n)
  {
    TableRemains(w0, id, jid, pid, es, vnet, site, w, w2, ok, u, u1, u2, n);
    JailRemains(w0, id, jid, pid, es, vnet, site, w, w2, ok, u, u1, u2, n);
    MovedRemain(w0, id, jid, pid, es, vnet, site, w, w2, ok, u, u1, u2, n);
  }

  lemma MovedRemain(w0: World, id: string, jid: nat, pid: nat, es: seq<Entry>, vnet: seq<string>, site: Site,
                    w: World, w2: World, ok: nat -> bool, u: nat, u1: nat, u2: nat, n: nat)
    requires Registered(site) >= 1 && w.ifaces == Owned(w0.ifaces, Moved(vnet, site), jid)
    requires u1 == u + (if site.MountCall? then site.i else 0) && (Registered(site) >= 2 ==> u + 2 <= u2)
    requires HOST < jid && Movable(w0.ifaces, Moved(vnet, site)) && forall i | i in w0.ifaces :: w0.ifaces[i] != jid
    requires TriedEach(w, id, jid, Places(es), vnet, pid, Registered(site), ok, u1, w2, u2, n)
    ensures n <= |Moved(vnet, site)|
    ensures w2.ifaces
            == Owned(w0.ifaces, if Registered(site) < 2 || ok(u2 - 2) then [] else Moved(vnet, site)[n..], jid)
    ensures Registered(site) >= 4 && n < |vnet| ==> !ok(if Registered(site) == 5 then u + 1 + n else u + n)
  {
    var moved := Moved(vnet, site);
    assert (moved <= vnet && n == 0) || moved == vnet;
    if Registered(site) < 2 {
      assert vnet[..n] == [] && w2.ifaces == w0.ifaces;
      PutBack(w0, id, jid, pid);
    } else {
      InterfacesRemain(w0.ifaces, w2.ifaces, vnet, moved, n, jid, ok(u2 - 2));
      if Registered(site) >= 4 && n < |vnet| { assert vnet[n] in moved; }
    }
  }

  lemma TableRemains(w0: World, id: string, jid: nat, pid: nat, es: seq<Entry>, vnet: seq<string>, site: Site,
                     w: World, w2: World, ok: nat -> bool, u: nat, u1: nat, u2: nat, n: nat)
    requires Registered(site) >= 1 && w.mounts == TableAt(w0.mounts, es, site, ok, u)
    requires u1 == u + (if site.MountCall? then site.i else 0)
    requires TriedEach(w, id, jid, Places(es), vnet, pid, Registered(site), ok, u1, w2, u2, n)
    ensures u < u2 && (Registered(site) >= 2 ==> u + 2 <= u2) && (Registered(site) >= 3 ==> u + |es| + 2 <= u2)
    ensures w2.mounts == if Registered(site) < 3 then TableAt(w0.mounts, es, site, ok, u)
                         else UnmountAll(w0.mounts + es, Places(es), ok, u2 - 2 - |es|).0
  {}

  lemma JailRemains(w0: World, id: string, jid: nat, pid: nat, es: seq<Entry>, vnet: seq<string>, site: Site,
                    w: World, w2: World, ok: nat -> bool, u: nat, u1: nat, u2: nat, n: nat)
    requires Registered(site) >= 1 && w == HeldAt(w0, id, jid, pid, es, vnet, site, ok, u)
    requires u1 == u + (if site.MountCall? then site.i else 0) && u < u2 && (Registered(site) >= 2 ==> u + 2 <= u2)
    requires Registered(site) >= 2 ==> id !in w0.jails
    requires Registered(site) == 5 ==> pid !in w0.procs
    requires TriedEach(w, id, jid, Places(es), vnet, pid, Registered(site), ok, u1, w2, u2, n)
    ensures w2.state == (if ok(u2 - 1) then w0.state - {id} else w0.state)
    ensures w2.jails == (if Registered(site) < 2 || ok(u2 - 2) then w0.jails else w0.jails[id := jid])
    ensures w2.procs == (if Registered(site) == 5 && !ok(u) then w0.procs + {pid} else w0.procs)
  {
    PutBack(w0, id, jid, pid);
  }

  lemma PutBack(w: World, id: string, jid: nat, pid: nat)
    ensures Owned(w.ifaces, [], jid) == w.ifaces
    ensures id !in w.jails ==> w.jails[id := jid] - {id} == w.jails
    ensures pid !in w.procs ==> w.procs + {pid} - {pid} == w.procs
  {}

  lemma InterfacesRemain(before: map<string, nat>, now: map<string, nat>, vnet: seq<string>, moved: seq<string>, n: nat,
                         jid: nat, all: bool)
    requires n <= |vnet| && Returned(Owned(before, moved, jid), now, vnet, n, jid, all)
    requires (moved <= vnet && n == 0) || moved == vnet
    requires HOST < jid && Movable(before, moved) && forall i | i in before :: before[i] != jid
    ensures now == Owned(before, if all then [] else moved[n..], jid)
  {
    assert vnet[..0] == [] && moved == moved[..n] + moved[n..];
    forall i | i in moved[n..] ensures i !in vnet[..n] {}
  }

  /** Where something is registered the id was free, and from the mounts on so was the jail's name. */
  lemma RegisteredMeans(w: World, id: string, cfg: Config, socket: ConsoleSocket, pidFile: bool, works: nat -> bool,
                        k: nat, site: Site)
    requires CreateOutcome(w, id, cfg, socket, pidFile, works, k) == Some(site)
    ensures Registered(site) >= 1 ==> id !in w.state
    ensures Registered(site) >= 2 ==> id !in w.jails
  {
    ClaimDecides(w, id, "", cfg, socket, pidFile, [], 0, 0, works, k);
    RestSites(w.ifaces, cfg, pidFile, works, k + 4 + MountCalls(cfg.mounts, 0));
  }

  /** How create ended, in plain terms. */
  lemma CreatedMeans(before: World, w: World, id: string, bundle: string, cwd: Dir, root: Path, cfg: Config,
                     socket: ConsoleSocket, pidFile: bool, jid: nat, pid: nat, failed: Option<Site>,
                     works: nat -> bool, k: nat, ok: nat -> bool, u: nat, u1: nat)
    requires failed == CreateOutcome(before, id, cfg, socket, pidFile, works, k)
    requires failed.None? || failed.value.FinalSave? ==>
               && Unclaimed(before, id, jid, pid)
               && w == CreatedWorld(before, id, bundle, cfg, EntriesOf(cwd, root, cfg.mounts), jid, pid, failed)
    requires pid !in before.procs
    requires PartlyUndone(WithRecord(before, id, Some(CreatingRecord(id, bundle))), w, id, jid, pid,
                          EntriesOf(cwd, root, cfg.mounts), cfg.vnet, failed, ok, u, u1)
    ensures failed.None? ==> RecordedAs(before, w, id, bundle, cfg.version)
    ensures failed == Some(FinalSave) ==> RecordedEarly(before, w, id, bundle)
    ensures failed.None? || failed.value.FinalSave? ==> Equipped(before, w, id, cwd, root, cfg, jid)
    ensures failed.Some? && Registered(failed.value) >= 1 ==> 0 < u1 && (id in w.state <==> !ok(u1 - 1))
    ensures failed.Some? && Registered(failed.value) >= 2 ==> 1 < u1 && (id in w.jails <==> !ok(u1 - 2))
    ensures failed.Some? && Registered(failed.value) == 5 ==> (pid in w.procs <==> !ok(u))
  {
    if failed.None? || failed.value.FinalSave? {
      CreatedHolds(before, id, bundle, cwd, root, cfg, jid, pid);
    } else if Registered(failed.value) >= 1 {
      RegisteredMeans(before, id, cfg, socket, pidFile, works, k, failed.value);
      PartlyUndoneMeans(before, Some(CreatingRecord(id, bundle)), w, id, jid, pid, EntriesOf(cwd, root, cfg.mounts),
                        cfg.vnet, failed.value, ok, u, u1);
    }
  }

  // ----- how each stage of create stops -----

  lemma JailStops(w0: World, id: string, jid: nat, pid: nat, es: seq<Entry>, vnet: seq<string>, site: Site,
                  ok: nat -> bool, u: nat)
    requires site.BadConfig? || site.JailSet?
    ensures StopsAt(w0, id, jid, pid, es, vnet, Some(site), w0, [RemoveState(id)], ok, u, u)
  {
    assert Owned(w0.ifaces, [], jid) == w0.ifaces;
  }

  lemma MountingStops(w0: World, id: string, jid: nat, pid: nat, es: seq<Entry>, vnet: seq<string>, m: MountResult,
                      ok: nat -> bool, u: nat)
    requires !m.Mounted? && id !in w0.jails
    ensures StopsAt(w0, id, jid, pid, es, vnet, MountSite(m),
                    WithJail(w0, MountsLeft(w0.mounts, es, m, ok, u), w0.ifaces, id, jid),
                    [RemoveState(id)] + [RemoveJail(id, jid)], ok, u, u + if m.CallFailed? then m.i else 0)
  {
    assert Owned(w0.ifaces, [], jid) == w0.ifaces;
    assert AllUndos(id, jid, Places(es), vnet, pid)[..2] == [RemoveState(id)] + [RemoveJail(id, jid)];
  }

  lemma MovingStops(w0: World, id: string, jid: nat, pid: nat, es: seq<Entry>, vnet: seq<string>, i: nat, w: World,
                    ok: nat -> bool, u: nat)
    requires i <= |vnet| && MovedIn(w0.ifaces, vnet[..i], jid, w.ifaces) && id !in w0.jails
    requires w == WithJail(w0, w0.mounts + es, w.ifaces, id, jid)
    ensures StopsAt(w0, id, jid, pid, es, vnet, Some(InterfaceMove(i)), w, JailUndos(id, jid, es), ok, u, u)
  {
    assert w.ifaces == Owned(w0.ifaces, vnet[..i], jid);
    assert AllUndos(id, jid, Places(es), vnet, pid)[..3] == JailUndos(id, jid, es);
  }

  /** The entrypoint, the pid file or a hook. */
  lemma RunningStops(w0: World, id: string, jid: nat, pid: nat, es: seq<Entry>, vnet: seq<string>, site: Site, w: World,
                     ok: nat -> bool, u: nat)
    requires Registered(site) >= 4 && id !in w0.jails && pid !in w0.procs && Movable(w0.ifaces, vnet)
    requires var now := WithJail(w0, w0.mounts + es, Owned(w0.ifaces, vnet, jid), id, jid);
             w == if site.Entrypoint? then now else now.(procs := w0.procs + {pid})
    ensures var before := JailUndos(id, jid, es) + [MoveOut(vnet, jid)];
            StopsAt(w0, id, jid, pid, es, vnet, Some(site), w,
                    if site.Entrypoint? then before else before + [KillEntrypoint(pid)], ok, u, u)
  {
    var us := AllUndos(id, jid, Places(es), vnet, pid);
    assert us[..4] == JailUndos(id, jid, es) + [MoveOut(vnet, jid)];
    assert us[..5] == us[..4] + [KillEntrypoint(pid)];
  }

  // ----- the three cases in which a failed create leaves something -----

  /** The Save inside state.Create fails: the empty state file stays. */
  predicate FirstSaveFails(w: World, id: string, works: nat -> bool, k: nat) {
    id !in w.state && works(k) && !works(k + 1)
  }

  /** The preparation of a nullfs mount behind at least one other mount fails: those before it stay. */
  ghost predicate NullfsFails(w: World, id: string, cfg: Config, socket: ConsoleSocket, works: nat -> bool, k: nat) {
    && id !in w.state && ConfigOk(cfg, socket) && id !in w.jails && AllWork(works, k, k + 4)
    && var m := k + 4;
       exists i :: 0 < i < |cfg.mounts| && PreparationFails(cfg.mounts, i, works, m)
  }

  /** The Save at the end fails, when nothing is undone any more. */
  ghost predicate LastSaveFails(w: World, id: string, cfg: Config, socket: ConsoleSocket, pidFile: bool,
                                works: nat -> bool, k: nat) {
    && id !in w.state && Creatable(w, id, cfg, socket)
    && AllWork(works, k, k + 2 + AcquireCalls(cfg, pidFile)) && !works(k + 2 + AcquireCalls(cfg, pidFile))
  }

  ghost predicate LeavesSomething(w: World, id: string, cfg: Config, socket: ConsoleSocket, pidFile: bool,
                                  works: nat -> bool, k: nat) {
    || FirstSaveFails(w, id, works, k)
    || NullfsFails(w, id, cfg, socket, works, k)
    || LastSaveFails(w, id, cfg, socket, pidFile, works, k)
  }

  lemma FirstSaveSite(w: World, id: string, cfg: Config, socket: ConsoleSocket, pidFile: bool, works: nat -> bool,
                      k: nat)
    ensures CreateOutcome(w, id, cfg, socket, pidFile, works, k) == Some(StateUnsaved)
            <==> FirstSaveFails(w, id, works, k)
  {
    AcquireSites(w, id, cfg, socket, pidFile, works, k + 2);
  }

  /** The stages between the Saves report neither of them. */
  lemma AcquireSites(w: World, id: string, cfg: Config, socket: ConsoleSocket, pidFile: bool, works: nat -> bool,
                     k: nat)
    ensures var site := AcquireOutcome(w, id, cfg, socket, pidFile, works, k);
            site != Some(StateTaken) && site != Some(StateUnsaved) && site != Some(FinalSave)
  {}

  lemma NullfsSite(w: World, id: string, cfg: Config, socket: ConsoleSocket, pidFile: bool, works: nat -> bool, k: nat,
                   i: nat)
    ensures CreateOutcome(w, id, cfg, socket, pidFile, works, k) == Some(NullfsPrepare(i)) <==>
              && id !in w.state && ConfigOk(cfg, socket) && id !in w.jails && AllWork(works, k, k + 4)
              && PreparationFails(cfg.mounts, i, works, k + 4)
  {
    PrepareFailsExactly(cfg.mounts, i, works, k + 4);
    assert AllWork(works, k, k + 4) <==> works(k) && works(k + 1) && works(k + 2) && works(k + 3);
    AcquireNullfs(w, id, cfg, socket, pidFile, works, k + 2, i);
  }

  lemma AcquireNullfs(w: World, id: string, cfg: Config, socket: ConsoleSocket, pidFile: bool, works: nat -> bool,
                      k: nat, i: nat)
    ensures AcquireOutcome(w, id, cfg, socket, pidFile, works, k) == Some(NullfsPrepare(i)) <==>
              && JailOutcome(w, id, cfg, socket, works, k).None?
              && MountOutcome(cfg.mounts, 0, works, k + 2) == PrepareFailed(i)
  {}

  lemma LastSaveSite(w: World, id: string, cfg: Config, socket: ConsoleSocket, pidFile: bool, works: nat -> bool,
                     k: nat)
    ensures CreateOutcome(w, id, cfg, socket, pidFile, works, k) == Some(FinalSave)
            <==> LastSaveFails(w, id, cfg, socket, pidFile, works, k)
  {
    AcquiresWhen(w, id, cfg, socket, pidFile, works, k + 2);
    AcquireSites(w, id, cfg, socket, pidFile, works, k + 2);
    SplitWork(works, k, k + 2, k + 2 + AcquireCalls(cfg, pidFile));
    assert AllWork(works, k, k + 2) <==> works(k) && works(k + 1);
  }

  /** Which sites leave the world changed. */
  lemma ChangedAt(w: World, id: string, bundle: string, cfg: Config, es: seq<Entry>, jid: nat, pid: nat, site: Site)
    requires site.FinalSave? || site.StateUnsaved? ==> id !in w.state
    requires site.NullfsPrepare? ==> site.i < |es|
    ensures CreatedWorld(w, id, bundle, cfg, es, jid, pid, Some(site)) == w
            <==> !site.FinalSave? && !site.StateUnsaved? && !(site.NullfsPrepare? && site.i > 0)
  {
    match site
    case FinalSave => assert id in CreatedWorld(w, id, bundle, cfg, es, jid, pid, Some(site)).state;
    case StateUnsaved => assert id in CreatedWorld(w, id, bundle, cfg, es, jid, pid, Some(site)).state;
    case NullfsPrepare(i) =>
      assert |w.mounts + es[..i]| == |w.mounts| + i;
      assert w.mounts + es[..0] == w.mounts;
    case _ =>
  }

  /** A create that fails leaves the world as it was, if and only if none of the three cases
      applies, as the world before, the configuration and the calls that work decide. */
  lemma CreateAllOrNothing(w: World, id: string, bundle: string, cfg: Config, socket: ConsoleSocket, pidFile: bool,
                           es: seq<Entry>, jid: nat, pid: nat, works: nat -> bool, k: nat)
    requires |es| == |cfg.mounts| && HOST < jid && pid !in w.procs && forall i | i in w.ifaces :: w.ifaces[i] != jid
    requires CreateOutcome(w, id, cfg, socket, pidFile, works, k).Some?
    ensures CreatedWorld(w, id, bundle, cfg, es, jid, pid, CreateOutcome(w, id, cfg, socket, pidFile, works, k)) == w
            <==> !LeavesSomething(w, id, cfg, socket, pidFile, works, k)
  {
    var site := CreateOutcome(w, id, cfg, socket, pidFile, works, k).value;
    FirstSaveSite(w, id, cfg, socket, pidFile, works, k);
    LastSaveSite(w, id, cfg, socket, pidFile, works, k);
    if site.NullfsPrepare? { NullfsSite(w, id, cfg, socket, pidFile, works, k, site.i); }
    if NullfsFails(w, id, cfg, socket, works, k) {
      var i :| 0 < i < |cfg.mounts| && PreparationFails(cfg.mounts, i, works, k + 4);
      NullfsSite(w, id, cfg, socket, pidFile, works, k, i);
    }
    ChangedAt(w, id, bundle, cfg, es, jid, pid, site);
  }

  /** No nullfs mount behind another mount: the second case cannot occur. */
  predicate NullfsFirst(cfg: Config) { forall i | 0 < i < |cfg.mounts| :: cfg.mounts[i].fstype != "nullfs" }

  /** What can be told before the call: while both Saves work, a create whose failure leaves
      something is possible exactly when the id is free, the configuration is accepted and a
      nullfs mount is behind another one. */
  lemma SafeConfigurations(w: World, id: string, cfg: Config, socket: ConsoleSocket, pidFile: bool, k: nat)
    ensures (forall works: nat -> bool | works(k + 1) && works(k + 2 + AcquireCalls(cfg, pidFile)) ::
               !LeavesSomething(w, id, cfg, socket, pidFile, works, k))
            <==> NullfsFirst(cfg) || id in w.state || id in w.jails || !ConfigOk(cfg, socket)
  {
    if !NullfsFirst(cfg) && id !in w.state && id !in w.jails && ConfigOk(cfg, socket) {
      var i :| 0 < i < |cfg.mounts| && cfg.mounts[i].fstype == "nullfs";
      var n := k + 4 + CallsBefore(cfg.mounts, i);
      var works := (m: nat) => m != n;
      BeforeTheLast(cfg, pidFile, i);
      assert PreparationFails(cfg.mounts, i, works, k + 4);
      assert NullfsFails(w, id, cfg, socket, works, k);
      assert LeavesSomething(w, id, cfg, socket, pidFile, works, k);
    }
  }

  lemma {:induction false} CallsAdd(ms: seq<OciMount>, i: nat)
    requires i <= |ms|
    ensures CallsBefore(ms, i) + MountCalls(ms, i) == MountCalls(ms, 0)
  {
    if i > 0 { CallsAdd(ms, i - 1); }
  }

  lemma BeforeTheLast(cfg: Config, pidFile: bool, i: nat)
    requires i < |cfg.mounts|
    ensures 2 + CallsBefore(cfg.mounts, i) < AcquireCalls(cfg, pidFile)
  {
    CallsAdd(cfg.mounts, i);
  }

  /** The first stage of create. */
  lemma ClaimDecides(w: World, id: string, bundle: string, cfg: Config, socket: ConsoleSocket, pidFile: bool,
                     es: seq<Entry>, jid: nat, pid: nat, works: nat -> bool, k: nat)
    ensures var site := ClaimOutcome(w, id, works, k);
            && CreateOutcome(w, id, cfg, socket, pidFile, works, k) ==
                 Then(site, Then(AcquireOutcome(w, id, cfg, socket, pidFile, works, k + 2),
                                 if works(k + 2 + AcquireCalls(cfg, pidFile)) then None else Some(FinalSave)))
            && (site.Some? ==> CreatedWorld(w, id, bundle, cfg, es, jid, pid, site) ==
                                 if site == Some(StateUnsaved) then WithRecord(w, id, None) else w)
            && site != Some(FinalSave) && (site.None? ==> id !in w.state)
  {}

  /** With its process running, a container holds everything. */
  lemma AllAcquired(w: World, id: string, jid: nat, es: seq<Entry>, vnet: seq<string>, pid: nat)
    ensures var now := WithJail(w, w.mounts + es, Owned(w.ifaces, vnet, jid), id, jid);
            now.(procs := now.procs + {pid}) == Acquired(w, id, jid, es, vnet, pid)
  {}

  /** How a stage of create may end: with everything, or with undo actions that lead back. */
  predicate Ends(w0: World, id: string, jid: nat, es: seq<Entry>, vnet: seq<string>, pid: nat, failed: Option<Site>,
                 w: World, back: World, reliable: bool)
  {
    if failed.None? then
      && w == Acquired(w0, id, jid, es, vnet, pid) && id !in w0.jails && MovedIn(w0.ifaces, vnet, jid, w.ifaces)
    else reliable ==> back == Undisturbed(w0, id, es, failed.value)
  }

  /** The stages behind the mounts lead back to the world without the state. */
  lemma RestEnds(w0: World, id: string, jid: nat, es: seq<Entry>, cfg: Config, pid: nat, failed: Option<Site>,
                 w: World, back: World, reliable: bool, pidFile: bool, works: nat -> bool, k: nat)
    requires failed == RestOutcome(w0.ifaces, cfg, pidFile, works, k) && back == WithoutState(w0, id) && id !in w0.jails
    requires failed.None? ==> w == Acquired(w0, id, jid, es, cfg.vnet, pid)
    requires failed.None? ==> MovedIn(w0.ifaces, cfg.vnet, jid, w.ifaces)
    ensures Ends(w0, id, jid, es, cfg.vnet, pid, failed, w, back, reliable)
  {
    RestSites(w0.ifaces, cfg, pidFile, works, k);
  }

  /** The first of the stages up to the mounts and behind them that fails. */
  lemma AcquireStages(w: World, id: string, cfg: Config, socket: ConsoleSocket, pidFile: bool, works: nat -> bool,
                      k: nat, jailed: Option<Site>)
    requires jailed == JailedOutcome(w, id, cfg, socket, works, k)
    ensures AcquireOutcome(w, id, cfg, socket, pidFile, works, k)
            == if jailed.Some? then jailed
               else RestOutcome(w.ifaces, cfg, pidFile, works, k + 2 + MountCalls(cfg.mounts, 0))
  {}

  /** The first of the two stages behind the mounts that fails. */
  lemma RestStages(owners: map<string, nat>, cfg: Config, pidFile: bool, works: nat -> bool, k: nat,
                   failed: Option<Site>)
    requires var moved := InterfaceSite(InterfaceOutcome(owners, cfg.vnet, 0, works, k));
             failed == if moved.Some? then moved else EntrypointOutcome(cfg, pidFile, works, k + |cfg.vnet|)
    ensures failed == RestOutcome(owners, cfg, pidFile, works, k)
  {}

  lemma RestSites(owners: map<string, nat>, cfg: Config, pidFile: bool, works: nat -> bool, k: nat)
    ensures var site := RestOutcome(owners, cfg, pidFile, works, k);
            site.None? || site.value.InterfaceMove? || site.value.Entrypoint? || site.value.PidFile? || site.value.Hook?
  {}

  /** The state file plays no part between the two Saves. */
  lemma SameAcquireOutcome(w0: World, w1: World, id: string, cfg: Config, socket: ConsoleSocket, pidFile: bool,
                           works: nat -> bool, k: nat)
    requires w1 == w0.(state := w1.state)
    ensures AcquireOutcome(w1, id, cfg, socket, pidFile, works, k)
            == AcquireOutcome(w0, id, cfg, socket, pidFile, works, k)
  {}

  lemma RestoredAfter(w0: World, w1: World, bundle: string, site: Site, id: string, cfg: Config, es: seq<Entry>,
                      jid: nat, pid: nat)
    requires id !in w0.state && id in w1.state && w1 == WithRecord(w0, id, w1.state[id])
    requires !site.StateTaken? && !site.StateUnsaved? && !site.FinalSave?
    ensures Undisturbed(w1, id, es, site) == CreatedWorld(w0, id, bundle, cfg, es, jid, pid, Some(site))
  {
    assert WithoutState(w1, id) == w0;
  }

  // ----- how far the undo actions lead back from each point of create -----

  function JailUndos(id: string, jid: nat, es: seq<Entry>): seq<Undo> {
    [RemoveState(id)] + [RemoveJail(id, jid)] + [UnmountTargets(Places(es))]
  }

  /** The world without the state, and with the mounts that a failed nullfs preparation leaves. */
  function Undisturbed(w: World, id: string, es: seq<Entry>, site: Site): World {
    if site.NullfsPrepare? then WithoutState(w, id).(mounts := w.mounts + Front(es, site.i)) else WithoutState(w, id)
  }

  function WithJail(w: World, table: Table, ifaces: map<string, nat>, id: string, jid: nat): World {
    w.(mounts := table, jails := w.jails[id := jid], ifaces := ifaces)
  }

  /** The mounts there are when mounting ended with r; a refused mount unwinds, from undo call u on. */
  function MountsLeft(table: Table, es: seq<Entry>, r: MountResult, undoWorks: nat -> bool, u: nat): Table {
    match r
    case Mounted => table + es
    case PrepareFailed(i) => table + Front(es, i)
    case CallFailed(i) => UnmountAll(table + Front(es, i), Places(Front(es, i)), undoWorks, u).0
  }

  function Front(es: seq<Entry>, i: nat): seq<Entry> { if i <= |es| then es[..i] else es }

  lemma {:induction false} StopsWithin(ms: seq<OciMount>, i: nat, works: nat -> bool, k: nat)
    ensures var r := MountOutcome(ms, i, works, k);
            && (r.PrepareFailed? ==> r.i < |ms| && ms[r.i].fstype == "nullfs")
            && (r.CallFailed? ==> r.i < |ms|)
    decreases |ms| - i
  {
    if i < |ms| { StopsWithin(ms, i + 1, works, k + StepCalls(ms[i])); }
  }

  /** What is left at each end of a loop that has made the first i mounts. */
  lemma LeftAt(table: Table, es: seq<Entry>, i: nat, undoWorks: nat -> bool, u: nat)
    requires i <= |es|
    ensures MountsLeft(table, es, PrepareFailed(i), undoWorks, u) == table + es[..i]
    ensures MountsLeft(table, es, CallFailed(i), undoWorks, u)
            == UnmountAll(table + es[..i], Places(es[..i]), undoWorks, u).0
    ensures i == |es| ==> MountsLeft(table, es, Mounted, undoWorks, u) == table + es[..i]
  {}

  lemma OneMore(table: Table, es: seq<Entry>, i: nat)
    requires i < |es|
    ensures table + es[..i] + [es[i]] == table + es[..i + 1]
    ensures Places(es[..i]) + [es[i].at] == Places(es[..i + 1])
  {}

  lemma RollbackState(w: World, id: string)
    ensures RolledBack(w, [RemoveState(id)]) == WithoutState(w, id)
  {
    assert [RemoveState(id)][..0] == [];
  }

  lemma RollbackEntrypoint(w: World, undos: seq<Undo>, pid: nat)
    requires pid !in w.procs
    ensures RolledBack(w.(procs := w.procs + {pid}), undos + [KillEntrypoint(pid)]) == RolledBack(w, undos)
  {
    RollbackPush(w.(procs := w.procs + {pid}), undos, KillEntrypoint(pid));
    assert Undone(w.(procs := w.procs + {pid}), KillEntrypoint(pid)) == w;
  }

  /** Removing the jail and the state leaves whatever the mount table holds by then. */
  lemma RollbackJail(w: World, table: Table, ifaces: map<string, nat>, id: string, jid: nat)
    requires id !in w.jails && forall i | i in w.ifaces :: w.ifaces[i] != jid
    requires ifaces.Keys == w.ifaces.Keys
    requires forall i | i in ifaces :: ifaces[i] == w.ifaces[i] || (ifaces[i] == jid && w.ifaces[i] == HOST)
    ensures RolledBack(WithJail(w, table, ifaces, id, jid), [RemoveState(id)] + [RemoveJail(id, jid)])
            == WithoutState(w, id).(mounts := table)
  {
    RollbackPush(WithJail(w, table, ifaces, id, jid), [RemoveState(id)], RemoveJail(id, jid));
    JailUndone(w.(mounts := table), ifaces, id, jid);
    RollbackState(w.(mounts := table), id);
  }

  lemma RollbackFailedMounts(w: World, es: seq<Entry>, m: MountResult, ok: nat -> bool, u: nat, id: string, jid: nat)
    requires id !in w.jails && forall i | i in w.ifaces :: w.ifaces[i] != jid
    requires !m.Mounted? && m.i < |es|
    ensures AllUndone(ok) ==>
              RolledBack(WithJail(w, MountsLeft(w.mounts, es, m, ok, u), w.ifaces, id, jid),
                         [RemoveState(id)] + [RemoveJail(id, jid)])
              == Undisturbed(w, id, es, MountSite(m).value)
  {
    RollbackJail(w, MountsLeft(w.mounts, es, m, ok, u), w.ifaces, id, jid);
    if AllUndone(ok) { MountThenUnmount(w.mounts, es[..m.i], ok, u); }
  }

  lemma RollbackMounts(w: World, es: seq<Entry>, ifaces: map<string, nat>, id: string, jid: nat)
    requires id !in w.jails && forall i | i in w.ifaces :: w.ifaces[i] != jid
    requires ifaces.Keys == w.ifaces.Keys
    requires forall i | i in ifaces :: ifaces[i] == w.ifaces[i] || (ifaces[i] == jid && w.ifaces[i] == HOST)
    ensures RolledBack(WithJail(w, w.mounts + es, ifaces, id, jid),
                       [RemoveState(id)] + [RemoveJail(id, jid)] + [UnmountTargets(Places(es))])
            == WithoutState(w, id)
  {
    RollbackPush(WithJail(w, w.mounts + es, ifaces, id, jid),
                 [RemoveState(id)] + [RemoveJail(id, jid)], UnmountTargets(Places(es)));
    MountsUndone(WithJail(w, w.mounts, ifaces, id, jid), es);
    RollbackJail(w, w.mounts, ifaces, id, jid);
  }

  lemma RollbackInterfaces(w: World, es: seq<Entry>, vnet: seq<string>, now: World, undos: seq<Undo>, id: string,
                           jid: nat)
    requires id !in w.jails && HOST < jid && forall i | i in w.ifaces :: w.ifaces[i] != jid
    requires now == WithJail(w, w.mounts + es, now.ifaces, id, jid) && MovedIn(w.ifaces, vnet, jid, now.ifaces)
    requires undos == [RemoveState(id)] + [RemoveJail(id, jid)] + [UnmountTargets(Places(es))]
    ensures RolledBack(now, undos + [MoveOut(vnet, jid)]) == WithoutState(w, id)
  {
    RollbackPush(now, undos, MoveOut(vnet, jid));
    InterfacesUndone(now, w.ifaces, vnet, jid);
    RollbackMounts(w, es, w.ifaces, id, jid);
  }

  // ----- what delete leaves -----

  /** What is gone of the container when delete ends there: with its process signalled, if it
      recorded one, then its jail, which gives its interfaces back, then its mounts, then its state. */
  predicate GoneBy(before: World, now: World, id: string, targets: Option<seq<Dir>>, site: Option<DeleteSite>,
                   ok: nat -> bool, u: nat)
    requires id in before.state && before.state[id].Some?
  {
    var pid := before.state[id].value.pid;
    && (pid != 0 ==> forall p | p in now.procs :: p != pid)
    && now.procs <= before.procs && (forall p | p in before.procs && (pid == 0 || p != pid) :: p in now.procs)
    && (if site == Some(NoJail) then now.jails == before.jails && now.ifaces == before.ifaces
        else
          && id in before.jails && now.jails == before.jails - {id} && now.ifaces.Keys == before.ifaces.Keys
          && forall i | i in now.ifaces ::
               now.ifaces[i] == if before.ifaces[i] == before.jails[id] then HOST else before.ifaces[i])
    && (if site in {Some(NoJail), Some(NoConfig), Some(Crash)} then now.mounts == before.mounts
        else targets.Some? && now.mounts == UnmountAll(before.mounts, targets.value, ok, u).0)
    && now.state == if site.None? || site.value.PoststopHook? then before.state - {id} else before.state
  }

  lemma DeletedMeans(w: World, id: string, targets: Option<seq<Dir>>, processes: bool, hooks: nat, works: nat -> bool,
                     k: nat, ok: nat -> bool, u: nat)
    ensures var site := DeleteOutcome(w, id, targets, processes, hooks, works, k, ok, u);
            var now := DeletedWorld(w, id, targets, site, ok, u);
            if site == Some(NoState) || site == Some(StillRunning) then now == w
            else id in w.state && w.state[id].Some? && GoneBy(w, now, id, targets, site, ok, u)
  {
    var w1 := EntrypointSignalled(w, id);
    SignalDecidesNothing(w, id, targets, hooks, works, k + 2, ok, u);
    if CheckOutcome(w, id, processes, works, k).None? {
      ReleasedMeans(w, w1, id, targets, hooks, works, k + 2, ok, u);
    }
  }

  lemma ReleasedMeans(w: World, w1: World, id: string, targets: Option<seq<Dir>>, hooks: nat, works: nat -> bool,
                      k: nat, ok: nat -> bool, u: nat)
    requires id in w.state && w.state[id].Some? && w1 == EntrypointSignalled(w, id)
    ensures var site := ReleaseOutcome(w1, id, targets, hooks, works, k, ok, u);
            GoneBy(w, ReleasedWorld(w1, id, targets, site, ok, u), id, targets, site, ok, u)
  {}

  // ----- where delete looks for the mounts -----

  /** When delete, run in cwd1, unmounts what create, run in cwd0, mounted: always
      for an absolute root path or without mounts; a relative one must be read from
      the bundle directory again. */
  predicate FindsTheMounts(cwd0: Dir, cwd1: Dir, bundle: Path, cfg: Config) {
    || cfg.mounts == []
    || match cfg.root
       case RootPath(p) => p.abs || cwd1 == Resolve(cwd0, bundle)
       case EmptyRoot => cwd1 == Resolve(cwd0, bundle) + ["root"] && forall m | m in cfg.mounts :: !m.dest.abs
       case NoRoot => false
  }

  /** Two directories that agree below different prefixes have the same prefix. */
  lemma SamePrefix(a: Dir, b: Dir, s: Dir)
    ensures a + s == b + s <==> a == b
  {
    if a + s == b + s {
      assert |a + s| == |a| + |s| && |b + s| == |b| + |s|;
      assert (a + s)[..|a|] == a && (b + s)[..|a|] == b;
    }
  }

  lemma CreatePlace(cwd: Dir, bundle: Path, p: Path, d: Path)
    requires !p.abs
    ensures Resolve(cwd, Join(Join(bundle, p), d)) == Resolve(cwd, bundle) + (p.comps + d.comps)
  {}

  lemma SameTarget(cwd0: Dir, cwd1: Dir, bundle: Path, root: Root, d: Path)
    requires !root.NoRoot?
    ensures var mine := if root.EmptyRoot? then Resolve(cwd1, d) else Resolve(cwd1, Join(root.p, d));
            mine == Resolve(cwd0, Join(CreateRoot(bundle, root), d)) <==>
              match root
              case RootPath(p) => p.abs || cwd1 == Resolve(cwd0, bundle)
              case _ => cwd1 == Resolve(cwd0, bundle) + ["root"] && !d.abs
  {
    var b := Resolve(cwd0, bundle);
    match root
    case RootPath(p) =>
      if !p.abs {
        CreatePlace(cwd0, bundle, p, d);
        SamePrefix(cwd1, b, p.comps + d.comps);
      }
    case EmptyRoot =>
      CreatePlace(cwd0, bundle, Path(false, ["root"]), d);
      assert b + (["root"] + d.comps) == (b + ["root"]) + d.comps;
      SamePrefix(cwd1, b + ["root"], d.comps);
  }

  /** delete's targets are create's destinations exactly under the condition above. */
  lemma SameTargets(cwd0: Dir, cwd1: Dir, bundle: Path, cfg: Config)
    ensures DeleteTargets(cwd1, cfg.root, cfg.mounts)
            == Some(Places(EntriesOf(cwd0, CreateRoot(bundle, cfg.root), cfg.mounts)))
            <==> FindsTheMounts(cwd0, cwd1, bundle, cfg)
  {
    var es := EntriesOf(cwd0, CreateRoot(bundle, cfg.root), cfg.mounts);
    if cfg.mounts == [] {
      assert Places(es) == [];
    } else if !cfg.root.NoRoot? {
      var ts := DeleteTargets(cwd1, cfg.root, cfg.mounts).value;
      forall i | 0 <= i < |cfg.mounts|
        ensures ts[i] == Places(es)[i] <==>
                  match cfg.root
                  case RootPath(p) => p.abs || cwd1 == Resolve(cwd0, bundle)
                  case _ => cwd1 == Resolve(cwd0, bundle) + ["root"] && !cfg.mounts[i].dest.abs
      {
        SameTarget(cwd0, cwd1, bundle, cfg.root, cfg.mounts[i].dest);
      }
      if FindsTheMounts(cwd0, cwd1, bundle, cfg) {
        assert ts == Places(es);
      } else if cfg.root.EmptyRoot? && cwd1 == Resolve(cwd0, bundle) + ["root"] {
        var m :| m in cfg.mounts && m.dest.abs;
        var i :| 0 <= i < |cfg.mounts| && cfg.mounts[i] == m;
        assert ts[i] != Places(es)[i];
      } else {
        assert ts[0] != Places(es)[0];
      }
    }
  }

  /** What a container holds when its program has ended: all of it but the process. */
  predicate HeldAfterExit(w0: World, w: World, id: string, jid: nat, pid: nat, es: seq<Entry>, vnet: seq<string>) {
    && id in w.state && w.state[id].Some? && (w.state[id].value.pid == 0 || w.state[id].value.pid == pid)
    && w.state == w0.state[id := w.state[id]]
    && w.jails == w0.jails[id := jid]
    && w.mounts == w0.mounts + es
    && MovedIn(w0.ifaces, vnet, jid, w.ifaces)
    && w.procs == w0.procs
  }

  lemma BackToStart(w0: World, before: World, w: World, id: string, jid: nat, pid: nat, es: seq<Entry>,
                    vnet: seq<string>)
    requires Unclaimed(w0, id, jid, pid) && HeldAfterExit(w0, before, id, jid, pid, es, vnet)
    requires w == JailGone(before, id, jid).(state := before.state - {id}, mounts := w0.mounts,
                                             procs := Signalled(before.procs, before.state[id].value.pid))
    ensures w == w0
  {
    JailUndone(w0, before.ifaces, id, jid);
    assert w.ifaces == w0.ifaces;
    assert w.state == w0.state;
    assert w.procs == w0.procs;
  }

  // ----- delete restores nothing where it does not find the mounts -----

  /** What delete, run in cwd1, unmounts would take away, without being refused, exactly what
      create, run in cwd0, mounted, if nothing else were mounted. */
  predicate Unwinds(cwd0: Dir, cwd1: Dir, bundle: Path, cfg: Config) {
    var targets := DeleteTargets(cwd1, cfg.root, cfg.mounts);
    && targets.Some?
    && UnmountAll(EntriesOf(cwd0, CreateRoot(bundle, cfg.root), cfg.mounts), targets.value, Always(), 0) == ([], None)
  }

  /** delete gives the mount table back, if and only if its targets unwind create's mounts;
      neither what was mounted before nor which calls work plays a part in that. */
  lemma TableRestoredWhenUnwound(table: Table, cwd0: Dir, cwd1: Dir, bundle: Path, cfg: Config, ok: nat -> bool, k: nat)
    requires AllUndone(ok)
    ensures var targets := DeleteTargets(cwd1, cfg.root, cfg.mounts);
            var es := EntriesOf(cwd0, CreateRoot(bundle, cfg.root), cfg.mounts);
            targets.Some? && UnmountAll(table + es, targets.value, ok, k) == (table, None)
            <==> Unwinds(cwd0, cwd1, bundle, cfg)
  {
    var es := EntriesOf(cwd0, CreateRoot(bundle, cfg.root), cfg.mounts);
    if Unwinds(cwd0, cwd1, bundle, cfg) {
      var ts := DeleteTargets(cwd1, cfg.root, cfg.mounts).value;
      SameWhenWorking(es, ts, Always(), 0, ok, k);
      UnmountAllAbove(table, es, ts, ok, k);
    } else {
      MissedMountsStay(table, cwd0, cwd1, bundle, cfg, ok, k);
    }
  }

  /** Where the targets do not unwind the mounts, delete crashes, or an unmount is refused, or
      the table it leaves is not the one before create, whichever calls work. */
  lemma MissedMountsStay(table: Table, cwd0: Dir, cwd1: Dir, bundle: Path, cfg: Config, ok: nat -> bool, k: nat)
    requires !Unwinds(cwd0, cwd1, bundle, cfg)
    ensures var targets := DeleteTargets(cwd1, cfg.root, cfg.mounts);
            var es := EntriesOf(cwd0, CreateRoot(bundle, cfg.root), cfg.mounts);
            targets.None? || UnmountAll(table + es, targets.value, ok, k) != (table, None)
  {
    var targets := DeleteTargets(cwd1, cfg.root, cfg.mounts);
    var es := EntriesOf(cwd0, CreateRoot(bundle, cfg.root), cfg.mounts);
    if targets.Some? && UnmountAll(table + es, targets.value, ok, k) == (table, None) {
      UnmountAllWithin(table, es, targets.value, ok, k);
      SameWhenWorking(es, targets.value, ok, k, Always(), 0);
    }
  }

  /** Targets that unwind the mounts are the places of the mounts, each as often as it is one. */
  lemma UnwindsSamePlaces(cwd0: Dir, cwd1: Dir, bundle: Path, cfg: Config)
    requires Unwinds(cwd0, cwd1, bundle, cfg)
    ensures multiset(DeleteTargets(cwd1, cfg.root, cfg.mounts).value)
            == multiset(Places(EntriesOf(cwd0, CreateRoot(bundle, cfg.root), cfg.mounts)))
  {
    var es := EntriesOf(cwd0, CreateRoot(bundle, cfg.root), cfg.mounts);
    assert [] + es == es;
    RestoredMeansSamePlaces([], es, DeleteTargets(cwd1, cfg.root, cfg.mounts).value, Always(), 0);
  }

  /** Delete that finds the mounts unwinds them; with destinations of one kind only then. */
  lemma UnwindsWhenFound(cwd0: Dir, cwd1: Dir, bundle: Path, cfg: Config)
    ensures FindsTheMounts(cwd0, cwd1, bundle, cfg) ==> Unwinds(cwd0, cwd1, bundle, cfg)
    ensures OneKind(cfg) && Unwinds(cwd0, cwd1, bundle, cfg) ==> FindsTheMounts(cwd0, cwd1, bundle, cfg)
  {
    var es := EntriesOf(cwd0, CreateRoot(bundle, cfg.root), cfg.mounts);
    if FindsTheMounts(cwd0, cwd1, bundle, cfg) {
      SameTargets(cwd0, cwd1, bundle, cfg);
      MountThenUnmount([], es, Always(), 0);
      assert [] + es == es;
    } else if OneKind(cfg) && Unwinds(cwd0, cwd1, bundle, cfg) {
      var ts := DeleteTargets(cwd1, cfg.root, cfg.mounts).value;
      var a, b, rests := TargetsBelow(cwd0, cwd1, bundle, cfg);
      UnwindsSamePlaces(cwd0, cwd1, bundle, cfg);
      SamePlacesSamePrefix(ts, a, Places(es), b, rests);
    }
  }

  /** The destinations are all absolute or all relative; this only matters for an empty root path. */
  predicate OneKind(cfg: Config) {
    cfg.root.EmptyRoot? ==>
      || (forall m | m in cfg.mounts :: m.dest.abs)
      || (forall m | m in cfg.mounts :: !m.dest.abs)
  }

  /** Every directory of the list lies at the same place below a prefix. */
  predicate Below(ts: seq<Dir>, prefix: Dir, rests: seq<Dir>) {
    |ts| == |rests| && forall i | 0 <= i < |ts| :: ts[i] == prefix + rests[i]
  }

  lemma {:induction false} Longest(rests: seq<Dir>) returns (i: nat)
    requires rests != []
    ensures i < |rests| && forall j | 0 <= j < |rests| :: |rests[j]| <= |rests[i]|
  {
    i := 0;
    if |rests| > 1 {
      var j := Longest(rests[1..]);
      i := if |rests[1..][j]| >= |rests[0]| then j + 1 else 0;
      forall k | 0 <= k < |rests| ensures |rests[k]| <= |rests[i]| {
        if k > 0 { assert rests[k] == rests[1..][k - 1]; }
      }
    }
  }

  lemma PrefixNotLonger(ts: seq<Dir>, a: Dir, us: seq<Dir>, b: Dir, rests: seq<Dir>)
    requires Below(ts, a, rests) && Below(us, b, rests) && rests != [] && forall t | t in ts :: t in us
    ensures |a| <= |b|
  {
    var i := Longest(rests);
    assert ts[i] in ts;
    var j :| 0 <= j < |us| && us[j] == ts[i];
    assert |ts[i]| == |a| + |rests[i]| && |us[j]| == |b| + |rests[j]|;
  }

  /** The same places below two prefixes are the same directories only if the prefixes are. */
  lemma SamePlacesSamePrefix(ts: seq<Dir>, a: Dir, us: seq<Dir>, b: Dir, rests: seq<Dir>)
    requires Below(ts, a, rests) && Below(us, b, rests) && rests != [] && multiset(ts) == multiset(us)
    ensures a == b
  {
    forall t ensures t in ts <==> t in us {
      assert t in ts <==> t in multiset(ts);
      assert t in us <==> t in multiset(us);
    }
    PrefixNotLonger(ts, a, us, b, rests);
    PrefixNotLonger(us, b, ts, a, rests);
    assert ts[0] in ts;
    var j :| 0 <= j < |us| && us[j] == ts[0];
    assert (a + rests[0])[..|a|] == a && (b + rests[j])[..|b|] == b;
  }

  /** What delete prefixes to the destinations it unmounts, and create to those it mounted. */
  lemma TargetsBelow(cwd0: Dir, cwd1: Dir, bundle: Path, cfg: Config) returns (a: Dir, b: Dir, rests: seq<Dir>)
    requires OneKind(cfg) && cfg.mounts != [] && !cfg.root.NoRoot? && !FindsTheMounts(cwd0, cwd1, bundle, cfg)
    ensures |rests| == |cfg.mounts| && a != b
    ensures Below(DeleteTargets(cwd1, cfg.root, cfg.mounts).value, a, rests)
    ensures Below(Places(EntriesOf(cwd0, CreateRoot(bundle, cfg.root), cfg.mounts)), b, rests)
  {
    match cfg.root
    case RootPath(p) =>
      a, b := cwd1, Resolve(cwd0, bundle);
      rests := RelativeTargets(cwd0, cwd1, bundle, p, cfg.mounts);
    case EmptyRoot =>
      assert cfg.mounts[0] in cfg.mounts;
      a, b := if cfg.mounts[0].dest.abs then [] else cwd1, Resolve(cwd0, bundle) + ["root"];
      rests := EmptyRootTargets(cwd0, cwd1, bundle, cfg.mounts, cfg.mounts[0].dest.abs);
  }

  lemma RelativeTargets(cwd0: Dir, cwd1: Dir, bundle: Path, p: Path, ms: seq<OciMount>) returns (rests: seq<Dir>)
    requires ms != [] && !p.abs
    ensures |rests| == |ms| && Below(DeleteTargets(cwd1, RootPath(p), ms).value, cwd1, rests)
    ensures Below(Places(EntriesOf(cwd0, CreateRoot(bundle, RootPath(p)), ms)), Resolve(cwd0, bundle), rests)
  {
    rests := seq(|ms|, i requires 0 <= i < |ms| => p.comps + ms[i].dest.comps);
    forall i | 0 <= i < |ms| { CreatePlace(cwd0, bundle, p, ms[i].dest); }
  }

  lemma EmptyRootTargets(cwd0: Dir, cwd1: Dir, bundle: Path, ms: seq<OciMount>, absolute: bool)
    returns (rests: seq<Dir>)
    requires ms != [] && forall m | m in ms :: m.dest.abs == absolute
    ensures |rests| == |ms| && Below(DeleteTargets(cwd1, EmptyRoot, ms).value, if absolute then [] else cwd1, rests)
    ensures Below(Places(EntriesOf(cwd0, CreateRoot(bundle, EmptyRoot), ms)), Resolve(cwd0, bundle) + ["root"], rests)
  {
    var base := Resolve(cwd0, bundle);
    rests := seq(|ms|, i requires 0 <= i < |ms| => ms[i].dest.comps);
    forall i | 0 <= i < |ms|
      ensures Resolve(cwd0, Join(CreateRoot(bundle, EmptyRoot), ms[i].dest)) == base + ["root"] + rests[i]
      ensures Resolve(cwd1, ms[i].dest) == (if absolute then [] else cwd1) + rests[i]
    {
      CreatePlace(cwd0, bundle, Path(false, ["root"]), ms[i].dest);
      assert base + (["root"] + ms[i].dest.comps) == base + ["root"] + ms[i].dest.comps;
      assert ms[i] in ms;
      assert absolute ==> [] + rests[i] == rests[i];
    }
  }

  /** With an empty root path and destinations of both kinds, delete can hit the right mounts
      by coincidence: /root/x and x, mounted below /root, and unmounted from /root/root. */
  lemma MixedDestinationsCanMeet()
    ensures var cfg := Config(true, false, "", EmptyRoot, MIXED, [], 0, 0);
            var bundle := Path(true, []);
            !FindsTheMounts([], ["root", "root"], bundle, cfg) && Unwinds([], ["root", "root"], bundle, cfg)
  {
    var es := EntriesOf([], CreateRoot(Path(true, []), EmptyRoot), MIXED);
    var ts := DeleteTargets(["root", "root"], EmptyRoot, MIXED).value;
    assert MIXED[0] in MIXED && MIXED[1] in MIXED;
    assert es[0].at == ["root", "root", "x"] && es[1].at == ["root", "x"];
    assert ts[0] == ["root", "x"] && ts[1] == ["root", "root"] + ["x"] == ["root", "root", "x"];
    assert ts == [["root", "x"], ["root", "root", "x"]];
    assert es[1].at[1] != es[0].at[1];
    assert es == [es[0], es[1]];
    assert Top(es[..1], ts[1]) == Some(0);
    assert Top(es, ts[1]) == Some(0);
    assert es[..0] + es[1..] == [es[1]];
    assert Unmounted(es, ts[1]) == Some([es[1]]);
    UnmountLast([], es[1]);
    assert [] + [es[1]] == [es[1]];
    assert Unmounted([es[1]], ts[0]) == Some([]);
    assert ts[..1] == [ts[0]] && [ts[0]][..0] == [];
    assert UnmountAll([], [], Always(), 2) == ([], None);
    assert UnmountAll([es[1]], [ts[0]], Always(), 1) == ([], None);
  }

  const MIXED: seq<OciMount> := [OciMount(Path(true, ["root", "x"]), "", "tmpfs"),
                                 OciMount(Path(false, ["x"]), "", "tmpfs")]

  /** One more interface can be moved exactly if the host owned it and it was not named before. */
  lemma MovesNext(before: map<string, nat>, ifaces: seq<string>, i: nat, jid: nat, now: map<string, nat>)
    requires i < |ifaces| && jid != HOST && MovedIn(before, ifaces[..i], jid, now)
    ensures (ifaces[i] in now && now[ifaces[i]] == HOST)
            <==> ifaces[i] in before && before[ifaces[i]] == HOST && ifaces[i] !in ifaces[..i]
    ensures ifaces[i] in now && now[ifaces[i]] == HOST ==> MovedIn(before, ifaces[..i + 1], jid, now[ifaces[i] := jid])
  {
    assert ifaces[..i + 1] == ifaces[..i] + [ifaces[i]];
    assert forall k | 0 <= k < i :: ifaces[k] in ifaces[..i];
  }

  // ----- delete after create -----

  lemma HeldAtExit(w0: World, created: World, w: World, id: string, bundle: string, jid: nat, pid: nat, es: seq<Entry>,
                   cfg: Config, r: Record)
    requires Unclaimed(w0, id, jid, pid) && created == CreatedWorld(w0, id, bundle, cfg, es, jid, pid, None)
    requires MovedIn(w0.ifaces, cfg.vnet, jid, created.ifaces) && (r.pid == 0 || r.pid == pid)
    requires w == WithRecord(created, id, Some(r)).(procs := created.procs - {pid})
    ensures HeldAfterExit(w0, w, id, jid, pid, es, cfg.vnet)
  {
    assert w.procs == w0.procs;
    assert w.state == w0.state[id := Some(r)];
  }

  /** What the stages between the Saves leave, with the state as create has claimed it. */
  lemma EndsCreated(w0: World, w1: World, w: World, id: string, bundle: string, jid: nat, pid: nat, es: seq<Entry>,
                    cfg: Config, failed: Option<Site>, reliable: bool)
    requires id !in w0.state && w1 == WithRecord(w0, id, Some(CreatingRecord(id, bundle)))
    requires Ends(w1, id, jid, es, cfg.vnet, pid, failed, w, w, reliable)
    requires failed != Some(StateTaken) && failed != Some(StateUnsaved) && failed != Some(FinalSave)
    ensures failed.Some? && reliable ==> w == CreatedWorld(w0, id, bundle, cfg, es, jid, pid, failed)
    ensures failed.None? ==> w == CreatedWorld(w0, id, bundle, cfg, es, jid, pid, Some(FinalSave))
    ensures failed.None? ==> id !in w0.jails && MovedIn(w0.ifaces, cfg.vnet, jid, w.ifaces)
  {
    if failed.Some? { RestoredAfter(w0, w1, bundle, failed.value, id, cfg, es, jid, pid); }
  }

  /** The last Save, when it works. */
  lemma LastRecord(w0: World, id: string, bundle: string, cfg: Config, es: seq<Entry>, jid: nat, pid: nat)
    ensures WithRecord(CreatedWorld(w0, id, bundle, cfg, es, jid, pid, Some(FinalSave)), id,
                       Some(CreatedRecord(id, bundle, pid, cfg)))
            == CreatedWorld(w0, id, bundle, cfg, es, jid, pid, None)
  {}

  /** Only the mount table decides how unmounting goes, and it never ends where destroying the jail does. */
  lemma SameForgotten(w: World, w1: World, targets: Option<seq<Dir>>, hooks: nat, works: nat -> bool, k: nat,
                      ok: nat -> bool, u: nat)
    requires w1.mounts == w.mounts
    ensures ForgottenOutcome(w1, targets, hooks, works, k, ok, u)
            == ForgottenOutcome(w, targets, hooks, works, k, ok, u)
    ensures ForgottenOutcome(w, targets, hooks, works, k, ok, u) != Some(NoJail)
    ensures ForgottenOutcome(w, targets, hooks, works, k, ok, u) != Some(NoConfig)
  {}

  /** Signalling the entrypoint does not change how the rest of delete ends. */
  lemma SignalDecidesNothing(w: World, id: string, targets: Option<seq<Dir>>, hooks: nat, works: nat -> bool, k: nat,
                             ok: nat -> bool, u: nat)
    ensures ReleaseOutcome(EntrypointSignalled(w, id), id, targets, hooks, works, k, ok, u)
            == ReleaseOutcome(w, id, targets, hooks, works, k, ok, u)
    ensures var site := ReleaseOutcome(w, id, targets, hooks, works, k, ok, u);
            site != Some(NoState) && site != Some(StillRunning)
  {}

  lemma DeletedIsBack(w0: World, w: World, id: string, jid: nat, pid: nat, es: seq<Entry>, vnet: seq<string>,
                      targets: Option<seq<Dir>>, ok: nat -> bool, u: nat)
    requires Unclaimed(w0, id, jid, pid) && HeldAfterExit(w0, w, id, jid, pid, es, vnet) && targets.Some?
    ensures DeletedWorld(w, id, targets, None, ok, u) == w0
            <==> UnmountAll(w0.mounts + es, targets.value, ok, u).0 == w0.mounts
  {
    var table := UnmountAll(w0.mounts + es, targets.value, ok, u).0;
    var after := JailGone(w, id, jid).(state := w.state - {id}, mounts := table,
                                       procs := Signalled(w.procs, w.state[id].value.pid));
    assert DeletedWorld(w, id, targets, None, ok, u) == after;
    BackToStart(w0, w, after.(mounts := w0.mounts), id, jid, pid, es, vnet);
  }

  /** delete after a create in the world w0 whose program has ended. */
  lemma DeleteAfterExit(w0: World, w: World, id: string, jid: nat, pid: nat, cwd0: Dir, cwd1: Dir, bundle: Path,
                        cfg: Config,
                        works: nat -> bool, k: nat, ok: nat -> bool, u: nat)
    requires AllUndone(ok) && Unclaimed(w0, id, jid, pid)
    requires HeldAfterExit(w0, w, id, jid, pid, EntriesOf(cwd0, CreateRoot(bundle, cfg.root), cfg.mounts), cfg.vnet)
    ensures var targets := DeleteTargets(cwd1, cfg.root, cfg.mounts);
            var site := DeleteOutcome(w, id, targets, false, cfg.poststopHooks, works, k, ok, u);
            var after := DeletedWorld(w, id, targets, site, ok, u);
            && (after == w0 <==> Unwinds(cwd0, cwd1, bundle, cfg) && AllWork(works, k, k + 5))
            && (site.None? && after == w0
                <==> Unwinds(cwd0, cwd1, bundle, cfg) && AllWork(works, k, k + 5 + cfg.poststopHooks))
            && (cfg.root.NoRoot? && cfg.mounts != [] && AllWork(works, k, k + 4) ==>
                  site == Some(Crash) && id !in after.jails && id in after.state)
  {
    var targets := DeleteTargets(cwd1, cfg.root, cfg.mounts);
    var es := EntriesOf(cwd0, CreateRoot(bundle, cfg.root), cfg.mounts);
    TableRestoredWhenUnwound(w0.mounts, cwd0, cwd1, bundle, cfg, ok, u);
    if targets.Some? { DeletedIsBack(w0, w, id, jid, pid, es, cfg.vnet, targets, ok, u); }
    DeleteSucceedsWhen(w, id, targets, false, cfg.poststopHooks, works, k, ok, u);
    DeleteGetsTo(w, id, targets, cfg.poststopHooks, works, k, ok, u);
    SplitWork(works, k, k + 5, k + 5 + cfg.poststopHooks);
  }

  /** How far delete gets, for a container with a state and a jail and without processes. */
  lemma DeleteGetsTo(w: World, id: string, targets: Option<seq<Dir>>, hooks: nat, works: nat -> bool, k: nat,
                     ok: nat -> bool, u: nat)
    requires id in w.state && w.state[id].Some? && id in w.jails
    ensures var site := DeleteOutcome(w, id, targets, false, hooks, works, k, ok, u);
            var after := DeletedWorld(w, id, targets, site, ok, u);
            && (id !in after.state <==> site.None? || site.value.PoststopHook?)
            && (id !in after.state <==>
                  targets.Some? && UnmountAll(w.mounts, targets.value, ok, u).1.None? && AllWork(works, k, k + 5))
            && (id !in after.state ==> after == DeletedWorld(w, id, targets, None, ok, u))
            && (targets.None? && AllWork(works, k, k + 4) ==> site == Some(Crash) && id !in after.jails)
  {
    assert AllWork(works, k, k + 5) <==> works(k) && works(k + 1) && works(k + 2) && works(k + 3) && works(k + 4);
  }
}
