/** Runs of create and delete on any world that leave something behind: one for each
    case of `HostWorlds.LeavesSomething`, and the delete of a container without a root. */
module HostWitnesses {
  import opened Wrappers
  import opened RunjState
  import opened Mounts
  import opened Transaction
  import opened HostCalls
  import opened HostWorlds
  import opened Host

  const HERE: Path := Path(true, ["bundle"])

  /** The Save inside state.Create fails, and the id stays taken. */
  method FirstSaveLeavesTheState(w: World, nextJid: nat, nextPid: nat, id: string, cfg: Config, socket: ConsoleSocket)
    returns (failed: Option<Site>, after: World)
    requires InRange(w, nextJid, nextPid) && id !in w.state
    ensures failed == Some(StateUnsaved) && after == WithRecord(w, id, None) && after != w
  {
    var m := new Machine(w, nextJid, nextPid, n => n != 1, Always());
    var jid, pid;
    failed, jid, pid := m.Create(id, [], HERE, "/bundle", cfg, socket, false);
    after := m.w;
    assert id in after.state;
  }

  /** A missing source of a nullfs mount behind a tmpfs: the tmpfs stays mounted. */
  method NullfsLeavesAMount(w: World, nextJid: nat, nextPid: nat, id: string, root: Path, dest: Path)
    returns (failed: Option<Site>, after: World)
    requires InRange(w, nextJid, nextPid) && id !in w.state && id !in w.jails && root.abs
    ensures failed == Some(NullfsPrepare(1))
    ensures after == w.(mounts := w.mounts + [EntryOf([], root, OciMount(dest, "", "tmpfs"))]) && after != w
  {
    var ms := [OciMount(dest, "", "tmpfs"), OciMount(dest, "/missing", "nullfs")];
    var cfg := Config(true, false, "", RootPath(root), ms, [], 0, 0);
    var works := (n: nat) => n != 5;
    var m := new Machine(w, nextJid, nextPid, works, Always());
    SecondPreparationFails(ms, works);
    NullfsSite(w, id, cfg, NotGiven, false, works, 0, 1);
    var jid, pid;
    failed, jid, pid := m.Create(id, [], HERE, "/bundle", cfg, NotGiven, false);
    after := m.w;
    assert Front(EntriesOf([], root, ms), 1) == [EntryOf([], root, ms[0])];
    assert |after.mounts| == |w.mounts| + 1;
  }

  lemma SecondPreparationFails(ms: seq<OciMount>, works: nat -> bool)
    requires |ms| == 2 && ms[0].fstype == "tmpfs" && ms[1].fstype == "nullfs" && forall n: nat :: works(n) <==> n != 5
    ensures PreparationFails(ms, 1, works, 4)
  {
    assert CallsBefore(ms, 0) == 0;
  }

  /** The Save at the end fails, and everything that was acquired stays. */
  method LastSaveLeavesEverything(w: World, nextJid: nat, nextPid: nat, id: string, cfg: Config, socket: ConsoleSocket,
                                  pidFile: bool)
    returns (failed: Option<Site>, after: World)
    requires InRange(w, nextJid, nextPid) && id !in w.state && Creatable(w, id, cfg, socket)
    ensures failed == Some(FinalSave) && after != w
    ensures after == CreatedWorld(w, id, "/bundle", cfg, EntriesOf([], CreateRoot(HERE, cfg.root), cfg.mounts), nextJid,
                                  nextPid, Some(FinalSave))
  {
    var last := 2 + AcquireCalls(cfg, pidFile);
    var works := (n: nat) => n != last;
    var m := new Machine(w, nextJid, nextPid, works, Always());
    LastSaveSite(w, id, cfg, socket, pidFile, works, 0);
    var jid, pid;
    failed, jid, pid := m.Create(id, [], HERE, "/bundle", cfg, socket, pidFile);
    after := m.w;
    assert id in after.state;
  }

  /** Without a root, delete crashes when the jail is gone and the mount and the state are not. */
  method AbsentRootCrashesDelete(w: World, nextJid: nat, nextPid: nat, id: string, dest: Path)
    returns (created: Option<Site>, deleted: Option<DeleteSite>, after: World)
    requires InRange(w, nextJid, nextPid) && id !in w.state && id !in w.jails
    ensures created == None && deleted == Some(Crash)
    ensures id !in after.jails && id in after.state && after != w
  {
    var cfg := Config(true, false, "", NoRoot, [OciMount(dest, "", "tmpfs")], [], 0, 0);
    var m := new Machine(w, nextJid, nextPid, Always(), Always());
    CreateSucceedsWhen(w, id, cfg, NotGiven, false, Always(), 0);
    created, deleted := m.CreateThenDelete(id, [], HERE, "/bundle", cfg, NotGiven, false, Running, true, []);
    after := m.w;
  }
}
