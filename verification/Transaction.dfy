/** What `runj create` acquires on the host, as one value, and its undo actions. */
module Transaction {
  import opened Wrappers
  import opened RunjState
  import opened Mounts

  const HOST := 0 // the jail id of the host itself

  /** `state` maps an id to the content of its state.json, None while the file is
      still empty; the exec fifo and the copied configuration live in the same
      directory.  `jails` maps a jail name to its id, `ifaces` an interface to the
      jail that owns it, `procs` are the live entrypoint processes. */
  datatype World = World(
    state: map<string, Option<Record>>,
    jails: map<string, nat>,
    mounts: Table,
    ifaces: map<string, nat>,
    procs: set<nat>)

  /** A deferred action of create, in the words of its error branch. */
  datatype Undo =
    | RemoveState(id: string)
    | RemoveJail(name: string, jid: nat)
    | UnmountTargets(targets: seq<Dir>)
    | MoveOut(ifaces: seq<string>, jid: nat)
    | KillEntrypoint(pid: nat)

  function Always(): nat -> bool { (n: nat) => true }

  /** Removing a jail gives its interfaces back to the host. */
  function JailGone(w: World, name: string, jid: nat): World {
    w.(jails := w.jails - {name},
       ifaces := map i | i in w.ifaces :: if w.ifaces[i] == jid then HOST else w.ifaces[i])
  }

  /** `ifconfig <iface> -vnet <jid>` for each interface, stopping at the first that is not in the jail. */
  function MovedOut(w: World, ifaces: seq<string>, jid: nat): World
    decreases |ifaces|
  {
    if ifaces == [] then w
    else if ifaces[0] in w.ifaces && w.ifaces[ifaces[0]] == jid
    then MovedOut(w.(ifaces := w.ifaces[ifaces[0] := HOST]), ifaces[1..], jid)
    else w
  }

  /** One undo action that works. */
  function Undone(w: World, u: Undo): World {
    match u
    case RemoveState(id) => w.(state := w.state - {id})
    case RemoveJail(name, jid) => JailGone(w, name, jid)
    case UnmountTargets(ts) => w.(mounts := UnmountAll(w.mounts, ts, Always(), 0).0)
    case MoveOut(ifaces, jid) => MovedOut(w, ifaces, jid)
    case KillEntrypoint(pid) => w.(procs := w.procs - {pid})
  }

  /** Deferred actions run last in, first out. */
  function RolledBack(w: World, undos: seq<Undo>): World
    decreases |undos|
  {
    if undos == [] then w
    else RolledBack(Undone(w, undos[|undos| - 1]), undos[..|undos| - 1])
  }

  lemma RollbackPush(w: World, undos: seq<Undo>, u: Undo)
    ensures RolledBack(w, undos + [u]) == RolledBack(Undone(w, u), undos)
  {
    assert (undos + [u])[..|undos|] == undos;
  }

  // ----- each acquisition is undone by the action registered for it -----

  /** Removing the jail undoes its creation, even after interfaces of the host moved into it. */
  lemma JailUndone(w: World, m: map<string, nat>, name: string, jid: nat)
    requires name !in w.jails && forall i | i in w.ifaces :: w.ifaces[i] != jid
    requires m.Keys == w.ifaces.Keys
    requires forall i | i in m :: m[i] == w.ifaces[i] || (m[i] == jid && w.ifaces[i] == HOST)
    ensures JailGone(w.(jails := w.jails[name := jid], ifaces := m), name, jid) == w
  {
    assert JailGone(w.(jails := w.jails[name := jid], ifaces := m), name, jid).ifaces == w.ifaces;
  }

  lemma MountsUndone(w: World, entries: seq<Entry>)
    ensures Undone(w.(mounts := w.mounts + entries), UnmountTargets(Places(entries))) == w
  {
    MountThenUnmount(w.mounts, entries, Always(), 0);
  }

  /** The first n of the interfaces, moved from the host into the jail. */
  predicate MovedIn(before: map<string, nat>, ifaces: seq<string>, jid: nat, after: map<string, nat>) {
    && after.Keys == before.Keys
    && (forall i | i in ifaces :: i in before && before[i] == HOST && after[i] == jid)
    && (forall i | i in before && i !in ifaces :: after[i] == before[i])
    && (forall k, l | 0 <= k < l < |ifaces| :: ifaces[k] != ifaces[l])
  }

  lemma {:induction false} InterfacesUndone(w: World, before: map<string, nat>, ifaces: seq<string>, jid: nat)
    requires MovedIn(before, ifaces, jid, w.ifaces) && jid != HOST
    ensures MovedOut(w, ifaces, jid) == w.(ifaces := before)
    decreases |ifaces|
  {
    if ifaces == [] {
      assert w.ifaces == before;
    } else {
      var w1 := w.(ifaces := w.ifaces[ifaces[0] := HOST]);
      InterfacesUndone(w1, before, ifaces[1..], jid);
    }
  }

  /** Who owns what after all the interfaces were moved. */
  function Owned(before: map<string, nat>, ifaces: seq<string>, jid: nat): map<string, nat> {
    map i | i in before :: if i in ifaces then jid else before[i]
  }

  /** What create holds once it has acquired everything. */
  function Acquired(w: World, name: string, jid: nat, entries: seq<Entry>, ifaces: seq<string>, pid: nat): World {
    w.(jails := w.jails[name := jid], mounts := w.mounts + entries,
       ifaces := Owned(w.ifaces, ifaces, jid), procs := w.procs + {pid})
  }

  // ----- undo calls that may fail -----

  /** Moving out when the k-th call is the next: it ends at the first call that fails or
      interface that is not in the jail.  With the world, the number of the call after it. */
  function TryMoveOut(w: World, ifaces: seq<string>, jid: nat, ok: nat -> bool, k: nat): (World, nat)
    decreases |ifaces|
  {
    if ifaces == [] then (w, k)
    else if ok(k) && ifaces[0] in w.ifaces && w.ifaces[ifaces[0]] == jid
    then TryMoveOut(w.(ifaces := w.ifaces[ifaces[0] := HOST]), ifaces[1..], jid, ok, k + 1)
    else (w, k + 1)
  }

  function TryUndo(w: World, u: Undo, ok: nat -> bool, k: nat): (World, nat) {
    match u
    case UnmountTargets(ts) => (w.(mounts := UnmountAll(w.mounts, ts, ok, k).0), k + |ts|)
    case MoveOut(ifaces, jid) => TryMoveOut(w, ifaces, jid, ok, k)
    case _ => (if ok(k) then Undone(w, u) else w, k + 1)
  }

  /** Last in, first out, and an action that fails does not keep the others from running. */
  function TryRollBack(w: World, undos: seq<Undo>, ok: nat -> bool, k: nat): (World, nat)
    decreases |undos|
  {
    if undos == [] then (w, k)
    else
      var (w1, k1) := TryUndo(w, undos[|undos| - 1], ok, k);
      TryRollBack(w1, undos[..|undos| - 1], ok, k1)
  }

  /** These interfaces were in the jail and are back on the host; no other has moved. */
  predicate Back(before: map<string, nat>, ifaces: seq<string>, jid: nat, now: map<string, nat>) {
    && now.Keys == before.Keys
    && (forall i | i in now :: now[i] == if i in ifaces then HOST else before[i])
    && (forall i | i in ifaces :: i in before && before[i] == jid)
  }

  lemma OneMoreBack(before: map<string, nat>, first: string, ifaces: seq<string>, jid: nat, now: map<string, nat>)
    requires jid != HOST && first in before && before[first] == jid
    requires Back(before[first := HOST], ifaces, jid, now)
    ensures Back(before, [first] + ifaces, jid, now)
  {
    assert forall i :: i in [first] + ifaces <==> i == first || i in ifaces;
  }

  /** Moving out ended in now with the next call k1, when the first n of the interfaces came back. */
  predicate MovesStop(w: World, ifaces: seq<string>, jid: nat, ok: nat -> bool, k: nat, now: World, k1: nat, n: nat) {
    && n <= |ifaces| && now.(ifaces := w.ifaces) == w
    && Back(w.ifaces, ifaces[..n], jid, now.ifaces)
    && (n < |ifaces| ==> !ok(k + n) || ifaces[n] !in w.ifaces || w.ifaces[ifaces[n]] != jid)
    && k1 == if n < |ifaces| then k + n + 1 else k + n
  }

  lemma OneMoreMoved(w: World, ifaces: seq<string>, jid: nat, ok: nat -> bool, k: nat, now: World, k1: nat, m: nat)
    requires jid != HOST && ifaces != [] && ifaces[0] in w.ifaces && w.ifaces[ifaces[0]] == jid
    requires forall a | 0 < a < |ifaces| :: ifaces[a] != ifaces[0]
    requires MovesStop(w.(ifaces := w.ifaces[ifaces[0] := HOST]), ifaces[1..], jid, ok, k + 1, now, k1, m)
    ensures MovesStop(w, ifaces, jid, ok, k, now, k1, m + 1)
  {
    assert ifaces[..m + 1] == [ifaces[0]] + ifaces[1..][..m];
    OneMoreBack(w.ifaces, ifaces[0], ifaces[1..][..m], jid, now.ifaces);
    assert m < |ifaces[1..]| ==> ifaces[1..][m] == ifaces[m + 1];
  }

  /** The interfaces that are back are the first n, up to the one that was refused. */
  lemma {:induction false} MovesOutAPrefix(w: World, ifaces: seq<string>, jid: nat, ok: nat -> bool, k: nat)
    returns (n: nat)
    requires jid != HOST && forall a, b | 0 <= a < b < |ifaces| :: ifaces[a] != ifaces[b]
    ensures var (now, k1) := TryMoveOut(w, ifaces, jid, ok, k);
            MovesStop(w, ifaces, jid, ok, k, now, k1, n)
    decreases |ifaces|
  {
    n := 0;
    if ifaces != [] && ok(k) && ifaces[0] in w.ifaces && w.ifaces[ifaces[0]] == jid {
      var w1 := w.(ifaces := w.ifaces[ifaces[0] := HOST]);
      var m := MovesOutAPrefix(w1, ifaces[1..], jid, ok, k + 1);
      var (now, k1) := TryMoveOut(w1, ifaces[1..], jid, ok, k + 1);
      OneMoreMoved(w, ifaces, jid, ok, k, now, k1, m);
      n := m + 1;
    }
  }

  // ----- create's deferred actions, each of which may fail -----

  /** In the order in which create registers them. */
  function AllUndos(id: string, jid: nat, targets: seq<Dir>, vnet: seq<string>, pid: nat): seq<Undo> {
    [RemoveState(id), RemoveJail(id, jid), UnmountTargets(targets), MoveOut(vnet, jid), KillEntrypoint(pid)]
  }

  /** The number of the call after moving out, when the first n interfaces came back. */
  function AfterMoves(k: nat, vnet: seq<string>, n: nat): nat { if n < |vnet| then k + n + 1 else k + n }

  /** Interfaces of the jail are on the host: all of them, or the first n of these. */
  predicate Returned(before: map<string, nat>, now: map<string, nat>, vnet: seq<string>, n: nat, jid: nat, all: bool)
    requires n <= |vnet|
  {
    && now.Keys == before.Keys
    && forall i | i in now :: now[i] == if before[i] == jid && (all || i in vnet[..n]) then HOST else before[i]
  }

  /** What the first m of create's deferred actions leave, from call k up to call k1: each of them
      is tried, whatever the others did.  The last two calls are for the jail and the state, the
      first one is for the process, and n is the number of interfaces that came back. */
  predicate TriedEach(w: World, id: string, jid: nat, targets: seq<Dir>, vnet: seq<string>, pid: nat, m: nat,
                      ok: nat -> bool, k: nat, w1: World, k1: nat, n: nat)
    requires 1 <= m <= 5
  {
    var moves := if m == 5 then k + 1 else k;
    && n <= |vnet| && (m < 4 ==> n == 0)
    && k1 == (if m == 1 then k + 1 else if m == 2 then k + 2 else if m == 3 then k + |targets| + 2
              else AfterMoves(moves, vnet, n) + |targets| + 2)
    && w1.state == (if ok(k1 - 1) then w.state - {id} else w.state)
    && w1.jails == (if m >= 2 && ok(k1 - 2) then w.jails - {id} else w.jails)
    && w1.mounts == (if m >= 3 then UnmountAll(w.mounts, targets, ok, k1 - 2 - |targets|).0 else w.mounts)
    && Returned(w.ifaces, w1.ifaces, vnet, n, jid, m >= 2 && ok(k1 - 2))
    && (m >= 4 && n < |vnet| ==> !ok(moves + n) || vnet[n] !in w.ifaces || w.ifaces[vnet[n]] != jid)
    && w1.procs == (if m == 5 && ok(k) then w.procs - {pid} else w.procs)
  }

  lemma TryPush(w: World, undos: seq<Undo>, u: Undo, ok: nat -> bool, k: nat)
    ensures var (w1, k1) := TryUndo(w, u, ok, k);
            TryRollBack(w, undos + [u], ok, k) == TryRollBack(w1, undos, ok, k1)
  {
    assert (undos + [u])[..|undos|] == undos;
  }

  /** The first m + 1 actions: the last of them, and then the first m. */
  lemma LastFirst(w: World, us: seq<Undo>, m: nat, ok: nat -> bool, k: nat)
    requires m < |us|
    ensures var (w1, k1) := TryUndo(w, us[m], ok, k);
            TryRollBack(w, us[..m + 1], ok, k) == TryRollBack(w1, us[..m], ok, k1)
  {
    assert us[..m + 1] == us[..m] + [us[m]];
    TryPush(w, us[..m], us[m], ok, k);
  }

  lemma StateTried(w: World, id: string, jid: nat, targets: seq<Dir>, vnet: seq<string>, pid: nat,
                   ok: nat -> bool, k: nat)
    requires jid != HOST
    ensures var (w1, k1) := TryRollBack(w, AllUndos(id, jid, targets, vnet, pid)[..1], ok, k);
            TriedEach(w, id, jid, targets, vnet, pid, 1, ok, k, w1, k1, 0)
  {
    LastFirst(w, AllUndos(id, jid, targets, vnet, pid), 0, ok, k);
  }

  lemma JailTried(w: World, id: string, jid: nat, targets: seq<Dir>, vnet: seq<string>, pid: nat,
                  ok: nat -> bool, k: nat)
    requires jid != HOST
    ensures var (w1, k1) := TryRollBack(w, AllUndos(id, jid, targets, vnet, pid)[..2], ok, k);
            TriedEach(w, id, jid, targets, vnet, pid, 2, ok, k, w1, k1, 0)
  {
    var us := AllUndos(id, jid, targets, vnet, pid);
    LastFirst(w, us, 1, ok, k);
    StateTried(TryUndo(w, us[1], ok, k).0, id, jid, targets, vnet, pid, ok, k + 1);
  }

  lemma MountsTried(w: World, id: string, jid: nat, targets: seq<Dir>, vnet: seq<string>, pid: nat,
                    ok: nat -> bool, k: nat)
    requires jid != HOST
    ensures var (w1, k1) := TryRollBack(w, AllUndos(id, jid, targets, vnet, pid)[..3], ok, k);
            TriedEach(w, id, jid, targets, vnet, pid, 3, ok, k, w1, k1, 0)
  {
    var us := AllUndos(id, jid, targets, vnet, pid);
    LastFirst(w, us, 2, ok, k);
    JailTried(TryUndo(w, us[2], ok, k).0, id, jid, targets, vnet, pid, ok, k + |targets|);
  }

  lemma MovesTried(w: World, id: string, jid: nat, targets: seq<Dir>, vnet: seq<string>, pid: nat,
                   ok: nat -> bool, k: nat) returns (n: nat)
    requires jid != HOST && forall a, b | 0 <= a < b < |vnet| :: vnet[a] != vnet[b]
    ensures var (w1, k1) := TryRollBack(w, AllUndos(id, jid, targets, vnet, pid)[..4], ok, k);
            TriedEach(w, id, jid, targets, vnet, pid, 4, ok, k, w1, k1, n)
  {
    var us := AllUndos(id, jid, targets, vnet, pid);
    LastFirst(w, us, 3, ok, k);
    n := MovesOutAPrefix(w, vnet, jid, ok, k);
    var (w1, k1) := TryMoveOut(w, vnet, jid, ok, k);
    MountsTried(w1, id, jid, targets, vnet, pid, ok, k1);
    var (w2, k2) := TryRollBack(w1, us[..3], ok, k1);
    MovedThenTried(w, id, jid, targets, vnet, pid, ok, k, w1, k1, w2, k2, n);
  }

  lemma MovedThenTried(w: World, id: string, jid: nat, targets: seq<Dir>, vnet: seq<string>, pid: nat,
                       ok: nat -> bool, k: nat, w1: World, k1: nat, w2: World, k2: nat, n: nat)
    requires n <= |vnet| && w1.(ifaces := w.ifaces) == w && Back(w.ifaces, vnet[..n], jid, w1.ifaces)
    requires n < |vnet| ==> !ok(k + n) || vnet[n] !in w.ifaces || w.ifaces[vnet[n]] != jid
    requires k1 == AfterMoves(k, vnet, n) && TriedEach(w1, id, jid, targets, vnet, pid, 3, ok, k1, w2, k2, 0)
    requires jid != HOST
    ensures TriedEach(w, id, jid, targets, vnet, pid, 4, ok, k, w2, k2, n)
  {
    assert vnet[..0] == [];
  }

  lemma KillTried(w: World, id: string, jid: nat, targets: seq<Dir>, vnet: seq<string>, pid: nat,
                  ok: nat -> bool, k: nat) returns (n: nat)
    requires jid != HOST && forall a, b | 0 <= a < b < |vnet| :: vnet[a] != vnet[b]
    ensures var (w1, k1) := TryRollBack(w, AllUndos(id, jid, targets, vnet, pid)[..5], ok, k);
            TriedEach(w, id, jid, targets, vnet, pid, 5, ok, k, w1, k1, n)
  {
    var us := AllUndos(id, jid, targets, vnet, pid);
    LastFirst(w, us, 4, ok, k);
    var w1 := TryUndo(w, us[4], ok, k).0;
    n := MovesTried(w1, id, jid, targets, vnet, pid, ok, k + 1);
    var (w2, k2) := TryRollBack(w1, us[..4], ok, k + 1);
    KilledThenTried(w, id, jid, targets, vnet, pid, ok, k, w1, w2, k2, n);
  }

  lemma KilledThenTried(w: World, id: string, jid: nat, targets: seq<Dir>, vnet: seq<string>, pid: nat,
                        ok: nat -> bool, k: nat, w1: World, w2: World, k2: nat, n: nat)
    requires w1 == if ok(k) then w.(procs := w.procs - {pid}) else w
    requires TriedEach(w1, id, jid, targets, vnet, pid, 4, ok, k + 1, w2, k2, n)
    ensures TriedEach(w, id, jid, targets, vnet, pid, 5, ok, k, w2, k2, n)
  {}

  /** However many of the actions are registered, and whichever of them fail: the state is gone
      exactly if its own removal works, the jail exactly if its own does, the process exactly if
      its own does, and unmounting and moving out are tried. */
  lemma EachIsTried(w: World, id: string, jid: nat, targets: seq<Dir>, vnet: seq<string>, pid: nat, m: nat,
                    ok: nat -> bool, k: nat) returns (n: nat)
    requires 1 <= m <= 5 && jid != HOST
    requires m >= 4 ==> forall a, b | 0 <= a < b < |vnet| :: vnet[a] != vnet[b]
    ensures var (w1, k1) := TryRollBack(w, AllUndos(id, jid, targets, vnet, pid)[..m], ok, k);
            TriedEach(w, id, jid, targets, vnet, pid, m, ok, k, w1, k1, n)
  {
    n := 0;
    if m == 1 {
      StateTried(w, id, jid, targets, vnet, pid, ok, k);
    } else if m == 2 {
      JailTried(w, id, jid, targets, vnet, pid, ok, k);
    } else if m == 3 {
      MountsTried(w, id, jid, targets, vnet, pid, ok, k);
    } else if m == 4 {
      n := MovesTried(w, id, jid, targets, vnet, pid, ok, k);
    } else {
      n := KillTried(w, id, jid, targets, vnet, pid, ok, k);
    }
  }

  ghost predicate AllUndone(ok: nat -> bool) { forall n: nat :: ok(n) }

  /** Which call number an unmount has plays no part when none is refused. */
  lemma {:induction false} UnmountAllReliable(table: Table, ts: seq<Dir>, ok: nat -> bool, k: nat, l: nat)
    requires AllUndone(ok)
    ensures UnmountAll(table, ts, ok, k) == UnmountAll(table, ts, Always(), l)
    decreases |ts|
  {
    if ts != [] {
      var n := |ts| - 1;
      UnmountAllReliable(Unmounted(table, ts[n]).GetOr(table), ts[..n], ok, k + 1, l + 1);
    }
  }

  lemma {:induction false} MoveOutReliable(w: World, ifaces: seq<string>, jid: nat, ok: nat -> bool, k: nat)
    requires AllUndone(ok)
    ensures TryMoveOut(w, ifaces, jid, ok, k).0 == MovedOut(w, ifaces, jid)
    decreases |ifaces|
  {
    if ifaces != [] && ifaces[0] in w.ifaces && w.ifaces[ifaces[0]] == jid {
      MoveOutReliable(w.(ifaces := w.ifaces[ifaces[0] := HOST]), ifaces[1..], jid, ok, k + 1);
    }
  }

  /** Undo actions that all work do what they are for. */
  lemma {:induction false} RollBackReliable(w: World, undos: seq<Undo>, ok: nat -> bool, k: nat)
    requires AllUndone(ok)
    ensures TryRollBack(w, undos, ok, k).0 == RolledBack(w, undos)
    decreases |undos|
  {
    if undos != [] {
      var u := undos[|undos| - 1];
      UndoReliable(w, u, ok, k);
      RollBackReliable(Undone(w, u), undos[..|undos| - 1], ok, TryUndo(w, u, ok, k).1);
    }
  }

  lemma UndoReliable(w: World, u: Undo, ok: nat -> bool, k: nat)
    requires AllUndone(ok)
    ensures TryUndo(w, u, ok, k).0 == Undone(w, u)
  {
    match u
    case UnmountTargets(ts) => UnmountAllReliable(w.mounts, ts, ok, k, 0);
    case MoveOut(ifaces, jid) => MoveOutReliable(w, ifaces, jid, ok, k);
    case _ =>
  }
}
