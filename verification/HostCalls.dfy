/** Which call of `runj create` and `runj delete` fails, as functions of the world
    before, the configuration and the calls that work: `works(n)` decides the n-th
    acquiring call.  Calls in a row whose failures have the same effect count as one. */
module HostCalls {
  import opened Wrappers
  import opened Mounts
  import opened Transaction

  datatype OciMount = OciMount(dest: Path, source: string, fstype: string)

  /** `root` of the configuration: absent, present with an empty path, or a path. */
  datatype Root = NoRoot | EmptyRoot | RootPath(p: Path)

  datatype Config = Config(
    process: bool, terminal: bool, version: string, root: Root,
    mounts: seq<OciMount>, vnet: seq<string>, createHooks: nat, poststopHooks: nat)

  datatype ConsoleSocket = NotGiven | Missing | NotASocket | Socket

  /** Where a create failed. */
  datatype Site =
    | StateTaken | StateUnsaved          // inside state.Create
    | BadConfig | JailSet
    | NullfsPrepare(i: nat) | MountCall(i: nat) | InterfaceMove(i: nat)
    | Entrypoint | PidFile | Hook(i: nat)
    | FinalSave

  datatype MountResult = Mounted | PrepareFailed(i: nat) | CallFailed(i: nat)

  datatype DeleteSite =
    | NoState | StillRunning | NoJail | NoConfig | Crash | UnmountFailed | StateKept | PoststopHook(i: nat)

  /** create needs a process, and a console socket exactly when it has a terminal. */
  predicate ConfigOk(cfg: Config, socket: ConsoleSocket) {
    cfg.process && (if cfg.terminal then socket == Socket else socket == NotGiven)
  }

  /** Interfaces the host owns, each named once. */
  predicate Movable(owners: map<string, nat>, ifaces: seq<string>) {
    && (forall i | i in ifaces :: i in owners && owners[i] == HOST)
    && (forall k, l | 0 <= k < l < |ifaces| :: ifaces[k] != ifaces[l])
  }

  // ----- paths -----

  /** create's root path: `root` below the bundle by default, a relative one below the bundle. */
  function CreateRoot(bundle: Path, root: Root): Path {
    match root
    case RootPath(p) => if p.abs then p else Join(bundle, p)
    case _ => Join(bundle, Path(false, ["root"]))
  }

  function EntryOf(cwd: Dir, root: Path, m: OciMount): Entry {
    Entry(Resolve(cwd, Join(root, m.dest)), if m.source == "" then "null" else m.source, m.fstype)
  }

  function EntriesOf(cwd: Dir, root: Path, ms: seq<OciMount>): (es: seq<Entry>)
    ensures |es| == |ms|
    ensures forall i | 0 <= i < |ms| :: es[i] == EntryOf(cwd, root, ms[i])
  {
    seq(|ms|, i requires 0 <= i < |ms| => EntryOf(cwd, root, ms[i]))
  }

  /** Where delete unmounts; None when it dereferences an absent root. */
  function DeleteTargets(cwd: Dir, root: Root, ms: seq<OciMount>): Option<seq<Dir>> {
    if ms == [] then Some([])
    else
      match root
      case NoRoot => None
      case EmptyRoot => Some(seq(|ms|, i requires 0 <= i < |ms| => Resolve(cwd, ms[i].dest)))
      case RootPath(p) => Some(seq(|ms|, i requires 0 <= i < |ms| => Resolve(cwd, Join(p, ms[i].dest))))
  }

  // ----- the calls of create -----

  /** All the calls with these numbers work. */
  ghost predicate AllWork(works: nat -> bool, from: nat, to: nat) { forall n: nat | from <= n < to :: works(n) }

  lemma SplitWork(works: nat -> bool, from: nat, mid: nat, to: nat)
    requires from <= mid <= to
    ensures AllWork(works, from, to) <==> AllWork(works, from, mid) && AllWork(works, mid, to)
  {}

  /** The first of two stages that fails. */
  function Then<T>(a: Option<T>, b: Option<T>): Option<T> { if a.Some? then a else b }

  function ClaimOutcome(w: World, id: string, works: nat -> bool, k: nat): Option<Site> {
    if id in w.state || !works(k) then Some(StateTaken)
    else if !works(k + 1) then Some(StateUnsaved)
    else None
  }

  function JailOutcome(w: World, id: string, cfg: Config, socket: ConsoleSocket, works: nat -> bool,
                       k: nat): Option<Site> {
    if !works(k) || !ConfigOk(cfg, socket) then Some(BadConfig)
    else if !works(k + 1) || id in w.jails then Some(JailSet)
    else None
  }

  /** How one mount ends when call k is the next one; the preparation of a nullfs
      mount looks at the source and then makes the destination. */
  datatype Step = NotPrepared | Refused | Done

  function StepOutcome(m: OciMount, works: nat -> bool, k: nat): Step {
    var n := if m.fstype == "nullfs" then k + 2 else k;
    if m.fstype == "nullfs" && !(works(k) && works(k + 1)) then NotPrepared
    else if works(n) then Done else Refused
  }

  function StepCalls(m: OciMount): nat { if m.fstype == "nullfs" then 3 else 1 }

  /** How mounting ends when call k is the next one. */
  function MountOutcome(ms: seq<OciMount>, i: nat, works: nat -> bool, k: nat): MountResult
    decreases |ms| - i
  {
    if i >= |ms| then Mounted
    else
      match StepOutcome(ms[i], works, k)
      case NotPrepared => PrepareFailed(i)
      case Refused => CallFailed(i)
      case Done => MountOutcome(ms, i + 1, works, k + StepCalls(ms[i]))
  }

  /** The calls that mounting takes from the i-th mount on, when all of them work. */
  function MountCalls(ms: seq<OciMount>, i: nat): nat
    decreases |ms| - i
  {
    if i >= |ms| then 0 else StepCalls(ms[i]) + MountCalls(ms, i + 1)
  }

  function MountSite(r: MountResult): Option<Site> {
    match r
    case Mounted => None
    case PrepareFailed(i) => Some(NullfsPrepare(i))
    case CallFailed(i) => Some(MountCall(i))
  }

  /** The first interface from the i-th on that does not move: its call fails, or ifconfig
      finds only what the host owns, which an interface that has moved is not. */
  function InterfaceOutcome(owners: map<string, nat>, ifaces: seq<string>, i: nat, works: nat -> bool,
                            k: nat): Option<nat>
    decreases |ifaces| - i
  {
    if i >= |ifaces| then None
    else if !works(k) || ifaces[i] !in owners || owners[ifaces[i]] != HOST || ifaces[i] in ifaces[..i] then Some(i)
    else InterfaceOutcome(owners, ifaces, i + 1, works, k + 1)
  }

  function InterfaceSite(r: Option<nat>): Option<Site> { if r.None? then None else Some(InterfaceMove(r.value)) }

  /** The first hook from the h-th on whose call fails. */
  function HookOutcome(n: nat, h: nat, works: nat -> bool, k: nat): Option<nat>
    decreases n - h
  {
    if h >= n then None else if !works(k) then Some(h) else HookOutcome(n, h + 1, works, k + 1)
  }

  function EntrypointOutcome(cfg: Config, pidFile: bool, works: nat -> bool, k: nat): Option<Site> {
    if !works(k) then Some(Entrypoint)
    else FinishOutcome(cfg, pidFile, works, k + 1)
  }

  /** The pid file and the hooks. */
  function FinishOutcome(cfg: Config, pidFile: bool, works: nat -> bool, k: nat): Option<Site> {
    if pidFile && !works(k) then Some(PidFile)
    else
      match HookOutcome(cfg.createHooks, 0, works, if pidFile then k + 1 else k)
      case None => None
      case Some(h) => Some(Hook(h))
  }

  function EntrypointCalls(cfg: Config, pidFile: bool): nat {
    1 + (if pidFile then 1 else 0) + cfg.createHooks
  }

  /** The calls between the two Saves of a create that succeeds. */
  function AcquireCalls(cfg: Config, pidFile: bool): nat {
    2 + MountCalls(cfg.mounts, 0) + |cfg.vnet| + EntrypointCalls(cfg, pidFile)
  }

  /** The jail and its mounts. */
  function JailedOutcome(w: World, id: string, cfg: Config, socket: ConsoleSocket, works: nat -> bool,
                         k: nat): Option<Site> {
    Then(JailOutcome(w, id, cfg, socket, works, k), MountSite(MountOutcome(cfg.mounts, 0, works, k + 2)))
  }

  /** Interfaces, the entrypoint process, the pid file and the hooks. */
  function RestOutcome(owners: map<string, nat>, cfg: Config, pidFile: bool, works: nat -> bool, k: nat): Option<Site> {
    Then(InterfaceSite(InterfaceOutcome(owners, cfg.vnet, 0, works, k)),
         EntrypointOutcome(cfg, pidFile, works, k + |cfg.vnet|))
  }

  function AcquireOutcome(w: World, id: string, cfg: Config, socket: ConsoleSocket, pidFile: bool, works: nat -> bool,
                          k: nat): Option<Site> {
    Then(JailedOutcome(w, id, cfg, socket, works, k),
         RestOutcome(w.ifaces, cfg, pidFile, works, k + 2 + MountCalls(cfg.mounts, 0)))
  }

  /** Where create fails when call k is its first, or None when it succeeds. */
  function CreateOutcome(w: World, id: string, cfg: Config, socket: ConsoleSocket, pidFile: bool, works: nat -> bool,
                         k: nat): Option<Site> {
    Then(ClaimOutcome(w, id, works, k),
         Then(AcquireOutcome(w, id, cfg, socket, pidFile, works, k + 2),
              if works(k + 2 + AcquireCalls(cfg, pidFile)) then None else Some(FinalSave)))
  }

  // ----- when each stage gets through -----

  lemma {:induction false} MountsWhenAllWork(ms: seq<OciMount>, i: nat, works: nat -> bool, k: nat)
    ensures MountOutcome(ms, i, works, k).Mounted? <==> AllWork(works, k, k + MountCalls(ms, i))
    decreases |ms| - i
  {
    if i < |ms| {
      var n := k + StepCalls(ms[i]);
      MountsWhenAllWork(ms, i + 1, works, n);
      StepDone(ms[i], works, k);
      SplitWork(works, k, n, n + MountCalls(ms, i + 1));
    }
  }

  lemma StepDone(m: OciMount, works: nat -> bool, k: nat)
    ensures StepOutcome(m, works, k).Done? <==> AllWork(works, k, k + StepCalls(m))
  {
    if AllWork(works, k, k + StepCalls(m)) { assert works(k + StepCalls(m) - 1); }
  }

  /** The calls that mounting takes before the i-th mount. */
  function CallsBefore(ms: seq<OciMount>, i: nat): nat {
    if i == 0 || i > |ms| then 0 else CallsBefore(ms, i - 1) + StepCalls(ms[i - 1])
  }

  /** The preparation of mount i is what fails. */
  ghost predicate PreparationFails(ms: seq<OciMount>, i: nat, works: nat -> bool, k: nat) {
    && i < |ms| && ms[i].fstype == "nullfs"
    && AllWork(works, k, k + CallsBefore(ms, i))
    && !(works(k + CallsBefore(ms, i)) && works(k + CallsBefore(ms, i) + 1))
  }

  lemma {:induction false} MountsReach(ms: seq<OciMount>, i: nat, works: nat -> bool, k: nat)
    requires i <= |ms| && AllWork(works, k, k + CallsBefore(ms, i))
    ensures MountOutcome(ms, 0, works, k) == MountOutcome(ms, i, works, k + CallsBefore(ms, i))
  {
    if i > 0 {
      var n := k + CallsBefore(ms, i - 1);
      SplitWork(works, k, n, k + CallsBefore(ms, i));
      MountsReach(ms, i - 1, works, k);
      StepDone(ms[i - 1], works, n);
    }
  }

  /** What a mount that stops at i has behind it. */
  lemma {:induction false} MountsStop(ms: seq<OciMount>, j: nat, works: nat -> bool, k: nat, i: nat)
    requires j <= |ms| && AllWork(works, k, k + CallsBefore(ms, j))
    requires MountOutcome(ms, j, works, k + CallsBefore(ms, j)) == PrepareFailed(i)
    ensures PreparationFails(ms, i, works, k)
    decreases |ms| - j
  {
    var n := k + CallsBefore(ms, j);
    if StepOutcome(ms[j], works, n).Done? {
      StepDone(ms[j], works, n);
      SplitWork(works, k, n, k + CallsBefore(ms, j + 1));
      MountsStop(ms, j + 1, works, k, i);
    }
  }

  lemma PrepareFailsExactly(ms: seq<OciMount>, i: nat, works: nat -> bool, k: nat)
    ensures MountOutcome(ms, 0, works, k) == PrepareFailed(i) <==> PreparationFails(ms, i, works, k)
  {
    if MountOutcome(ms, 0, works, k) == PrepareFailed(i) { MountsStop(ms, 0, works, k, i); }
    if PreparationFails(ms, i, works, k) { MountsReach(ms, i, works, k); }
  }

  /** Mount i is refused: the calls before the mount itself work, and that one does not. */
  ghost predicate MountRefused(ms: seq<OciMount>, i: nat, works: nat -> bool, k: nat) {
    && i < |ms|
    && var n := k + CallsBefore(ms, i + 1) - 1;
       AllWork(works, k, n) && !works(n)
  }

  lemma StepRefused(m: OciMount, works: nat -> bool, k: nat)
    ensures StepOutcome(m, works, k).Refused?
            <==> AllWork(works, k, k + StepCalls(m) - 1) && !works(k + StepCalls(m) - 1)
  {
    assert StepCalls(m) == 3 ==> (AllWork(works, k, k + 2) <==> works(k) && works(k + 1));
  }

  lemma {:induction false} RefusalStops(ms: seq<OciMount>, j: nat, works: nat -> bool, k: nat, i: nat)
    requires j <= |ms| && AllWork(works, k, k + CallsBefore(ms, j))
    requires MountOutcome(ms, j, works, k + CallsBefore(ms, j)) == CallFailed(i)
    ensures MountRefused(ms, i, works, k)
    decreases |ms| - j
  {
    var n := k + CallsBefore(ms, j);
    StepDone(ms[j], works, n);
    if StepOutcome(ms[j], works, n).Done? {
      SplitWork(works, k, n, k + CallsBefore(ms, j + 1));
      RefusalStops(ms, j + 1, works, k, i);
    } else {
      StepRefused(ms[j], works, n);
      SplitWork(works, k, n, k + CallsBefore(ms, j + 1) - 1);
    }
  }

  /** Mounting ends in the refusal of mount i exactly if its calls say so. */
  lemma RefusedExactly(ms: seq<OciMount>, i: nat, works: nat -> bool, k: nat)
    ensures MountOutcome(ms, 0, works, k) == CallFailed(i) <==> MountRefused(ms, i, works, k)
  {
    if MountOutcome(ms, 0, works, k) == CallFailed(i) { RefusalStops(ms, 0, works, k, i); }
    if MountRefused(ms, i, works, k) {
      var n := k + CallsBefore(ms, i);
      SplitWork(works, k, n, k + CallsBefore(ms, i + 1) - 1);
      MountsReach(ms, i, works, k);
      StepRefused(ms[i], works, n);
    }
  }

  lemma {:induction false} InterfacesMoveWhen(owners: map<string, nat>, ifaces: seq<string>, i: nat, works: nat -> bool,
                                              k: nat)
    requires i <= |ifaces| && Movable(owners, ifaces[..i])
    ensures InterfaceOutcome(owners, ifaces, i, works, k).None?
            <==> Movable(owners, ifaces) && AllWork(works, k, k + |ifaces| - i)
    decreases |ifaces| - i
  {
    if i < |ifaces| {
      MovableNext(owners, ifaces, i);
      if works(k) && Movable(owners, ifaces[..i + 1]) {
        InterfacesMoveWhen(owners, ifaces, i + 1, works, k + 1);
      }
    } else {
      assert ifaces[..i] == ifaces;
    }
  }

  /** From interface j on, i is the first that does not move. */
  lemma {:induction false} InterfaceStops(owners: map<string, nat>, ifaces: seq<string>, j: nat, works: nat -> bool,
                                          k: nat, i: nat)
    requires j <= |ifaces| && Movable(owners, ifaces[..j])
    ensures InterfaceOutcome(owners, ifaces, j, works, k) == Some(i) <==>
              && j <= i < |ifaces| && AllWork(works, k, k + i - j) && Movable(owners, ifaces[..i])
              && !(works(k + i - j) && Movable(owners, ifaces[..i + 1]))
    decreases |ifaces| - j
  {
    if j < |ifaces| {
      MovableNext(owners, ifaces, j);
      if j < i < |ifaces| && Movable(owners, ifaces[..i]) { MovableFront(owners, ifaces, j + 1, i); }
      if works(k) && Movable(owners, ifaces[..j + 1]) {
        InterfaceStops(owners, ifaces, j + 1, works, k + 1, i);
        SplitWork(works, k, k + 1, k + 1 + if i > j then i - j - 1 else 0);
      }
    }
  }

  lemma MovableFront(owners: map<string, nat>, ifaces: seq<string>, a: nat, b: nat)
    requires a <= b <= |ifaces| && Movable(owners, ifaces[..b])
    ensures Movable(owners, ifaces[..a])
  {
    var front := ifaces[..b];
    assert forall c | 0 <= c < a :: ifaces[..a][c] == front[c];
  }

  /** Moving ends at interface i exactly if it is the first whose call fails, that the host does
      not own, or that has moved before. */
  lemma InterfaceStopsExactly(owners: map<string, nat>, ifaces: seq<string>, works: nat -> bool, k: nat, i: nat)
    ensures InterfaceOutcome(owners, ifaces, 0, works, k) == Some(i) <==>
              && i < |ifaces| && AllWork(works, k, k + i) && Movable(owners, ifaces[..i])
              && !(works(k + i) && Movable(owners, ifaces[..i + 1]))
  {
    assert ifaces[..0] == [];
    InterfaceStops(owners, ifaces, 0, works, k, i);
  }

  lemma MovableNext(owners: map<string, nat>, ifaces: seq<string>, i: nat)
    requires i < |ifaces| && Movable(owners, ifaces[..i])
    ensures Movable(owners, ifaces[..i + 1])
            <==> ifaces[i] in owners && owners[ifaces[i]] == HOST && ifaces[i] !in ifaces[..i]
    ensures Movable(owners, ifaces) ==> Movable(owners, ifaces[..i + 1])
  {
    var front := ifaces[..i + 1];
    assert front == ifaces[..i] + [ifaces[i]];
    assert front[i] == ifaces[i];
    if ifaces[i] in ifaces[..i] {
      var j :| 0 <= j < i && ifaces[j] == ifaces[i];
      assert front[j] == front[i];
    }
  }

  lemma {:induction false} HooksRunWhen(n: nat, h: nat, works: nat -> bool, k: nat)
    requires h <= n
    ensures HookOutcome(n, h, works, k).None? <==> AllWork(works, k, k + n - h)
    decreases n - h
  {
    if h < n && works(k) { HooksRunWhen(n, h + 1, works, k + 1); }
  }

  /** The hooks end at hook i exactly if it is the first whose call fails. */
  lemma {:induction false} HookStopsExactly(n: nat, h: nat, works: nat -> bool, k: nat, i: nat)
    ensures HookOutcome(n, h, works, k) == Some(i)
            <==> h <= i < n && AllWork(works, k, k + i - h) && !works(k + i - h)
    decreases n - h
  {
    if h < n && works(k) {
      HookStopsExactly(n, h + 1, works, k + 1, i);
      SplitWork(works, k, k + 1, k + 1 + if i > h then i - h - 1 else 0);
    }
  }

  lemma EntrypointRunsWhen(cfg: Config, pidFile: bool, works: nat -> bool, k: nat)
    ensures EntrypointOutcome(cfg, pidFile, works, k).None? <==> AllWork(works, k, k + EntrypointCalls(cfg, pidFile))
  {
    var h := if pidFile then k + 2 else k + 1;
    HooksRunWhen(cfg.createHooks, 0, works, h);
    SplitWork(works, k, h, k + EntrypointCalls(cfg, pidFile));
    assert AllWork(works, k, h) <==> works(k) && (pidFile ==> works(k + 1));
  }

  /** What create needs of the world, the configuration and the console socket. */
  predicate Creatable(w: World, id: string, cfg: Config, socket: ConsoleSocket) {
    ConfigOk(cfg, socket) && id !in w.jails && Movable(w.ifaces, cfg.vnet)
  }

  lemma AcquiresWhen(w: World, id: string, cfg: Config, socket: ConsoleSocket, pidFile: bool, works: nat -> bool,
                     k: nat)
    ensures AcquireOutcome(w, id, cfg, socket, pidFile, works, k).None?
            <==> Creatable(w, id, cfg, socket) && AllWork(works, k, k + AcquireCalls(cfg, pidFile))
  {
    var m := k + 2 + MountCalls(cfg.mounts, 0);
    JailedWhen(w, id, cfg, socket, works, k);
    RestRunsWhen(w.ifaces, cfg, pidFile, works, m);
    SplitWork(works, k, m, k + AcquireCalls(cfg, pidFile));
  }

  lemma JailedWhen(w: World, id: string, cfg: Config, socket: ConsoleSocket, works: nat -> bool, k: nat)
    ensures JailedOutcome(w, id, cfg, socket, works, k).None?
            <==> ConfigOk(cfg, socket) && id !in w.jails && AllWork(works, k, k + 2 + MountCalls(cfg.mounts, 0))
  {
    MountsWhenAllWork(cfg.mounts, 0, works, k + 2);
    SplitWork(works, k, k + 2, k + 2 + MountCalls(cfg.mounts, 0));
    assert AllWork(works, k, k + 2) <==> works(k) && works(k + 1);
  }

  lemma RestRunsWhen(owners: map<string, nat>, cfg: Config, pidFile: bool, works: nat -> bool, i: nat)
    ensures RestOutcome(owners, cfg, pidFile, works, i).None?
            <==> Movable(owners, cfg.vnet) && AllWork(works, i, i + |cfg.vnet| + EntrypointCalls(cfg, pidFile))
  {
    var e := i + |cfg.vnet|;
    assert cfg.vnet[..0] == [];
    InterfacesMoveWhen(owners, cfg.vnet, 0, works, i);
    EntrypointRunsWhen(cfg, pidFile, works, e);
    SplitWork(works, i, e, e + EntrypointCalls(cfg, pidFile));
  }

  /** create succeeds exactly when the id is free, the world and the configuration allow it, and every call works. */
  lemma CreateSucceedsWhen(w: World, id: string, cfg: Config, socket: ConsoleSocket, pidFile: bool, works: nat -> bool,
                           k: nat)
    ensures CreateOutcome(w, id, cfg, socket, pidFile, works, k).None?
            <==> && id !in w.state && Creatable(w, id, cfg, socket)
                 && AllWork(works, k, k + 3 + AcquireCalls(cfg, pidFile))
  {
    var z := k + 2 + AcquireCalls(cfg, pidFile);
    AcquiresWhen(w, id, cfg, socket, pidFile, works, k + 2);
    SplitWork(works, k, k + 2, z + 1);
    SplitWork(works, k + 2, z, z + 1);
    assert AllWork(works, k, k + 2) <==> works(k) && works(k + 1);
  }

  // ----- the calls of delete -----

  function CheckOutcome(w: World, id: string, processes: bool, works: nat -> bool, k: nat): Option<DeleteSite> {
    if !works(k) || id !in w.state || w.state[id].None? then Some(NoState)
    else if !works(k + 1) || processes then Some(StillRunning)
    else None
  }

  function DestroyOutcome(w: World, id: string, works: nat -> bool, k: nat): Option<DeleteSite> {
    if id !in w.jails || !works(k) then Some(NoJail)
    else if !works(k + 1) then Some(NoConfig)
    else None
  }

  /** The u-th undo call is the first of the unmounts. */
  function UnmountOutcome(w: World, targets: Option<seq<Dir>>, undoWorks: nat -> bool, u: nat): Option<DeleteSite> {
    if targets.None? then Some(Crash)
    else if UnmountAll(w.mounts, targets.value, undoWorks, u).1.Some? then Some(UnmountFailed)
    else None
  }

  function ForgetOutcome(hooks: nat, works: nat -> bool, k: nat): Option<DeleteSite> {
    if !works(k) then Some(StateKept)
    else
      match HookOutcome(hooks, 0, works, k + 1)
      case None => None
      case Some(h) => Some(PoststopHook(h))
  }

  /** Where delete fails, or None when it succeeds. */
  function DeleteOutcome(w: World, id: string, targets: Option<seq<Dir>>, processes: bool, hooks: nat,
                         works: nat -> bool, k: nat, undoWorks: nat -> bool, u: nat): Option<DeleteSite>
  {
    Then(CheckOutcome(w, id, processes, works, k),
         ReleaseOutcome(w, id, targets, hooks, works, k + 2, undoWorks, u))
  }

  /** SIGTERM ends a recorded entrypoint; no PID is recorded as 0. */
  function Signalled(procs: set<nat>, pid: int): set<nat> {
    set p | p in procs && (pid == 0 || p != pid)
  }

  function EntrypointSignalled(w: World, id: string): World {
    if id in w.state && w.state[id].Some? then w.(procs := Signalled(w.procs, w.state[id].value.pid)) else w
  }

  function JailDestroyed(w: World, id: string): World {
    if id in w.jails then JailGone(w, id, w.jails[id]) else w
  }

  function Unmounting(w: World, targets: Option<seq<Dir>>, undoWorks: nat -> bool, u: nat): World {
    if targets.None? then w else w.(mounts := UnmountAll(w.mounts, targets.value, undoWorks, u).0)
  }

  function WithoutState(w: World, id: string): World { w.(state := w.state - {id}) }

  /** The world that delete leaves when it ends at a site: the longer it goes on, the more is gone. */
  function DeletedWorld(w: World, id: string, targets: Option<seq<Dir>>, site: Option<DeleteSite>,
                        undoWorks: nat -> bool, u: nat): World
  {
    if site == Some(NoState) || site == Some(StillRunning) then w
    else ReleasedWorld(EntrypointSignalled(w, id), id, targets, site, undoWorks, u)
  }

  /** The same from the removal of the jail on. */
  function ReleasedWorld(w: World, id: string, targets: Option<seq<Dir>>, site: Option<DeleteSite>,
                         undoWorks: nat -> bool, u: nat): World
  {
    if site == Some(NoJail) then w
    else if site == Some(NoConfig) then JailDestroyed(w, id)
    else ForgottenWorld(JailDestroyed(w, id), id, targets, site, undoWorks, u)
  }

  /** The same from the first unmount on. */
  function ForgottenWorld(w: World, id: string, targets: Option<seq<Dir>>, site: Option<DeleteSite>,
                          undoWorks: nat -> bool, u: nat): World
  {
    var unmounted := Unmounting(w, targets, undoWorks, u);
    match site
    case Some(Crash) => w
    case Some(UnmountFailed) => unmounted
    case Some(StateKept) => unmounted
    case _ => WithoutState(unmounted, id)
  }

  function ForgottenOutcome(w: World, targets: Option<seq<Dir>>, hooks: nat,
                            works: nat -> bool, k: nat, undoWorks: nat -> bool, u: nat): Option<DeleteSite>
  {
    Then(UnmountOutcome(w, targets, undoWorks, u), ForgetOutcome(hooks, works, k))
  }

  function ReleaseOutcome(w: World, id: string, targets: Option<seq<Dir>>, hooks: nat,
                          works: nat -> bool, k: nat, undoWorks: nat -> bool, u: nat): Option<DeleteSite>
  {
    Then(DestroyOutcome(w, id, works, k), ForgottenOutcome(w, targets, hooks, works, k + 2, undoWorks, u))
  }

  /** delete succeeds exactly when there is a state, no process in the jail, the jail, known targets
      that can all be unmounted, and every call works. */
  lemma DeleteSucceedsWhen(w: World, id: string, targets: Option<seq<Dir>>, processes: bool, hooks: nat,
                           works: nat -> bool, k: nat, undoWorks: nat -> bool, u: nat)
    ensures DeleteOutcome(w, id, targets, processes, hooks, works, k, undoWorks, u).None?
            <==> && !processes && id in w.state && w.state[id].Some? && id in w.jails
                 && targets.Some? && UnmountAll(w.mounts, targets.value, undoWorks, u).1.None?
                 && AllWork(works, k, k + 5 + hooks)
  {
    HooksRunWhen(hooks, 0, works, k + 5);
    SplitWork(works, k, k + 5, k + 5 + hooks);
    assert AllWork(works, k, k + 5) <==> works(k) && works(k + 1) && works(k + 2) && works(k + 3) && works(k + 4);
  }
}
