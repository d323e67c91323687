/** The close-once channel of a process, the exit a Wait returns, and the waiters
    of a deleted process, under the shim's calling discipline:
    at most one of Start and Delete is in flight per exec id, the reaper reports a
    process at most once, and the kernel does not reuse a PID that the primary or a
    mapped process still records or whose report is not handled yet.  Only the
    waiters of a deleted process need that no Exec overlaps a Delete either. */
module ShimClose {
  import opened Wrappers
  import opened RunjState
  import opened ShimProcess
  import opened Shim
  import opened ShimInvariant

  // ----- the discipline -----

  /** The exec id a Start or Delete in flight works on. */
  function Mutates(pc: Pc): Option<ExecId> {
    if pc.Start? || pc.Delete? then Some(pc.x) else None
  }

  predicate Recorded(s: State, p: nat) {
    && 0 < |s.procs|
    && (|| s.procs[PRIMARY].proc.pid == p
        || exists x :: x in s.aux && s.aux[x] < |s.procs| && s.procs[s.aux[x]].proc.pid == p)
  }

  /** findProcess still looks for the process of this exit. */
  predicate LooksUp(pc: Pc) {
    pc.Reap? && (pc.rop.RPrimary? || pc.rop.RLockMu? || pc.rop.RScan? || pc.rop.RProbe?)
  }

  predicate Pending(s: State, p: nat) {
    || (exists i :: 0 <= i < |s.exits| && s.exits[i].pid == p)
    || (EXITS in s.threads && LooksUp(s.threads[EXITS]) && s.threads[EXITS].e.pid == p)
  }

  predicate Reusable(s: State, p: nat) { !Recorded(s, p) && !Pending(s, p) }

  predicate Disciplined(s: State, step: Step) {
    match step
    case Arrive(_, pc) => Mutates(pc).Some? ==> forall u | u in s.threads :: Mutates(s.threads[u]) != Mutates(pc)
    case Op(t, c) =>
      CanOp(s, t, c) && var m := Execute(s, s.threads[t], c); m.eff.Spawned? ==> Reusable(s, m.eff.p)
    case ReapExit(e) => e.pid !in s.reported
    case Reuse(p) => Reusable(s, p)
    case _ => true
  }

  predicate IsDisciplinedRun(ss: seq<State>, steps: seq<Step>) {
    IsRun(ss, steps) && forall i | 0 <= i < |steps| :: Disciplined(ss[i], steps[i])
  }

  // ----- what one object may look like -----
  // `h` says that the exit goroutine has found the object and will close its channel.

  /** As Exec makes it. */
  predicate Blank(o: Object) {
    o.proc.state == Unset && o.proc.pid == 0 && o.closed == []
  }

  predicate Fresh(o: Object) {
    o.proc.state == Created && o.proc.pid == 0 && o.closed == []
  }

  /** Nobody can be left waiting on the object. */
  predicate Settled(o: Object, h: bool) { o.closed != [] || h }

  /** A mapped object that no Start or Delete is working on. */
  predicate Quiet(o: Object, h: bool) {
    || Blank(o) || Fresh(o)
    || (o.proc.state == Running && o.proc.pid != 0)
    || (o.proc.state == Stopped && Settled(o, h))
  }

  /** What a Start or Delete knows about its object. */
  predicate PhaseOf(pc: Pc, o: Object, h: bool) {
    match pc
    case Start(op, _, _, p) =>
      (match op
       case SCheck => Quiet(o, h)
       case SFailClose => o.proc.state == Stopped && o.proc.pid == 0 && o.closed == []
       case SConsole | SSetState => o.proc.pid == p && p != 0
       case SSend => o.proc.pid == p && p != 0 && Quiet(o, h)
       case _ => Fresh(o))
    case Delete(op, _, _) =>
      (match op case DState => Quiet(o, h) case DClose => Fresh(o) case _ => true)
    case _ => true
  }

  /** Closed at most once, and only the exit goroutine closes a process with a PID. */
  predicate ClosedOk(o: Object, h: bool, primary: bool) {
    && (h ==> o.closed == [] && o.proc.pid != 0)
    && (|| o.closed == [] || o.closed == [ByExit]
        || (!primary && (o.closed == [ByStart] || o.closed == [ByDelete]) && o.proc.pid == 0))
  }

  // ----- the same in a state -----

  predicate Handled(s: State, r: Ref) {
    EXITS in s.threads && HandlesExit(s.threads[EXITS]) && s.threads[EXITS].r == r
  }

  predicate Phase(s: State, pc: Pc) {
    if Mutates(pc).None? then true
    else if HasRef(pc) then
      pc.x in s.aux && s.aux[pc.x] == pc.r < |s.procs| && PhaseOf(pc, s.procs[pc.r], Handled(s, pc.r))
    else
      pc.x in s.aux && s.aux[pc.x] < |s.procs| ==> Quiet(s.procs[s.aux[pc.x]], Handled(s, s.aux[pc.x]))
  }

  /** The exit recorded in a process is the one delivered for its PID, and it is queued. */
  predicate ExitKnown(s: State, o: Object) {
    && o.proc.pid != 0 && o.proc.exit.pid == o.proc.pid
    && o.proc.exit in s.delivered
    && TaskExit(o.key, o.proc.exit) in s.log
  }

  predicate ExitOk(s: State, r: Ref)
    requires r < |s.procs|
  {
    var o := s.procs[r];
    && (o.closed == [ByExit] ==> ExitKnown(s, o))
    && (o.closed != [ByExit] && !Handled(s, r) ==> o.proc.exit == NO_EXIT)
  }

  predicate Findable(s: State, r: Ref)
    requires r < |s.procs|
  {
    r == PRIMARY || (s.procs[r].key in s.aux && s.aux[s.procs[r].key] == r)
  }

  /** The process of a settled object that is still findable will not be reported again. */
  predicate ReportOk(s: State, r: Ref)
    requires r < |s.procs|
  {
    var p := s.procs[r].proc.pid;
    Findable(s, r) && Settled(s.procs[r], Handled(s, r)) && p != 0 ==> p in s.reported && !Pending(s, p)
  }

  predicate ObjectOk(s: State, r: Ref)
    requires r < |s.procs|
  {
    ClosedOk(s.procs[r], Handled(s, r), r == PRIMARY) && ExitOk(s, r) && ReportOk(s, r)
  }

  predicate PendingOk(s: State) {
    && (forall i | 0 <= i < |s.exits| :: s.exits[i].pid in s.reported && s.exits[i] in s.delivered)
    && (forall i, j | 0 <= i < j < |s.exits| :: s.exits[i].pid != s.exits[j].pid)
  }

  predicate ReapOk(s: State, pc: Pc) {
    && (LooksUp(pc) ==> pc.e.pid in s.reported && forall i | 0 <= i < |s.exits| :: s.exits[i].pid != pc.e.pid)
    && (LooksUp(pc) || HandlesExit(pc) ==> pc.e in s.delivered)
    && (HandlesExit(pc) ==>
          && pc.r < |s.procs|
          && (pc.rop.RKill? || pc.rop.RSetState? || pc.rop.RSetExited? ==> s.procs[pc.r].proc.exit == NO_EXIT)
          && (pc.rop.RSend? || pc.rop.RStdio? || pc.rop.RClose? ==> s.procs[pc.r].proc.exit == pc.e)
          && (pc.rop.RStdio? || pc.rop.RClose? ==> TaskExit(pc.x, pc.e) in s.log))
  }

  predicate ExitsOk(s: State) {
    EXITS in s.threads && PendingOk(s) && ReapOk(s, s.threads[EXITS])
  }

  predicate WaitedOk(s: State, pc: Pc) {
    && (pc.Done? && pc.result.Waited? ==>
          && pc.result.r < |s.procs| && s.procs[pc.result.r].closed != []
          && s.procs[pc.result.r].proc.exit == pc.result.exit)
    && (pc.Wait? && pc.wop.WExit? ==> pc.r < |s.procs| && s.procs[pc.r].closed != [])
  }

  ghost predicate KeyOk(s: State, x: ExecId) {
    x in s.aux && s.aux[x] < |s.procs| ==>
      || Quiet(s.procs[s.aux[x]], Handled(s, s.aux[x]))
      || exists t :: t in s.threads && Mutates(s.threads[t]) == Some(x)
  }

  predicate OneMutator(s: State) {
    forall t, u | t in s.threads && u in s.threads && Mutates(s.threads[t]).Some?
                  && Mutates(s.threads[t]) == Mutates(s.threads[u]) :: t == u
  }

  /** An Exec that has not yet recorded a state. */
  predicate Making(pc: Pc) { pc.Exec? && (pc.eop.ESpec? || pc.eop.EState?) }

  predicate ExecOk(s: State, pc: Pc) {
    Making(pc) ==> pc.r < |s.procs| && Blank(s.procs[pc.r])
  }

  predicate ThreadOk(s: State, pc: Pc) { Phase(s, pc) && WaitedOk(s, pc) && ExecOk(s, pc) }

  /** No two Execs make the same object. */
  predicate OneMaker(s: State) {
    forall t, u | t in s.threads && u in s.threads && Making(s.threads[t]) && Making(s.threads[u])
                  && s.threads[t].r == s.threads[u].r :: t == u
  }

  predicate ThreadsSafe(s: State) { forall t | t in s.threads :: ThreadOk(s, s.threads[t]) }

  predicate ObjectsSafe(s: State) { forall r | 0 <= r < |s.procs| :: ObjectOk(s, r) }

  ghost predicate KeysSafe(s: State) { forall x | x in s.aux :: KeyOk(s, x) }

  ghost predicate Safe(s: State) {
    && Well(s) && ScanOk(s) && ExitsOk(s)
    && OneMutator(s) && OneMaker(s) && ThreadsSafe(s) && ObjectsSafe(s) && KeysSafe(s)
  }

  // ----- a step that changes at most one object -----

  /** s' has the objects of s, except that r may be new or changed, and the exit
      goroutine, the pending exits and the reports of recorded PIDs are as before. */
  predicate Touches(s: State, s': State, r: Ref) {
    && |s.procs| <= |s'.procs|
    && (|s'.procs| > |s.procs| ==> r == |s.procs| && |s'.procs| == r + 1)
    && (forall q | 0 <= q < |s.procs| && q != r :: s'.procs[q] == s.procs[q])
    && (r < |s.procs| ==> s'.procs[r].key == s.procs[r].key && s'.procs[r].proc.exit == s.procs[r].proc.exit
                          && (s.procs[r].closed != [] ==> s'.procs[r].closed != []))
    && EXITS in s.threads && EXITS in s'.threads && s'.threads[EXITS] == s.threads[EXITS]
    && s'.exits == s.exits && s'.delivered == s.delivered && s.log <= s'.log
    && (forall p | p in s.reported && (Pending(s, p) || Recorded(s, p)) :: p in s'.reported)
  }

  predicate SameEntry(s: State, s': State, x: ExecId) {
    (x in s.aux <==> x in s'.aux) && (x in s.aux ==> s.aux[x] == s'.aux[x])
  }

  lemma FrameObject(s: State, s': State, r: Ref, q: Ref)
    requires ObjectsOk(s) && Touches(s, s', r) && q < |s.procs| && q != r
    requires q == PRIMARY || SameEntry(s, s', s.procs[q].key) || !Findable(s', q)
    requires ObjectOk(s, q)
    ensures ObjectOk(s', q)
  {}

  lemma FramePhase(s: State, s': State, r: Ref, pc: Pc)
    requires ObjectsOk(s) && Touches(s, s', r) && Phase(s, pc)
    requires Mutates(pc).Some? ==> SameEntry(s, s', pc.x) && (pc.x in s.aux ==> s.aux[pc.x] != r)
    ensures Phase(s', pc)
  {}

  lemma FrameWaited(s: State, s': State, r: Ref, pc: Pc)
    requires Touches(s, s', r) && WaitedOk(s, pc)
    ensures WaitedOk(s', pc)
  {}

  lemma FrameExec(s: State, s': State, r: Ref, pc: Pc)
    requires Touches(s, s', r) && ExecOk(s, pc)
    requires r < |s.procs| && Blank(s.procs[r]) && Making(pc) && pc.r == r ==> Blank(s'.procs[r])
    ensures ExecOk(s', pc)
  {}

  lemma FrameExits(s: State, s': State, r: Ref)
    requires Well(s) && ExitsOk(s) && Touches(s, s', r)
    ensures ExitsOk(s')
  {
    assert PcOk(s, EXITS, s.threads[EXITS]);
    forall i | 0 <= i < |s'.exits| ensures s'.exits[i].pid in s'.reported {
      assert Pending(s, s.exits[i].pid);
    }
    if LooksUp(s.threads[EXITS]) { assert Pending(s, s.threads[EXITS].e.pid); }
  }

  // ----- Start and Delete, each on its own object -----

  /** The object after an effect on it. */
  function After(o: Object, eff: Effect): Object {
    match eff
    case Set(_, proc) => o.(proc := proc)
    case Close(_, closer) => o.(closed := o.closed + [closer])
    case _ => o
  }

  /** The effect stays with the object r and the map entry x. */
  predicate Local(s: State, eff: Effect, x: ExecId, r: Ref) {
    match eff
    case NewObject(y) => y == x && x !in s.aux && r == |s.procs|
    case Unmap(y) => y == x
    case Set(q, proc) => q == r < |s.procs| && proc.exit == s.procs[r].proc.exit
    case Close(q, _) => q == r < |s.procs|
    case Spawned(p) => Reusable(s, p)
    case Nothing => true
    case Send(_) => true
    case Opened => true
    case StartFailed(_) => true
    case TakeExit => false
  }

  lemma LocalTouches(s: State, eff: Effect, x: ExecId, r: Ref)
    requires EffectOk(s, eff) && Local(s, eff, x, r) && EXITS in s.threads
    ensures Touches(s, Apply(s, eff), r)
    ensures forall y | y != x :: SameEntry(s, Apply(s, eff), y)
    ensures r < |s.procs| ==> Apply(s, eff).procs[r] == After(s.procs[r], eff)
  {}

  /** One program point of Start or Delete with its object o. */
  predicate OwnMove(s: State, pc: Pc, r: Ref, m: Move, o: Object, h: bool) {
    m.Move? ==>
      var o' := After(o, m.eff);
      && ClosedOk(o', h, false) && (o'.closed == [ByExit] <==> o.closed == [ByExit]) && (Blank(o) ==> Blank(o'))
      && (o'.proc.pid != 0 && Settled(o', h) ==> o'.proc.pid == o.proc.pid && Settled(o, h))
      && (if m.pc.Done? then m.eff.Unmap? || Quiet(o', h)
          else !m.eff.Unmap? && HasRef(m.pc) && m.pc.r == r && Mutates(m.pc) == Mutates(pc) && PhaseOf(m.pc, o', h))
  }

  /** The object a Start or Delete works on or is about to find. */
  predicate Owns(s: State, pc: Pc, r: Ref) {
    Mutates(pc).Some? && r < |s.procs| && if HasRef(pc) then pc.r == r else pc.x in s.aux && s.aux[pc.x] == r
  }

  lemma StartOwn(s: State, pc: Pc, r: Ref, c: Choice, h: bool)
    requires pc.Start? && Owns(s, pc, r) && RefsOk(s, pc)
    requires ClosedOk(s.procs[r], h, false) && (HasPid(pc) ==> pc.p != 0)
    requires if HasRef(pc) then PhaseOf(pc, s.procs[r], h) else Quiet(s.procs[r], h)
    ensures OwnMove(s, pc, r, ExecuteStart(s, pc, c), s.procs[r], h)
  {
    assert (s.procs[r].closed + [ByStart])[|s.procs[r].closed|] == ByStart;
  }

  lemma DeleteOwn(s: State, pc: Pc, r: Ref, c: Choice, h: bool)
    requires pc.Delete? && Owns(s, pc, r) && RefsOk(s, pc)
    requires ClosedOk(s.procs[r], h, false)
    requires if HasRef(pc) then PhaseOf(pc, s.procs[r], h) else Quiet(s.procs[r], h)
    ensures OwnMove(s, pc, r, ExecuteDelete(s, pc, c), s.procs[r], h)
  {
    assert (s.procs[r].closed + [ByDelete])[|s.procs[r].closed|] == ByDelete;
  }

  lemma MutatorLocal(s: State, pc: Pc, r: Ref, c: Choice)
    requires Mutates(pc).Some? && RefsOk(s, pc)
    requires Owns(s, pc, r) || (!HasRef(pc) && pc.x !in s.aux && r == |s.procs|)
    ensures var m := Execute(s, pc, c);
            m.Move? && EffectOk(s, m.eff) && (m.eff.Spawned? ==> Reusable(s, m.eff.p)) ==>
              && Local(s, m.eff, pc.x, r) && !m.pc.Exec? && !m.pc.Wait? && !m.pc.Reap?
              && !(m.pc.Done? && m.pc.result.Waited?)
  {
    match pc
    case Start(_, _, _, _) => assert Execute(s, pc, c) == ExecuteStart(s, pc, c);
    case Delete(_, _, _) => assert Execute(s, pc, c) == ExecuteDelete(s, pc, c);
  }

  lemma MutatorOwn(s: State, pc: Pc, r: Ref, c: Choice)
    requires Owns(s, pc, r) && RefsOk(s, pc) && Phase(s, pc) && (HasPid(pc) ==> pc.p != 0)
    requires ClosedOk(s.procs[r], Handled(s, r), false)
    ensures OwnMove(s, pc, r, Execute(s, pc, c), s.procs[r], Handled(s, r))
  {
    var h := Handled(s, r);
    match pc
    case Start(_, _, _, _) => StartOwn(s, pc, r, c, h);
    case Delete(_, _, _) => DeleteOwn(s, pc, r, c, h);
  }

  /** The own object stays in order. */
  lemma OwnObject(s: State, s': State, r: Ref, o': Object)
    requires Touches(s, s', r) && r < |s.procs| && r != PRIMARY && s'.procs[r] == o' && ObjectOk(s, r)
    requires ClosedOk(o', Handled(s, r), false)
    requires o'.closed == [ByExit] <==> s.procs[r].closed == [ByExit]
    requires s.procs[r].proc.pid != 0 ==> o'.proc.pid == s.procs[r].proc.pid
    requires o'.proc.pid != 0 && Settled(o', Handled(s, r)) ==>
               o'.proc.pid == s.procs[r].proc.pid && Settled(s.procs[r], Handled(s, r))
    requires Findable(s', r) ==> Findable(s, r)
    ensures ObjectOk(s', r)
  {}

  // ----- putting the thread back among the others -----

  /** Everything that is said about threads and objects looks at one thread only: the exit goroutine. */
  lemma SameExitThread(a: State, s': State)
    requires s' == a.(threads := s'.threads)
    requires EXITS in a.threads && EXITS in s'.threads && a.threads[EXITS] == s'.threads[EXITS]
    ensures ObjectsSafe(a) ==> ObjectsSafe(s')
    ensures forall pc | ThreadOk(a, pc) :: ThreadOk(s', pc)
  {
    if ObjectsSafe(a) {
      forall q | 0 <= q < |s'.procs| ensures ObjectOk(s', q) { assert ObjectOk(a, q); }
    }
    forall pc | ThreadOk(a, pc) ensures ThreadOk(s', pc) {}
  }

  ghost predicate KeyStays(s: State, a: State, t: Tid, pc: Pc, x: ExecId)
    requires t in s.threads
  {
    x in a.aux && a.aux[x] < |a.procs| ==>
      || Quiet(a.procs[a.aux[x]], Handled(a, a.aux[x]))
      || Mutates(pc) == Some(x)
      || (Mutates(s.threads[t]) != Some(x) && x in s.aux && s.aux[x] < |s.procs|
          && !Quiet(s.procs[s.aux[x]], Handled(s, s.aux[x])))
  }

  lemma AssembleKeys(s: State, a: State, t: Tid, pc: Pc)
    requires KeysSafe(s) && t in s.threads && a.threads == s.threads
    requires EXITS in s.threads && (t != EXITS || forall r :: Handled(a, r) ==> HandlesExit(pc) && pc.r == r)
    requires t != EXITS ==> !pc.Reap?
    requires forall x | x in a.aux :: KeyStays(s, a, t, pc, x)
    ensures KeysSafe(a.(threads := s.threads[t := pc]))
  {
    var s' := a.(threads := s.threads[t := pc]);
    forall x | x in s'.aux ensures KeyOk(s', x) {
      assert KeyStays(s, a, t, pc, x);
      if s'.aux[x] < |s'.procs| && !Quiet(s'.procs[s'.aux[x]], Handled(s', s'.aux[x])) {
        if Mutates(pc) == Some(x) {
          assert s'.threads[t] == pc;
        } else {
          assert KeyOk(s, x);
          var u :| u in s.threads && Mutates(s.threads[u]) == Some(x);
          assert s'.threads[u] == s.threads[u];
        }
      }
    }
  }

  lemma AssembleThreads(s: State, a: State, t: Tid, pc: Pc)
    requires t in s.threads && a.threads == s.threads
    requires forall u | u in s.threads && u != t :: ThreadOk(a, s.threads[u])
    requires ThreadOk(a, pc) && !pc.Reap? && t != EXITS && EXITS in s.threads
    ensures ThreadsSafe(a.(threads := s.threads[t := pc]))
  {
    var s' := a.(threads := s.threads[t := pc]);
    SameExitThread(a, s');
    forall u | u in s'.threads ensures ThreadOk(s', s'.threads[u]) {
      assert ThreadOk(a, s'.threads[u]);
    }
  }

  lemma AssembleMutators(s: State, t: Tid, pc: Pc, s': State)
    requires OneMutator(s) && OneMaker(s) && t in s.threads && s'.threads == s.threads[t := pc]
    requires Mutates(pc).None? || Mutates(pc) == Mutates(s.threads[t])
    requires Making(pc) ==>
               || (Making(s.threads[t]) && pc.r == s.threads[t].r)
               || forall u | u in s.threads && Making(s.threads[u]) :: s.threads[u].r != pc.r
    ensures OneMutator(s') && OneMaker(s')
  {}

  /** A step of a thread other than the exit goroutine, put together. */
  lemma Assembled(s: State, a: State, t: Tid, pc: Pc)
    requires Safe(s) && t in s.threads && t != EXITS && a.threads == s.threads && !pc.Reap?
    requires Well(a.(threads := s.threads[t := pc])) && ScanOk(a.(threads := s.threads[t := pc]))
    requires ExitsOk(a) && ObjectsSafe(a) && ThreadOk(a, pc)
    requires forall u | u in s.threads && u != t :: ThreadOk(a, s.threads[u])
    requires Mutates(pc).None? || Mutates(pc) == Mutates(s.threads[t])
    requires Making(pc) ==>
               || (Making(s.threads[t]) && pc.r == s.threads[t].r)
               || forall u | u in s.threads && Making(s.threads[u]) :: s.threads[u].r != pc.r
    requires forall x | x in a.aux :: KeyStays(s, a, t, pc, x)
    ensures Safe(a.(threads := s.threads[t := pc]))
  {
    var s' := a.(threads := s.threads[t := pc]);
    SameExitThread(a, s');
    AssembleThreads(s, a, t, pc);
    AssembleMutators(s, t, pc, s');
    AssembleKeys(s, a, t, pc);
    SameExits(a, s');
  }

  lemma SameExits(a: State, s': State)
    requires ExitsOk(a) && s' == a.(threads := s'.threads) && EXITS in s'.threads
    requires s'.threads[EXITS] == a.threads[EXITS]
    ensures ExitsOk(s')
  {}

  /** The own object, or the one just made, is in order after the step. */
  lemma MutatorObject(s: State, t: Tid, r: Ref, m: Move)
    requires Safe(s) && t in s.threads && m.Move? && EffectSound(s, m.eff)
    requires Mutates(s.threads[t]).Some? && Local(s, m.eff, s.threads[t].x, r)
    requires Owns(s, s.threads[t], r) && r != PRIMARY
    requires OwnMove(s, s.threads[t], r, m, s.procs[r], Handled(s, r))
    ensures ObjectOk(Apply(s, m.eff), r)
  {
    var a := Apply(s, m.eff);
    LocalTouches(s, m.eff, s.threads[t].x, r);
    ApplySound(s, m.eff);
    assert ObjectOk(s, r);
    OwnObject(s, a, r, After(s.procs[r], m.eff));
  }

  lemma MutatorObjects(s: State, a: State, x: ExecId, r: Ref)
    requires Safe(s) && Touches(s, a, r) && a.threads == s.threads
    requires forall y | y != x :: SameEntry(s, a, y)
    requires x in a.aux ==> a.aux[x] == r
    requires r < |a.procs| ==> ObjectOk(a, r)
    ensures ObjectsSafe(a)
  {
    forall q | 0 <= q < |a.procs| ensures ObjectOk(a, q) {
      if q != r {
        assert ObjectOk(s, q);
        if s.procs[q].key == x && q != PRIMARY { assert !Findable(a, q); }
        FrameObject(s, a, r, q);
      }
    }
  }

  lemma MutatorOthers(s: State, a: State, t: Tid, x: ExecId, r: Ref)
    requires Safe(s) && t in s.threads && Mutates(s.threads[t]) == Some(x)
    requires Touches(s, a, r) && a.threads == s.threads
    requires forall y | y != x :: SameEntry(s, a, y)
    requires r < |s.procs| ==> s.procs[r].key == x && r != PRIMARY
    requires r < |s.procs| && Blank(s.procs[r]) ==> Blank(a.procs[r])
    ensures forall u | u in s.threads && u != t :: ThreadOk(a, s.threads[u])
    ensures forall y | y in a.aux && y != x ::
              y in s.aux && s.aux[y] == a.aux[y] < |s.procs| && a.procs[a.aux[y]] == s.procs[s.aux[y]]
  {
    forall u | u in s.threads && u != t ensures ThreadOk(a, s.threads[u]) {
      assert ThreadOk(s, s.threads[u]);
      FramePhase(s, a, r, s.threads[u]);
      FrameWaited(s, a, r, s.threads[u]);
      FrameExec(s, a, r, s.threads[u]);
    }
    forall y | y in a.aux && y != x
      ensures y in s.aux && s.aux[y] == a.aux[y] < |s.procs| && a.procs[a.aux[y]] == s.procs[s.aux[y]]
    {
      assert SameEntry(s, a, y);
    }
  }

  /** What a step of Start or Delete gives around its own exec id. */
  predicate MutatorDone(s: State, pc: Pc, m: Move, r: Ref)
    requires Mutates(pc).Some?
  {
    && m.Move? && EffectOk(s, m.eff) && Local(s, m.eff, pc.x, r)
    && (m.pc.Done? || Mutates(m.pc) == Mutates(pc)) && !m.pc.Reap? && !m.pc.Exec?
    && (r < |s.procs| && Blank(s.procs[r]) ==> Blank(After(s.procs[r], m.eff)))
    && var a := Apply(s, m.eff);
       && ThreadOk(a, m.pc)
       && (r < |s.procs| ==> s.procs[r].key == pc.x && r != PRIMARY)
       && (r < |a.procs| ==> ObjectOk(a, r))
       && (pc.x in a.aux ==> a.aux[pc.x] == r < |a.procs| && (m.pc.Done? ==> Quiet(a.procs[r], Handled(a, r))))
  }

  /** Nothing is mapped under the exec id: Start and Delete give up. */
  lemma MutatorWithoutObject(s: State, t: Tid, c: Choice)
    requires Safe(s) && CanOp(s, t, c) && Mutates(s.threads[t]).Some?
    requires !HasRef(s.threads[t]) && s.threads[t].x !in s.aux
    ensures MutatorDone(s, s.threads[t], Execute(s, s.threads[t], c), |s.procs|)
  {
    var pc := s.threads[t];
    assert PcOk(s, EXITS, s.threads[EXITS]);
    match pc
    case Start(_, _, _, _) => assert Execute(s, pc, c) == ExecuteStart(s, pc, c);
    case Delete(_, _, _) => assert Execute(s, pc, c) == ExecuteDelete(s, pc, c);
  }

  lemma MutatorWithObject(s: State, t: Tid, c: Choice, r: Ref)
    requires Safe(s) && CanOp(s, t, c) && Disciplined(s, Op(t, c))
    requires Owns(s, s.threads[t], r)
    ensures MutatorDone(s, s.threads[t], Execute(s, s.threads[t], c), r)
  {
    var pc := s.threads[t];
    var m := Execute(s, pc, c);
    assert PcOk(s, t, pc) && ThreadOk(s, pc) && ObjectOk(s, r);
    ExecuteSound(s, t, pc, c);
    MutatorLocal(s, pc, r, c);
    MutatorOwn(s, pc, r, c);
    MutatorObject(s, t, r, m);
    OwnPhase(s, pc, m, r);
  }

  lemma OwnPhase(s: State, pc: Pc, m: Move, r: Ref)
    requires Owns(s, pc, r) && m.Move? && EffectOk(s, m.eff) && Local(s, m.eff, pc.x, r)
    requires EXITS in s.threads && pc.x in s.aux && s.aux[pc.x] == r
    requires OwnMove(s, pc, r, m, s.procs[r], Handled(s, r))
    requires !(m.pc.Done? && m.pc.result.Waited?) && !m.pc.Wait? && !m.pc.Exec?
    ensures ThreadOk(Apply(s, m.eff), m.pc)
    ensures m.pc.Done? || Mutates(m.pc) == Mutates(pc)
    ensures var a := Apply(s, m.eff);
            pc.x in a.aux ==> a.aux[pc.x] == r < |a.procs| && (m.pc.Done? ==> Quiet(a.procs[r], Handled(a, r)))
  {
    LocalTouches(s, m.eff, pc.x, r);
  }

  lemma MutatorSafe(s: State, t: Tid, c: Choice)
    requires Safe(s) && CanOp(s, t, c) && Disciplined(s, Op(t, c)) && Mutates(s.threads[t]).Some?
    ensures Safe(DoOp(s, t, c))
  {
    var pc := s.threads[t];
    assert PcOk(s, t, pc) && ThreadOk(s, pc);
    var r := if HasRef(pc) then pc.r else if pc.x in s.aux then s.aux[pc.x] else |s.procs|;
    if r < |s.procs| { MutatorWithObject(s, t, c, r); } else { MutatorWithoutObject(s, t, c); }
    OpWell(s, t, c);
    OpScanOk(s, t, c);
    MutatorAssembled(s, t, Execute(s, pc, c), r);
  }

  lemma MutatorAssembled(s: State, t: Tid, m: Move, r: Ref)
    requires Safe(s) && t in s.threads && t != EXITS && Mutates(s.threads[t]).Some?
    requires MutatorDone(s, s.threads[t], m, r)
    requires var s' := Apply(s, m.eff).(threads := s.threads[t := m.pc]); Well(s') && ScanOk(s')
    ensures Safe(Apply(s, m.eff).(threads := s.threads[t := m.pc]))
  {
    var a := Apply(s, m.eff);
    LocalTouches(s, m.eff, s.threads[t].x, r);
    ApplyFrame(s, m.eff);
    MutatorObjects(s, a, s.threads[t].x, r);
    MutatorOthers(s, a, t, s.threads[t].x, r);
    MutatorFinish(s, a, t, m, r);
  }

  lemma MutatorFinish(s: State, a: State, t: Tid, m: Move, r: Ref)
    requires Safe(s) && t in s.threads && Mutates(s.threads[t]).Some? && m.Move? && t != EXITS && !m.pc.Reap?
    requires !m.pc.Exec?
    requires a.threads == s.threads && Touches(s, a, r) && ObjectsSafe(a)
    requires Well(a.(threads := s.threads[t := m.pc])) && ScanOk(a.(threads := s.threads[t := m.pc]))
    requires m.pc.Done? || Mutates(m.pc) == Mutates(s.threads[t])
    requires forall u | u in s.threads && u != t :: ThreadOk(a, s.threads[u])
    requires ThreadOk(a, m.pc)
    requires m.pc.Done? && s.threads[t].x in a.aux ==>
               && a.aux[s.threads[t].x] < |a.procs|
               && Quiet(a.procs[a.aux[s.threads[t].x]], Handled(a, a.aux[s.threads[t].x]))
    requires forall y | y in a.aux && y != s.threads[t].x ::
               y in s.aux && s.aux[y] == a.aux[y] < |s.procs| && a.procs[a.aux[y]] == s.procs[s.aux[y]]
    ensures Safe(a.(threads := s.threads[t := m.pc]))
  {
    FrameExits(s, a, r);
    forall y | y in a.aux ensures KeyStays(s, a, t, m.pc, y) {
      if y != s.threads[t].x { assert KeyOk(s, y); }
    }
    Assembled(s, a, t, m.pc);
  }

  // ----- the handlers that leave the map alone -----

  /** Init, Peek, Wait and Create: at most the PID of the primary process changes. */
  predicate Mild(s: State, pc: Pc, m: Move) {
    m.Move? && EffectSound(s, m.eff) ==>
      && (match m.eff
          case Set(r, proc) => r == PRIMARY && proc.exit == s.procs[r].proc.exit
          case Nothing | Send(_) | Opened | StartFailed(_) => true
          case _ => false)
      && Mutates(m.pc).None? && !m.pc.Reap? && !m.pc.Exec?
      && (m.pc.Wait? && m.pc.wop.WExit? ==> m.pc.r < |s.procs| && s.procs[m.pc.r].closed != [])
      && (m.pc.Done? && m.pc.result.Waited? ==>
            && pc.Wait? && pc.wop.WExit? && m.eff.Nothing? && m.pc.result.r == pc.r < |s.procs|
            && m.pc.result.exit == s.procs[pc.r].proc.exit)
  }

  lemma ExecuteMild(s: State, pc: Pc, c: Choice)
    requires RefsOk(s, pc) && Mutates(pc).None? && !pc.Reap? && !pc.Exec?
    ensures Mild(s, pc, Execute(s, pc, c))
  {
    match pc
    case Init(_, _, _) => assert Execute(s, pc, c) == ExecuteInit(s, pc, c);
    case Peek(_, _, _) => assert Execute(s, pc, c) == ExecutePeek(s, pc, c);
    case Wait(_, _, _) => assert Execute(s, pc, c) == ExecuteWait(s, pc);
    case Create(_, _) => assert Execute(s, pc, c) == ExecuteCreate(s, pc, c);
    case Done(_) =>
  }

  lemma MildPrimary(s: State, pc: Pc, m: Move)
    requires Well(s) && m.Move? && EffectSound(s, m.eff) && Mild(s, pc, m) && ObjectOk(s, PRIMARY)
    ensures Touches(s, Apply(s, m.eff), PRIMARY)
    ensures ObjectOk(Apply(s, m.eff), PRIMARY)
  {
    var a := Apply(s, m.eff);
    assert a.reported == s.reported && a.aux == s.aux && a.exits == s.exits && a.threads == s.threads;
    assert Handled(s, PRIMARY) ==> s.procs[PRIMARY].proc.pid != 0 by { assert PcOk(s, EXITS, s.threads[EXITS]); }
  }

  lemma MildTouches(s: State, pc: Pc, m: Move)
    requires Safe(s) && m.Move? && EffectSound(s, m.eff) && Mild(s, pc, m)
    ensures Touches(s, Apply(s, m.eff), PRIMARY)
    ensures Apply(s, m.eff).aux == s.aux && Apply(s, m.eff).threads == s.threads
    ensures ObjectsSafe(Apply(s, m.eff))
  {
    var a := Apply(s, m.eff);
    assert ObjectOk(s, PRIMARY);
    MildPrimary(s, pc, m);
    forall q | 0 <= q < |a.procs| ensures ObjectOk(a, q) {
      if q != PRIMARY {
        assert ObjectOk(s, q);
        FrameObject(s, a, PRIMARY, q);
      }
    }
  }

  lemma MildSafe(s: State, t: Tid, c: Choice)
    requires Safe(s) && CanOp(s, t, c) && Mutates(s.threads[t]).None? && !s.threads[t].Exec? && t != EXITS
    ensures Safe(DoOp(s, t, c))
  {
    var pc := s.threads[t];
    assert PcOk(s, t, pc) && ThreadOk(s, pc);
    ExecuteSound(s, t, pc, c);
    ExecuteMild(s, pc, c);
    OpWell(s, t, c);
    OpScanOk(s, t, c);
    MildAssembled(s, t, Execute(s, pc, c));
  }

  lemma MildAssembled(s: State, t: Tid, m: Move)
    requires Safe(s) && t in s.threads && t != EXITS && Mutates(s.threads[t]).None?
    requires m.Move? && EffectSound(s, m.eff) && Mild(s, s.threads[t], m)
    requires var s' := Apply(s, m.eff).(threads := s.threads[t := m.pc]); Well(s') && ScanOk(s')
    ensures Safe(Apply(s, m.eff).(threads := s.threads[t := m.pc]))
  {
    var a := Apply(s, m.eff);
    MildTouches(s, s.threads[t], m);
    FrameExits(s, a, PRIMARY);
    MildThreads(s, a, t, m);
    forall y | y in a.aux ensures KeyStays(s, a, t, m.pc, y) {
      assert KeyOk(s, y);
    }
    Assembled(s, a, t, m.pc);
  }

  lemma MildThreads(s: State, a: State, t: Tid, m: Move)
    requires ObjectsOk(s) && ThreadsOk(s) && ThreadsSafe(s) && t in s.threads && Touches(s, a, PRIMARY)
    requires a.aux == s.aux
    requires m.Move? && EffectSound(s, m.eff) && Mild(s, s.threads[t], m)
    ensures forall u | u in s.threads && u != t :: ThreadOk(a, s.threads[u])
    ensures ThreadOk(a, m.pc)
  {
    assert ThreadOk(s, s.threads[t]);
    forall u | u in s.threads && u != t ensures ThreadOk(a, s.threads[u]) {
      assert ThreadOk(s, s.threads[u]) && PcOk(s, u, s.threads[u]);
      FramePhase(s, a, PRIMARY, s.threads[u]);
      FrameWaited(s, a, PRIMARY, s.threads[u]);
      FrameExec(s, a, PRIMARY, s.threads[u]);
    }
  }

  // ----- Exec, which may overlap a Start or Delete of its object -----

  /** What Exec does to an object: it becomes created, or only its spec file changes. */
  predicate Made(o: Object, o': Object) {
    && o'.key == o.key && o'.closed == o.closed && o'.proc.pid == o.proc.pid && o'.proc.exit == o.proc.exit
    && (o'.proc.state == o.proc.state || (Blank(o) && Fresh(o')))
  }

  lemma MadePhase(pc: Pc, o: Object, o': Object, h: bool)
    requires Made(o, o') && (HasPid(pc) ==> pc.p != 0)
    ensures Quiet(o, h) ==> Quiet(o', h)
    ensures Mutates(pc).Some? && PhaseOf(pc, o, h) ==> PhaseOf(pc, o', h)
  {}

  /** One program point of Exec: a new blank object, or its own object r. */
  predicate ExecMove(s: State, pc: Pc, m: Move, r: Ref) {
    && pc.Exec? && m.Move? && EffectOk(s, m.eff) && Local(s, m.eff, pc.x, r)
    && !m.eff.Unmap? && !m.eff.Close? && !m.eff.Spawned?
    && (m.pc.Exec? || (m.pc.Done? && !m.pc.result.Waited?))
    && r != PRIMARY && r <= |s.procs|
    && (r < |s.procs| ==> Made(s.procs[r], After(s.procs[r], m.eff)))
    && (m.eff.NewObject? <==> r == |s.procs| && m.pc.Exec?)
    && (Making(m.pc) ==>
          && m.pc.r == r
          && (m.eff.NewObject? || (Making(pc) && pc.r == r && Blank(After(s.procs[r], m.eff)))))
    && (Making(pc) ==> pc.r == r)
    && (r < |s.procs| && After(s.procs[r], m.eff).proc.state != s.procs[r].proc.state ==> Making(pc))
  }

  lemma ExecMoves(s: State, t: Tid, pc: Pc, c: Choice)
    requires pc.Exec? && ObjectsOk(s) && PcOk(s, t, pc) && ExecOk(s, pc)
    ensures var m := ExecuteExec(s, pc, c);
            m.Move? && EffectOk(s, m.eff) ==> ExecMove(s, pc, m, if HasRef(pc) then pc.r else |s.procs|)
  {}

  lemma ExecObjects(s: State, a: State, pc: Pc, m: Move, r: Ref)
    requires Safe(s) && ExecMove(s, pc, m, r) && a == Apply(s, m.eff)
    ensures Touches(s, a, r) && ObjectsSafe(a) && a.threads == s.threads
    ensures forall y | y in a.aux && y in s.aux :: a.aux[y] == s.aux[y]
    ensures forall y | y in s.aux :: y in a.aux
    ensures forall y | y in a.aux && y !in s.aux :: y == pc.x && a.aux[y] == r == |s.procs|
    ensures m.eff.NewObject? ==> r < |a.procs| && Blank(a.procs[r])
    ensures r < |s.procs| ==> a.procs[r] == After(s.procs[r], m.eff)
  {
    assert PcOk(s, EXITS, s.threads[EXITS]);
    LocalTouches(s, m.eff, pc.x, r);
    ApplyFrame(s, m.eff);
    forall q | 0 <= q < |a.procs| ensures ObjectOk(a, q) {
      if q < |s.procs| {
        assert ObjectOk(s, q);
        ExecObject(s, a, pc, m, r, q);
      }
    }
  }

  lemma ExecObject(s: State, a: State, pc: Pc, m: Move, r: Ref, q: Ref)
    requires ObjectsOk(s) && ExecMove(s, pc, m, r) && a == Apply(s, m.eff) && Touches(s, a, r) && q < |s.procs|
    requires ObjectOk(s, q)
    requires forall y | y != pc.x :: SameEntry(s, a, y)
    ensures ObjectOk(a, q)
  {
    if q != r {
      if q != PRIMARY && s.procs[q].key == pc.x && !SameEntry(s, a, pc.x) { assert !Findable(a, q); }
      FrameObject(s, a, r, q);
    } else {
      OwnExecObject(s, a, m, r);
    }
  }

  lemma OwnExecObject(s: State, a: State, m: Move, r: Ref)
    requires r < |s.procs| && Touches(s, a, r) && ObjectOk(s, r) && m.Move? && r != PRIMARY
    requires a.procs[r] == After(s.procs[r], m.eff) && Made(s.procs[r], a.procs[r])
    requires Findable(a, r) ==> Findable(s, r)
    ensures ObjectOk(a, r)
  {}

  lemma ExecPhase(s: State, a: State, r: Ref, u: Tid, pc: Pc)
    requires ObjectsOk(s) && PcOk(s, u, pc) && Touches(s, a, r) && Phase(s, pc)
    requires forall y | y in a.aux && y in s.aux :: a.aux[y] == s.aux[y]
    requires forall y | y in s.aux :: y in a.aux
    requires forall y | y in a.aux && y !in s.aux :: a.aux[y] == r == |s.procs| < |a.procs| && Blank(a.procs[r])
    requires r < |s.procs| ==> Made(s.procs[r], a.procs[r])
    ensures Phase(a, pc)
  {
    if Mutates(pc).Some? && pc.x in s.aux && s.aux[pc.x] == r < |s.procs| {
      MadePhase(pc, s.procs[r], a.procs[r], Handled(s, r));
    }
  }

  lemma ExecOthers(s: State, a: State, t: Tid, m: Move, r: Ref)
    requires Safe(s) && t in s.threads && s.threads[t].Exec? && ExecMove(s, s.threads[t], m, r) && a == Apply(s, m.eff)
    ensures forall u | u in s.threads && u != t :: ThreadOk(a, s.threads[u])
  {
    ExecObjects(s, a, s.threads[t], m, r);
    forall u | u in s.threads && u != t ensures ThreadOk(a, s.threads[u]) {
      assert ThreadOk(s, s.threads[u]) && PcOk(s, u, s.threads[u]);
      ExecPhase(s, a, r, u, s.threads[u]);
      FrameWaited(s, a, r, s.threads[u]);
      FrameExec(s, a, r, s.threads[u]);
    }
  }

  lemma ExecSafe(s: State, t: Tid, c: Choice)
    requires Safe(s) && CanOp(s, t, c) && s.threads[t].Exec?
    ensures Safe(DoOp(s, t, c))
  {
    var pc := s.threads[t];
    assert PcOk(s, t, pc) && ThreadOk(s, pc);
    assert Execute(s, pc, c) == ExecuteExec(s, pc, c);
    ExecMoves(s, t, pc, c);
    OpWell(s, t, c);
    OpScanOk(s, t, c);
    ExecAssembled(s, t, Execute(s, pc, c), if HasRef(pc) then pc.r else |s.procs|);
  }

  lemma ExecAssembled(s: State, t: Tid, m: Move, r: Ref)
    requires Safe(s) && t in s.threads && t != EXITS && s.threads[t].Exec? && ExecMove(s, s.threads[t], m, r)
    requires var s' := Apply(s, m.eff).(threads := s.threads[t := m.pc]); Well(s') && ScanOk(s')
    ensures Safe(Apply(s, m.eff).(threads := s.threads[t := m.pc]))
  {
    var a := Apply(s, m.eff);
    ExecObjects(s, a, s.threads[t], m, r);
    ExecOthers(s, a, t, m, r);
    FrameExits(s, a, r);
    MakersApart(s, t, m, r);
    ExecKeys(s, a, t, m, r);
    Assembled(s, a, t, m.pc);
  }

  lemma MakersApart(s: State, t: Tid, m: Move, r: Ref)
    requires Safe(s) && t in s.threads && ExecMove(s, s.threads[t], m, r)
    ensures Making(m.pc) ==>
              || (Making(s.threads[t]) && m.pc.r == s.threads[t].r)
              || forall u | u in s.threads && Making(s.threads[u]) :: s.threads[u].r != m.pc.r
  {
    if m.eff.NewObject? {
      forall u | u in s.threads && Making(s.threads[u]) ensures s.threads[u].r < |s.procs| {
        assert ThreadOk(s, s.threads[u]);
      }
    }
  }

  lemma ExecKeys(s: State, a: State, t: Tid, m: Move, r: Ref)
    requires Safe(s) && t in s.threads && s.threads[t].Exec? && ExecMove(s, s.threads[t], m, r) && a == Apply(s, m.eff)
    ensures forall y | y in a.aux :: KeyStays(s, a, t, m.pc, y)
  {
    ExecObjects(s, a, s.threads[t], m, r);
    forall y | y in a.aux ensures KeyStays(s, a, t, m.pc, y) {
      if y in s.aux {
        assert KeyOk(s, y);
        if s.aux[y] == r { MadePhase(s.threads[t], s.procs[r], a.procs[r], Handled(s, r)); }
      }
    }
  }

  // ----- the exit goroutine -----

  /** How an object may look after a step of the exit goroutine. */
  predicate Carries(o: Object, h: bool, o': Object, h': bool) {
    && o'.key == o.key && o'.proc.pid == o.proc.pid
    && (|| (o' == o && (Settled(o, h) ==> Settled(o', h')))
        || (h && o.proc.pid != 0 && o.closed == [] && Settled(o', h')
            && (o'.proc.state == o.proc.state || o'.proc.state == Stopped)))
  }

  lemma CarriesPhase(pc: Pc, o: Object, h: bool, o': Object, h': bool)
    requires Carries(o, h, o', h')
    ensures Quiet(o, h) ==> Quiet(o', h')
    ensures PhaseOf(pc, o, h) && Mutates(pc).Some? ==> PhaseOf(pc, o', h')
  {}

  predicate ReapStep(s: State, s': State) {
    && EXITS in s.threads && EXITS in s'.threads
    && s'.aux == s.aux && |s'.procs| == |s.procs| && s.log <= s'.log
    && s'.threads.Keys == s.threads.Keys
    && (forall u | u in s.threads && u != EXITS :: s'.threads[u] == s.threads[u])
    && s'.reported == s.reported && s'.delivered == s.delivered
    && s'.threads[EXITS].Reap? && s.threads[EXITS].Reap?
    && forall q | 0 <= q < |s.procs| :: Carries(s.procs[q], Handled(s, q), s'.procs[q], Handled(s', q))
  }

  lemma ReapPhase(s: State, s': State, pc: Pc)
    requires ObjectsOk(s) && ObjectsSafe(s) && ReapStep(s, s') && Phase(s, pc)
    ensures Phase(s', pc)
  {
    if Mutates(pc).Some? && pc.x in s.aux {
      var r := s.aux[pc.x];
      assert ObjectOk(s, r);
      CarriesPhase(pc, s.procs[r], Handled(s, r), s'.procs[r], Handled(s', r));
    }
  }

  lemma ReapAssembled(s: State, s': State)
    requires Safe(s) && ReapStep(s, s') && Well(s') && ScanOk(s') && ExitsOk(s') && ObjectsSafe(s')
    ensures Safe(s')
  {
    ReapThreads(s, s');
    ReapKeys(s, s');
    assert forall u | u in s'.threads && Mutates(s'.threads[u]).Some? :: u != EXITS;
  }

  lemma ReapThreads(s: State, s': State)
    requires ObjectsOk(s) && ObjectsSafe(s) && ThreadsSafe(s) && ReapStep(s, s')
    ensures ThreadsSafe(s')
  {
    forall u | u in s'.threads ensures ThreadOk(s', s'.threads[u]) {
      if u != EXITS {
        assert ThreadOk(s, s.threads[u]);
        ReapPhase(s, s', s.threads[u]);
        assert ExecOk(s', s.threads[u]);
      }
    }
  }

  lemma ReapKeys(s: State, s': State)
    requires ObjectsOk(s) && KeysSafe(s) && ReapStep(s, s')
    ensures KeysSafe(s')
  {
    forall x | x in s'.aux ensures KeyOk(s', x) {
      var r := s.aux[x];
      assert KeyOk(s, x);
      if Quiet(s.procs[r], Handled(s, r)) {
        CarriesPhase(s.threads[EXITS], s.procs[r], Handled(s, r), s'.procs[r], Handled(s', r));
      } else {
        var u :| u in s.threads && Mutates(s.threads[u]) == Some(x);
        assert s'.threads[u] == s.threads[u];
      }
    }
  }

  /** An object that the exit goroutine neither holds nor gets to hold. */
  lemma FrameReap(s: State, s': State, q: Ref)
    requires q < |s.procs| && q < |s'.procs| && s'.procs[q] == s.procs[q] && ObjectOk(s, q)
    requires s'.aux == s.aux && s'.reported == s.reported && s'.delivered == s.delivered && s.log <= s'.log
    requires Handled(s', q) == Handled(s, q)
    requires forall p | Pending(s', p) :: Pending(s, p)
    ensures ObjectOk(s', q)
  {}

  /** findProcess goes on looking, takes the next exit, or drops one that belongs to nobody. */
  lemma LookupStep(s: State, s': State, eff: Effect, pc: Pc)
    requires Safe(s) && EffectOk(s, eff) && (eff.Nothing? || eff.TakeExit?)
    requires s' == Apply(s, eff).(threads := s.threads[EXITS := pc]) && pc.Reap?
    requires !HandlesExit(s.threads[EXITS]) && !HandlesExit(pc) && s.threads[EXITS].Reap?
    requires eff.TakeExit? ==> s.threads[EXITS].rop.RIdle? && pc.e == s.exits[0]
    requires eff.Nothing? ==> pc.rop.RIdle? || (LooksUp(s.threads[EXITS]) && pc.e == s.threads[EXITS].e)
    ensures ReapStep(s, s') && ExitsOk(s') && ObjectsSafe(s')
  {
    LookupPending(s, s', eff, pc);
    forall q | 0 <= q < |s'.procs| ensures ObjectOk(s', q) {
      assert ObjectOk(s, q);
      FrameReap(s, s', q);
    }
  }

  lemma LookupPending(s: State, s': State, eff: Effect, pc: Pc)
    requires ExitsOk(s) && EffectOk(s, eff) && (eff.Nothing? || eff.TakeExit?)
    requires s' == Apply(s, eff).(threads := s.threads[EXITS := pc]) && pc.Reap?
    requires !HandlesExit(s.threads[EXITS]) && !HandlesExit(pc) && s.threads[EXITS].Reap?
    requires eff.TakeExit? ==> s.threads[EXITS].rop.RIdle? && pc.e == s.exits[0]
    requires eff.Nothing? ==> pc.rop.RIdle? || (LooksUp(s.threads[EXITS]) && pc.e == s.threads[EXITS].e)
    ensures ExitsOk(s') && forall p | Pending(s', p) :: Pending(s, p)
  {}

  /** findProcess finds the process of the exit: it has not been closed before. */
  lemma FoundStep(s: State, s': State, pc: Pc)
    requires Safe(s) && LooksUp(s.threads[EXITS]) && s' == s.(threads := s.threads[EXITS := pc])
    requires HandlesExit(pc) && (pc.rop.RKill? || pc.rop.RSetState?) && pc.e == s.threads[EXITS].e && pc.e.pid != 0
    requires pc.r < |s.procs| && Findable(s, pc.r) && s.procs[pc.r].proc.pid == pc.e.pid
    ensures ReapStep(s, s') && ExitsOk(s') && ObjectsSafe(s')
  {
    assert Pending(s, pc.e.pid);
    assert ObjectOk(s, pc.r);
    NoLongerPending(s, s', pc);
    FoundObjects(s, s', pc);
    FoundReaps(s, s', pc);
  }

  lemma FoundObjects(s: State, s': State, pc: Pc)
    requires EXITS in s.threads && LooksUp(s.threads[EXITS]) && s' == s.(threads := s.threads[EXITS := pc])
    requires HandlesExit(pc) && pc.e.pid != 0 && pc.r < |s.procs| && s.procs[pc.r].proc.pid == pc.e.pid
    requires pc.e.pid in s.reported && forall p | Pending(s', p) :: Pending(s, p) && p != pc.e.pid
    requires ObjectsSafe(s) && s.procs[pc.r].closed == []
    ensures ObjectsSafe(s')
  {
    forall q | 0 <= q < |s'.procs| ensures ObjectOk(s', q) {
      assert ObjectOk(s, q);
      FoundObject(s, s', pc, q);
    }
  }

  /** Nothing is held before, and the object that is held now was not closed. */
  lemma FoundReaps(s: State, s': State, pc: Pc)
    requires ExitsOk(s) && LooksUp(s.threads[EXITS]) && s' == s.(threads := s.threads[EXITS := pc])
    requires HandlesExit(pc) && (pc.rop.RKill? || pc.rop.RSetState?) && pc.e == s.threads[EXITS].e
    requires pc.r < |s.procs| && ExitOk(s, pc.r) && s.procs[pc.r].closed == []
    ensures ReapStep(s, s') && ExitsOk(s')
  {}

  lemma NoLongerPending(s: State, s': State, pc: Pc)
    requires ExitsOk(s) && LooksUp(s.threads[EXITS]) && s' == s.(threads := s.threads[EXITS := pc])
    requires HandlesExit(pc) && pc.e == s.threads[EXITS].e
    ensures pc.e.pid in s.reported && forall p | Pending(s', p) :: Pending(s, p) && p != pc.e.pid
  {}

  lemma FoundObject(s: State, s': State, pc: Pc, q: Ref)
    requires EXITS in s.threads && LooksUp(s.threads[EXITS]) && s' == s.(threads := s.threads[EXITS := pc])
    requires HandlesExit(pc) && pc.e.pid != 0 && pc.r < |s.procs| && s.procs[pc.r].proc.pid == pc.e.pid
    requires pc.e.pid in s.reported && forall p | Pending(s', p) :: Pending(s, p) && p != pc.e.pid
    requires q < |s.procs| && ObjectOk(s, q) && (q == pc.r ==> s.procs[q].closed == [])
    ensures ObjectOk(s', q)
  {}

  /** Recording the exit and queueing the event. */
  lemma HandleStep(s: State, s': State, eff: Effect, pc: Pc)
    requires Safe(s) && HandlesExit(s.threads[EXITS]) && EffectOk(s, eff)
    requires s' == Apply(s, eff).(threads := s.threads[EXITS := pc]) && ExitsOk(s')
    requires HandlesExit(pc) && pc.r == s.threads[EXITS].r < |s.procs|
    requires eff.Nothing? || eff.Send? || (eff.Set? && eff.r == pc.r && eff.proc.pid == s.procs[pc.r].proc.pid
               && (eff.proc.state == s.procs[pc.r].proc.state || eff.proc.state == Stopped))
    ensures ReapStep(s, s') && ObjectsSafe(s')
  {
    assert forall p | Pending(s', p) :: Pending(s, p);
    assert ObjectOk(s, pc.r);
    HeldObject(s, s', eff, pc);
    HeldReaps(s, s', eff, pc);
    forall q | 0 <= q < |s'.procs| ensures ObjectOk(s', q) {
      assert ObjectOk(s, q);
      if q != pc.r { FrameReap(s, s', q); }
    }
  }

  lemma HeldReaps(s: State, s': State, eff: Effect, pc: Pc)
    requires EXITS in s.threads && HandlesExit(s.threads[EXITS]) && EffectOk(s, eff)
    requires s' == Apply(s, eff).(threads := s.threads[EXITS := pc])
    requires HandlesExit(pc) && pc.r == s.threads[EXITS].r < |s.procs| && ObjectOk(s, pc.r)
    requires eff.Nothing? || eff.Send? || (eff.Set? && eff.r == pc.r && eff.proc.pid == s.procs[pc.r].proc.pid
               && (eff.proc.state == s.procs[pc.r].proc.state || eff.proc.state == Stopped))
    ensures ReapStep(s, s')
  {}

  lemma HeldObject(s: State, s': State, eff: Effect, pc: Pc)
    requires EXITS in s.threads && HandlesExit(s.threads[EXITS]) && EffectOk(s, eff)
    requires s' == Apply(s, eff).(threads := s.threads[EXITS := pc])
    requires HandlesExit(pc) && pc.r == s.threads[EXITS].r < |s.procs|
    requires eff.Nothing? || eff.Send? || (eff.Set? && eff.r == pc.r && eff.proc.pid == s.procs[pc.r].proc.pid)
    requires ObjectOk(s, pc.r) && forall p | Pending(s', p) :: Pending(s, p)
    ensures ObjectOk(s', pc.r)
  {}

  lemma CloseStep(s: State, s': State, pc: Pc)
    requires Safe(s) && HandlesExit(s.threads[EXITS]) && s.threads[EXITS].rop.RClose?
    requires s.threads[EXITS].r < |s.procs| && pc == Reap(RIdle, NO_EXIT, {}, "", PRIMARY)
    requires s' == Apply(s, Close(s.threads[EXITS].r, ByExit)).(threads := s.threads[EXITS := pc])
    ensures ReapStep(s, s') && ExitsOk(s') && ObjectsSafe(s')
  {
    assert forall p | Pending(s', p) :: Pending(s, p);
    var r := s.threads[EXITS].r;
    assert PcOk(s, EXITS, s.threads[EXITS]);
    assert ObjectOk(s, r);
    ClosedObject(s, s', r);
    forall q | 0 <= q < |s'.procs| ensures ObjectOk(s', q) {
      assert ObjectOk(s, q);
      if q != r { FrameReap(s, s', q); }
    }
  }

  lemma ClosedObject(s: State, s': State, r: Ref)
    requires EXITS in s.threads && HandlesExit(s.threads[EXITS]) && s.threads[EXITS].rop.RClose?
    requires s.threads[EXITS].r == r < |s.procs|
    requires s' == Apply(s, Close(r, ByExit)).(threads := s.threads[EXITS := Reap(RIdle, NO_EXIT, {}, "", PRIMARY)])
    requires PcOk(s, EXITS, s.threads[EXITS]) && ReapOk(s, s.threads[EXITS]) && ObjectOk(s, r)
    requires s.threads[EXITS].e.pid != 0
    requires forall p | Pending(s', p) :: Pending(s, p)
    ensures ObjectOk(s', r)
  {}

  lemma ReapHandles(s: State, pc: Pc, c: Choice)
    requires HandlesExit(pc) && !pc.rop.RClose? && RefsOk(s, pc)
    ensures var m := ExecuteReap(s, pc, c);
            && m.Move? && HandlesExit(m.pc) && m.pc.r == pc.r && m.pc.e == pc.e && m.pc.x == pc.x
            && (m.eff.Nothing? || m.eff.Send?
                || (m.eff.Set? && m.eff.r == pc.r && m.eff.proc.pid == s.procs[pc.r].proc.pid
                    && (m.eff.proc.state == s.procs[pc.r].proc.state || m.eff.proc.state == Stopped)))
            && (EffectOk(s, m.eff) && ReapOk(s, pc) ==> ReapOk(Apply(s, m.eff), m.pc))
  {}

  lemma ReapLooks(s: State, t: Tid, pc: Pc, c: Choice)
    requires pc.Reap? && !HandlesExit(pc) && RefsOk(s, pc) && ObjectsOk(s) && PcOk(s, t, pc)
    requires Scanning(pc) ==> ScanAgrees(s, pc)
    ensures var m := ExecuteReap(s, pc, c);
            m.Move? ==>
              && m.pc.Reap?
              && (if HandlesExit(m.pc) then
                    && LooksUp(pc) && m.eff.Nothing? && (m.pc.rop.RKill? || m.pc.rop.RSetState?) && m.pc.e == pc.e
                    && m.pc.r < |s.procs| && Findable(s, m.pc.r) && s.procs[m.pc.r].proc.pid == m.pc.e.pid
                  else if m.eff.TakeExit? then pc.rop.RIdle? && s.exits != [] && m.pc.e == s.exits[0]
                  else m.eff.Nothing? && (m.pc.rop.RIdle? || (LooksUp(pc) && m.pc.e == pc.e)))
  {}

  lemma ReapSafe(s: State, c: Choice)
    requires Safe(s) && CanOp(s, EXITS, c)
    ensures Safe(DoOp(s, EXITS, c))
  {
    var pc := s.threads[EXITS];
    assert PcOk(s, EXITS, pc);
    OpWell(s, EXITS, c);
    OpScanOk(s, EXITS, c);
    assert Execute(s, pc, c) == ExecuteReap(s, pc, c);
    ReapMoveSafe(s, c);
  }

  lemma ReapMoveSafe(s: State, c: Choice)
    requires Safe(s) && s.threads[EXITS].Reap? && RefsOk(s, s.threads[EXITS])
    requires var m := ExecuteReap(s, s.threads[EXITS], c);
             && m.Move? && EffectOk(s, m.eff)
             && var s' := Apply(s, m.eff).(threads := s.threads[EXITS := m.pc]); Well(s') && ScanOk(s')
    ensures var m := ExecuteReap(s, s.threads[EXITS], c);
            Safe(Apply(s, m.eff).(threads := s.threads[EXITS := m.pc]))
  {
    var pc := s.threads[EXITS];
    var m := ExecuteReap(s, pc, c);
    var s' := Apply(s, m.eff).(threads := s.threads[EXITS := m.pc]);
    if HandlesExit(pc) { HandlingStep(s, c, s'); } else { LookingStep(s, c, s'); }
    ReapAssembled(s, s');
  }

  lemma LookingStep(s: State, c: Choice, s': State)
    requires Safe(s) && s.threads[EXITS].Reap? && !HandlesExit(s.threads[EXITS]) && RefsOk(s, s.threads[EXITS])
    requires var m := ExecuteReap(s, s.threads[EXITS], c);
             m.Move? && EffectOk(s, m.eff) && s' == Apply(s, m.eff).(threads := s.threads[EXITS := m.pc])
    ensures ReapStep(s, s') && ExitsOk(s') && ObjectsSafe(s')
  {
    var pc := s.threads[EXITS];
    var m := ExecuteReap(s, pc, c);
    assert PcOk(s, EXITS, pc);
    ReapLooks(s, EXITS, pc, c);
    if HandlesExit(m.pc) { FoundStep(s, s', m.pc); } else { LookupStep(s, s', m.eff, m.pc); }
  }

  lemma HandlingStep(s: State, c: Choice, s': State)
    requires Safe(s) && HandlesExit(s.threads[EXITS]) && RefsOk(s, s.threads[EXITS])
    requires var m := ExecuteReap(s, s.threads[EXITS], c);
             m.Move? && EffectOk(s, m.eff) && s' == Apply(s, m.eff).(threads := s.threads[EXITS := m.pc])
    ensures ReapStep(s, s') && ExitsOk(s') && ObjectsSafe(s')
  {
    var pc := s.threads[EXITS];
    var m := ExecuteReap(s, pc, c);
    if pc.rop.RClose? {
      CloseStep(s, s', m.pc);
    } else {
      ReapHandles(s, pc, c);
      SameExitsAfter(s, m.eff, s');
      HandleStep(s, s', m.eff, m.pc);
    }
  }

  lemma SameExitsAfter(s: State, eff: Effect, s': State)
    requires ExitsOk(s) && EffectOk(s, eff) && (eff.Nothing? || eff.Send? || eff.Set?)
    requires EXITS in s'.threads && s' == Apply(s, eff).(threads := s'.threads)
    requires HandlesExit(s'.threads[EXITS]) && ReapOk(Apply(s, eff), s'.threads[EXITS])
    ensures ExitsOk(s')
  {}

  // ----- all steps -----

  lemma ReportSafe(s: State, e: Exit, s': State)
    requires Safe(s) && Next(s, ReapExit(e), s') && Disciplined(s, ReapExit(e))
    ensures Safe(s')
  {
    NextWell(s, ReapExit(e), s');
    assert forall q | Pending(s', q) && q != e.pid :: Pending(s, q);
    ObjectsAfterReport(s, s', e.pid);
    ThreadsAfterReport(s, s');
    ExitsAfterReport(s, e, s');
  }

  lemma ExitsAfterReport(s: State, e: Exit, s': State)
    requires ExitsOk(s) && e.pid !in s.reported
    requires s' == s.(exits := s.exits + [e], reported := s.reported + {e.pid}, delivered := s.delivered + {e})
    ensures ExitsOk(s')
  {}

  lemma ReuseSafe(s: State, p: nat, s': State)
    requires Safe(s) && Next(s, Reuse(p), s') && Disciplined(s, Reuse(p))
    ensures Safe(s')
  {
    NextWell(s, Reuse(p), s');
    assert forall q | Pending(s', q) :: Pending(s, q);
    ObjectsAfterReport(s, s', p);
    ThreadsAfterReport(s, s');
  }

  lemma ThreadsAfterReport(s: State, s': State)
    requires Safe(s) && s' == s.(exits := s'.exits, reported := s'.reported, delivered := s'.delivered)
    requires s.delivered <= s'.delivered
    ensures ThreadsSafe(s') && KeysSafe(s')
  {
    forall u | u in s'.threads ensures ThreadOk(s', s'.threads[u]) { assert ThreadOk(s, s.threads[u]); }
    forall x | x in s'.aux ensures KeyOk(s', x) { assert KeyOk(s, x); }
  }

  /** A change in what is reported about a PID that no settled object can have. */
  lemma ObjectsAfterReport(s: State, s': State, p: nat)
    requires Safe(s) && s' == s.(exits := s'.exits, reported := s'.reported, delivered := s'.delivered)
    requires s.delivered <= s'.delivered
    requires forall q | q in s.reported && q != p :: q in s'.reported
    requires forall q | Pending(s', q) && q != p :: Pending(s, q)
    requires p !in s.reported || !Recorded(s, p)
    ensures ObjectsSafe(s')
  {
    forall q | 0 <= q < |s'.procs| ensures ObjectOk(s', q) { assert ObjectOk(s, q); }
  }

  /** Locks and the forwarder's position play no part. */
  lemma LockStepSafe(s: State, s': State)
    requires Safe(s) && Well(s')
    requires s' == s.(locks := s'.locks, taken := s'.taken)
    ensures Safe(s')
  {
    forall q | 0 <= q < |s'.procs| ensures ObjectOk(s', q) { assert ObjectOk(s, q); }
    forall x | x in s'.aux ensures KeyOk(s', x) { assert KeyOk(s, x); }
    forall u | u in s'.threads ensures ThreadOk(s', s'.threads[u]) { assert ThreadOk(s, s.threads[u]); }
  }

  lemma ArriveSafe(s: State, t: Tid, pc: Pc, s': State)
    requires Safe(s) && Next(s, Arrive(t, pc), s') && Disciplined(s, Arrive(t, pc)) && Well(s')
    ensures Safe(s')
  {
    SameExitThread(s, s');
    SameExits(s, s');
    ArriveKeys(s, s');
    ArriveThreads(s, t, pc, s');
    ArriveMutators(s, t, pc, s');
  }

  lemma ArriveMutators(s: State, t: Tid, pc: Pc, s': State)
    requires OneMutator(s) && OneMaker(s) && Next(s, Arrive(t, pc), s') && Disciplined(s, Arrive(t, pc))
    ensures OneMutator(s') && OneMaker(s')
  {
    assert !Making(pc);
  }

  lemma ArriveKeys(s: State, s': State)
    requires KeysSafe(s) && s' == s.(threads := s'.threads) && EXITS in s.threads
    requires forall u | u in s.threads :: u in s'.threads && s'.threads[u] == s.threads[u]
    ensures KeysSafe(s')
  {
    forall x | x in s'.aux ensures KeyOk(s', x) { assert KeyOk(s, x); }
  }

  lemma ArriveThreads(s: State, t: Tid, pc: Pc, s': State)
    requires Safe(s) && Next(s, Arrive(t, pc), s') && Disciplined(s, Arrive(t, pc))
    requires forall q | ThreadOk(s, q) :: ThreadOk(s', q)
    ensures ThreadsSafe(s')
  {
    ArrivedOk(s, t, pc);
    forall u | u in s'.threads ensures ThreadOk(s', s'.threads[u]) {
      assert u in s.threads ==> ThreadOk(s, s.threads[u]);
    }
  }

  lemma ArrivedOk(s: State, t: Tid, pc: Pc)
    requires Safe(s) && Entry(pc) && Disciplined(s, Arrive(t, pc))
    ensures ThreadOk(s, pc)
  {
    if Mutates(pc).Some? && pc.x in s.aux { assert KeyOk(s, pc.x); }
  }

  lemma NextSafe(s: State, step: Step, s': State)
    requires Safe(s) && Next(s, step, s') && Disciplined(s, step)
    ensures Safe(s')
  {
    match step
    case Op(t, c) =>
      assert PcOk(s, t, s.threads[t]);
      if t == EXITS { ReapSafe(s, c); }
      else if Mutates(s.threads[t]).Some? { MutatorSafe(s, t, c); }
      else if s.threads[t].Exec? { ExecSafe(s, t, c); }
      else { MildSafe(s, t, c); }
    case ReapExit(e) => ReportSafe(s, e, s');
    case Reuse(p) => ReuseSafe(s, p, s');
    case Arrive(t, pc) => NextWell(s, step, s'); ArriveSafe(s, t, pc, s');
    case _ => NextWell(s, step, s'); LockStepSafe(s, s');
  }

  lemma {:induction false} RunSafe(ss: seq<State>, steps: seq<Step>, n: nat)
    requires IsDisciplinedRun(ss, steps) && n < |ss|
    ensures Safe(ss[n])
  {
    if n > 0 {
      RunSafe(ss, steps, n - 1);
      NextSafe(ss[n - 1], steps[n - 1], ss[n]);
    }
  }

  // ----- the theorems -----

  /** The channel of a process is closed at most once, whoever closes it; a second
      close would end the shim with a panic. */
  lemma WaitblockClosedOnce(ss: seq<State>, steps: seq<Step>, n: nat, r: Ref)
    requires IsDisciplinedRun(ss, steps) && n < |ss| && r < |ss[n].procs|
    ensures |ss[n].procs[r].closed| <= 1
  {
    RunSafe(ss, steps, n);
    assert ObjectOk(ss[n], r);
  }

  /** What Wait returns: after checkProcesses closed the channel, exactly an exit the
      reaper delivered for the process's PID, whose TaskExit is already queued; after
      a failed start or a Delete, the zero exit. */
  lemma WaitReturnsTheExit(ss: seq<State>, steps: seq<Step>, n: nat, t: Tid)
    requires IsDisciplinedRun(ss, steps) && n < |ss|
    requires t in ss[n].threads && ss[n].threads[t].Done? && ss[n].threads[t].result.Waited?
    ensures var w := ss[n].threads[t].result;
            && w.r < |ss[n].procs|
            && var o := ss[n].procs[w.r];
               && (o.closed == [ByExit] || o.closed == [ByStart] || o.closed == [ByDelete])
               && (o.closed == [ByExit] ==>
                     && w.exit.pid == o.proc.pid != 0 && w.exit in ss[n].delivered
                     && TaskExit(o.key, w.exit) in ss[n].log)
               && (o.closed != [ByExit] ==> w.exit == NO_EXIT)
  {
    RunSafe(ss, steps, n);
    assert ThreadOk(ss[n], ss[n].threads[t]);
    assert ObjectOk(ss[n], ss[n].threads[t].result.r);
  }
}
