/** What every reachable state of the shim keeps: identities of objects, who
    holds which lock, and the bounds of the event queue. */
module ShimInvariant {
  import opened Shim

  /** Program points of Exec, Start and Delete that refer to an object of the map. */
  predicate OfAuxiliary(pc: Pc) {
    HasRef(pc) && (pc.Exec? || pc.Start? || pc.Delete? || (pc.Reap? && pc.rop.RProbe?))
  }

  /** startAux has a PID to record or has recorded it. */
  predicate HasPid(pc: Pc) {
    pc.Start? && (pc.sop.SSetPid? || Announcing(pc))
  }

  /** startAux has recorded the PID and has not yet sent the start event. */
  predicate Announcing(pc: Pc) {
    pc.Start? && (pc.sop.SConsole? || pc.sop.SSetState? || pc.sop.SSend?)
  }

  predicate PcOk(s: State, t: Tid, pc: Pc) {
    && (pc.Reap? <==> t == EXITS)
    && (HasRef(pc) ==> pc.r < |s.procs| && s.procs[pc.r].key == pc.x)
    && (OfAuxiliary(pc) ==> pc.r != PRIMARY)
    && (pc.Start? ==> pc.x != "")
    && (HasPid(pc) ==> pc.p != 0)
    && (pc.Reap? && !pc.rop.RIdle? ==> pc.e.pid != 0)
    && (HandlesExit(pc) ==> s.procs[pc.r].proc.pid == pc.e.pid)
  }

  predicate ObjectsOk(s: State) {
    && 0 < |s.procs|
    && s.procs[PRIMARY].key == ""
    && (forall x | x in s.aux :: PRIMARY != s.aux[x] < |s.procs| && s.procs[s.aux[x]].key == x)
    && (forall i | 0 <= i < |s.exits| :: s.exits[i].pid != 0)
  }

  predicate ThreadsOk(s: State) {
    && EXITS in s.threads
    && forall t | t in s.threads :: PcOk(s, t, s.threads[t])
  }

  /** A lock belongs to a thread, and a thread inside a critical section owns it. */
  predicate LocksOk(s: State) {
    && (forall l | l in s.locks :: s.locks[l] in s.threads)
    && (forall t, l | t in s.threads && l in Outer(s.threads[t]) :: l in s.locks && s.locks[l] == t)
  }

  predicate QueueOk(s: State) {
    s.taken <= |s.log| <= s.taken + CAPACITY
  }

  predicate Well(s: State) {
    ObjectsOk(s) && ThreadsOk(s) && LocksOk(s) && QueueOk(s)
  }

  // ----- preservation -----

  /** Objects are never dropped or renamed, and a recorded PID stays. */
  predicate Extends(s: State, s': State) {
    && |s.procs| <= |s'.procs|
    && forall r | 0 <= r < |s.procs| ::
         && s'.procs[r].key == s.procs[r].key
         && (s.procs[r].proc.pid != 0 ==> s'.procs[r].proc.pid == s.procs[r].proc.pid)
  }

  predicate EffectSound(s: State, eff: Effect) {
    && EffectOk(s, eff)
    && (eff.Set? && s.procs[eff.r].proc.pid != 0 ==> eff.proc.pid == s.procs[eff.r].proc.pid)
    && (eff.NewObject? ==> eff.x !in s.aux)
  }

  lemma ApplySound(s: State, eff: Effect)
    requires EffectSound(s, eff)
    ensures Extends(s, Apply(s, eff))
    ensures ObjectsOk(s) ==> ObjectsOk(Apply(s, eff))
  {}

  lemma PcOkExtends(s: State, s': State, t: Tid, pc: Pc)
    requires Extends(s, s') && PcOk(s, t, pc)
    ensures PcOk(s', t, pc)
  {}

  /** One handler's program points: sound effects, a well-formed successor, and
      no lock needed at the successor that was not needed before. */
  predicate MoveSound(s: State, t: Tid, pc: Pc, m: Move) {
    m.Move? && EffectOk(s, m.eff) ==>
      EffectSound(s, m.eff) && PcOk(Apply(s, m.eff), t, m.pc) && Outer(m.pc) <= Needs(pc)
  }

  lemma ExecSound(s: State, t: Tid, pc: Pc, c: Choice)
    requires pc.Exec? && ObjectsOk(s) && PcOk(s, t, pc)
    ensures MoveSound(s, t, pc, ExecuteExec(s, pc, c))
  {}

  lemma StartSound(s: State, t: Tid, pc: Pc, c: Choice)
    requires pc.Start? && ObjectsOk(s) && PcOk(s, t, pc)
    ensures MoveSound(s, t, pc, ExecuteStart(s, pc, c))
  {
    if pc.sop.SGet? || pc.sop.SCheck? || pc.sop.SLock? || pc.sop.SStdio? || pc.sop.SSpec? || pc.sop.SSpecfile? {
      BeforeRunSound(s, t, pc, c);
    } else {
      AfterRunSound(s, t, pc, c);
    }
  }

  lemma BeforeRunSound(s: State, t: Tid, pc: Pc, c: Choice)
    requires pc.Start? && ObjectsOk(s) && PcOk(s, t, pc)
    requires pc.sop.SGet? || pc.sop.SCheck? || pc.sop.SLock? || pc.sop.SStdio? || pc.sop.SSpec? || pc.sop.SSpecfile?
    ensures MoveSound(s, t, pc, ExecuteStart(s, pc, c))
  {}

  lemma AfterRunSound(s: State, t: Tid, pc: Pc, c: Choice)
    requires pc.Start? && ObjectsOk(s) && PcOk(s, t, pc)
    requires !pc.sop.SGet? && !pc.sop.SCheck? && !pc.sop.SLock? && !pc.sop.SStdio? && !pc.sop.SSpec?
    requires !pc.sop.SSpecfile?
    ensures MoveSound(s, t, pc, ExecuteStart(s, pc, c))
  {}

  lemma InitSound(s: State, t: Tid, pc: Pc, c: Choice)
    requires pc.Init? && ObjectsOk(s) && PcOk(s, t, pc)
    ensures MoveSound(s, t, pc, ExecuteInit(s, pc, c))
  {}

  lemma DeleteSound(s: State, t: Tid, pc: Pc, c: Choice)
    requires pc.Delete? && ObjectsOk(s) && PcOk(s, t, pc)
    ensures MoveSound(s, t, pc, ExecuteDelete(s, pc, c))
  {}

  lemma PeekSound(s: State, t: Tid, pc: Pc, c: Choice)
    requires pc.Peek? && ObjectsOk(s) && PcOk(s, t, pc)
    ensures MoveSound(s, t, pc, ExecutePeek(s, pc, c))
  {}

  lemma WaitSound(s: State, t: Tid, pc: Pc)
    requires pc.Wait? && ObjectsOk(s) && PcOk(s, t, pc)
    ensures MoveSound(s, t, pc, ExecuteWait(s, pc))
  {}

  lemma CreateSound(s: State, t: Tid, pc: Pc, c: Choice)
    requires pc.Create? && ObjectsOk(s) && PcOk(s, t, pc)
    ensures MoveSound(s, t, pc, ExecuteCreate(s, pc, c))
  {}

  lemma ReapSound(s: State, t: Tid, pc: Pc, c: Choice)
    requires pc.Reap? && ObjectsOk(s) && PcOk(s, t, pc)
    ensures MoveSound(s, t, pc, ExecuteReap(s, pc, c))
  {
    if HandlesExit(pc) { HandlerSound(s, t, pc, c); }
  }

  lemma HandlerSound(s: State, t: Tid, pc: Pc, c: Choice)
    requires HandlesExit(pc) && ObjectsOk(s) && PcOk(s, t, pc)
    ensures MoveSound(s, t, pc, ExecuteReap(s, pc, c))
  {
    assert !pc.rop.RIdle?;
  }

  lemma ExecuteSound(s: State, t: Tid, pc: Pc, c: Choice)
    requires ObjectsOk(s) && PcOk(s, t, pc)
    ensures MoveSound(s, t, pc, Execute(s, pc, c))
  {
    match pc
    case Exec(_, _, _) => ExecSound(s, t, pc, c);
    case Start(_, _, _, _) => StartSound(s, t, pc, c);
    case Init(_, _, _) => InitSound(s, t, pc, c);
    case Delete(_, _, _) => DeleteSound(s, t, pc, c);
    case Peek(_, _, _) => PeekSound(s, t, pc, c);
    case Wait(_, _, _) => WaitSound(s, t, pc);
    case Create(_, _) => CreateSound(s, t, pc, c);
    case Reap(_, _, _, _, _) => ReapSound(s, t, pc, c);
    case Done(_) =>
  }

  lemma MoveThreadsOk(s: State, a: State, t: Tid, pc: Pc)
    requires ThreadsOk(s) && t in s.threads && Extends(s, a) && PcOk(a, t, pc)
    ensures ThreadsOk(a.(threads := s.threads[t := pc]))
  {
    var s' := a.(threads := s.threads[t := pc]);
    forall u | u in s'.threads ensures PcOk(s', u, s'.threads[u]) {
      if u != t { PcOkExtends(s, a, u, s.threads[u]); }
      PcOkExtends(a, s', u, s'.threads[u]);
    }
  }

  lemma MoveLocksOk(s: State, a: State, t: Tid, pc: Pc)
    requires LocksOk(s) && t in s.threads && HoldsExactly(s, t, Needs(s.threads[t]))
    requires a.locks == s.locks && Outer(pc) <= Needs(s.threads[t])
    ensures LocksOk(a.(threads := s.threads[t := pc]))
  {}

  lemma ApplyFrame(s: State, eff: Effect)
    requires EffectOk(s, eff) && QueueOk(s)
    ensures var a := Apply(s, eff);
            QueueOk(a) && a.locks == s.locks && a.threads == s.threads
  {}

  lemma MoveWell(s: State, t: Tid, eff: Effect, pc: Pc)
    requires Well(s) && t in s.threads && HoldsExactly(s, t, Needs(s.threads[t]))
    requires EffectSound(s, eff) && PcOk(Apply(s, eff), t, pc) && Outer(pc) <= Needs(s.threads[t])
    ensures var s' := Apply(s, eff).(threads := s.threads[t := pc]);
            Well(s') && Extends(s, s')
  {
    var a := Apply(s, eff);
    ApplyFrame(s, eff);
    ApplySound(s, eff);
    MoveThreadsOk(s, a, t, pc);
    MoveLocksOk(s, a, t, pc);
  }

  lemma OpWell(s: State, t: Tid, c: Choice)
    requires Well(s) && CanOp(s, t, c)
    ensures Well(DoOp(s, t, c)) && Extends(s, DoOp(s, t, c))
  {
    ExecuteSound(s, t, s.threads[t], c);
    var m := Execute(s, s.threads[t], c);
    MoveWell(s, t, m.eff, m.pc);
  }

  lemma NextWell(s: State, step: Step, s': State)
    requires Well(s) && Next(s, step, s')
    ensures Well(s') && Extends(s, s')
  {
    match step
    case Op(t, c) => OpWell(s, t, c);
    case Arrive(t, pc) => ArriveWell(s, t, pc, s');
    case Acquire(t) => AcquireWell(s, t, s');
    case Release(t, l) => ReleaseWell(s, t, l, s');
    case Forward => SameThreads(s, s');
    case ReapExit(e) => SameThreads(s, s');
    case Reuse(p) => SameThreads(s, s');
  }

  lemma ArriveWell(s: State, t: Tid, pc: Pc, s': State)
    requires Well(s) && Next(s, Arrive(t, pc), s')
    ensures Well(s') && Extends(s, s')
  {
    PcOkArrives(s, t, pc);
    MoreThreads(s, s', t);
  }

  lemma AcquireWell(s: State, t: Tid, s': State)
    requires Well(s) && Next(s, Acquire(t), s')
    ensures Well(s') && Extends(s, s')
  {
    SameThreads(s, s');
  }

  lemma ReleaseWell(s: State, t: Tid, l: Lock, s': State)
    requires Well(s) && Next(s, Release(t, l), s')
    ensures Well(s') && Extends(s, s')
  {
    SameThreads(s, s');
  }

  lemma PcOkArrives(s: State, t: Tid, pc: Pc)
    requires Entry(pc) && t != EXITS && ObjectsOk(s)
    ensures PcOk(s, t, pc) && Outer(pc) == {}
  {}

  lemma MoreThreads(s: State, s': State, t: Tid)
    requires Well(s) && t !in s.threads && t in s'.threads && s' == s.(threads := s.threads[t := s'.threads[t]])
    requires PcOk(s, t, s'.threads[t]) && Outer(s'.threads[t]) == {}
    ensures Well(s') && Extends(s, s')
  {
    forall u | u in s'.threads ensures PcOk(s', u, s'.threads[u]) { PcOkExtends(s, s', u, s'.threads[u]); }
  }

  /** Locks, the forwarder and the reaper leave objects and threads as they are. */
  lemma SameThreads(s: State, s': State)
    requires Well(s) && s'.threads == s.threads && s'.procs == s.procs && s'.aux == s.aux
    requires LocksOk(s') && QueueOk(s') && forall i | 0 <= i < |s'.exits| :: s'.exits[i].pid != 0
    ensures Well(s') && Extends(s, s')
  {
    forall u | u in s'.threads ensures PcOk(s', u, s'.threads[u]) { PcOkExtends(s, s', u, s'.threads[u]); }
  }

  lemma {:induction false} RunWell(ss: seq<State>, steps: seq<Step>, i: nat)
    requires IsRun(ss, steps) && i < |ss|
    ensures Well(ss[i])
  {
    if i > 0 {
      RunWell(ss, steps, i - 1);
      NextWell(ss[i - 1], steps[i - 1], ss[i]);
    }
  }

  /** While findProcess iterates, the map it iterates over stays as it is. */
  predicate ScanOk(s: State) {
    EXITS in s.threads &&
    var pc := s.threads[EXITS];
    Scanning(pc) ==> ScanAgrees(s, pc)
  }

  predicate Scanning(pc: Pc) { pc.Reap? && (pc.rop.RScan? || pc.rop.RProbe?) }

  predicate ScanAgrees(s: State, pc: Pc)
    requires pc.Reap?
  {
    pc.todo <= s.aux.Keys && (pc.rop.RProbe? ==> pc.x in s.aux && s.aux[pc.x] == pc.r)
  }

  lemma MapChangeNeedsMu(s: State, pc: Pc, c: Choice)
    requires RefsOk(s, pc) && Execute(s, pc, c).Move?
    ensures Execute(s, pc, c).eff.NewObject? || Execute(s, pc, c).eff.Unmap? ==> Mu in Needs(pc) && !pc.Reap?
  {
    match pc
    case Start(_, _, _, _) => assert Execute(s, pc, c) == ExecuteStart(s, pc, c);
    case Reap(_, _, _, _, _) => assert Execute(s, pc, c) == ExecuteReap(s, pc, c);
    case _ =>
  }

  lemma ReapScanOk(s: State, pc: Pc, c: Choice)
    requires pc.Reap? && RefsOk(s, pc) && ExecuteReap(s, pc, c).Move?
    requires Scanning(pc) ==> ScanAgrees(s, pc)
    ensures var pc' := ExecuteReap(s, pc, c).pc;
            pc'.Reap? && (Scanning(pc') ==> ScanAgrees(s, pc'))
  {}

  lemma OpScanOk(s: State, t: Tid, c: Choice)
    requires Well(s) && ScanOk(s) && CanOp(s, t, c)
    ensures ScanOk(DoOp(s, t, c))
  {
    var pc := s.threads[t];
    var m := Execute(s, pc, c);
    assert PcOk(s, t, pc) && PcOk(s, EXITS, s.threads[EXITS]);
    MapChangeNeedsMu(s, pc, c);
    MapChanges(s, m.eff);
    if t == EXITS {
      ReapScanOk(s, pc, c);
    } else if Mu in Outer(s.threads[EXITS]) {
      assert s.locks[Mu] == EXITS;
      assert Apply(s, m.eff).aux == s.aux;
    }
  }

  lemma MapChanges(s: State, eff: Effect)
    requires EffectOk(s, eff)
    ensures eff.NewObject? || eff.Unmap? || Apply(s, eff).aux == s.aux
  {}

  lemma {:induction false} RunScanOk(ss: seq<State>, steps: seq<Step>, n: nat)
    requires IsRun(ss, steps) && n < |ss|
    ensures ScanOk(ss[n])
  {
    if n > 0 {
      RunScanOk(ss, steps, n - 1);
      RunWell(ss, steps, n - 1);
      assert Next(ss[n - 1], steps[n - 1], ss[n]);
      if steps[n - 1].Op? { OpScanOk(ss[n - 1], steps[n - 1].t, steps[n - 1].c); }
    }
  }
}
