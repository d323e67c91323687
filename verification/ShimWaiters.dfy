/** The waiters of a deleted process: what the exit goroutine holds it closes, and
    what Delete takes away is closed or held, when no Exec of the same exec id is in
    flight beside the Delete. */
module ShimWaiters {
  import opened Wrappers
  import opened RunjState
  import opened Shim
  import opened ShimInvariant
  import opened ShimClose

  predicate WillBeClosed(s: State, r: Ref) {
    r < |s.procs| && (s.procs[r].closed != [] || Handled(s, r))
  }

  lemma HandlerGoesOn(s: State, pc: Pc, c: Choice)
    requires HandlesExit(pc) && RefsOk(s, pc)
    ensures var m := ExecuteReap(s, pc, c);
            m.Move? && (m.eff == Close(pc.r, ByExit) || (HandlesExit(m.pc) && m.pc.r == pc.r))
  {}

  lemma ApplyKeepsClosed(s: State, eff: Effect, r: Ref)
    requires EffectSound(s, eff) && r < |s.procs| && Apply(s, eff).procs != s.procs
    ensures eff.NewObject? || eff.Set? || eff.Close?
    ensures r < |Apply(s, eff).procs| && s.procs[r].closed <= Apply(s, eff).procs[r].closed
  {}

  lemma OpWillBeClosed(s: State, t: Tid, c: Choice, r: Ref)
    requires Well(s) && CanOp(s, t, c) && WillBeClosed(s, r)
    ensures WillBeClosed(DoOp(s, t, c), r)
  {
    var pc := s.threads[t];
    var m := Execute(s, pc, c);
    assert PcOk(s, t, pc) && PcOk(s, EXITS, s.threads[EXITS]);
    ExecuteSound(s, t, pc, c);
    if Apply(s, m.eff).procs != s.procs { ApplyKeepsClosed(s, m.eff, r); }
    if t == EXITS && HandlesExit(pc) { HandlerGoesOn(s, pc, c); }
  }

  lemma NextWillBeClosed(s: State, step: Step, s': State, r: Ref)
    requires Well(s) && Next(s, step, s') && WillBeClosed(s, r)
    ensures WillBeClosed(s', r)
  {
    match step
    case Op(t, c) => OpWillBeClosed(s, t, c, r);
    case _ =>
      assert s'.procs == s.procs;
      assert s'.threads[EXITS] == s.threads[EXITS];
  }

  /** The exit goroutine does close what it holds: from any point on, an object that is
      closed or held stays closed or held, so it is held no longer only once it is closed. */
  lemma {:induction false} HeldIsClosed(ss: seq<State>, steps: seq<Step>, m: nat, n: nat, r: Ref)
    requires IsRun(ss, steps) && m <= n < |ss| && WillBeClosed(ss[m], r)
    ensures WillBeClosed(ss[n], r)
  {
    if m < n {
      HeldIsClosed(ss, steps, m, n - 1, r);
      StepWillBeClosed(ss, steps, n - 1, r);
    }
  }

  lemma StepWillBeClosed(ss: seq<State>, steps: seq<Step>, i: nat, r: Ref)
    requires IsRun(ss, steps) && i < |steps| && WillBeClosed(ss[i], r)
    ensures WillBeClosed(ss[i + 1], r)
  {
    RunWell(ss, steps, i);
    var s, step, s' := ss[i], steps[i], ss[i + 1];
    assert Next(s, step, s');
    NextWillBeClosed(s, step, s', r);
  }

  // ----- the waiters of a deleted process -----

  /** The exec id an Exec, Start or Delete in flight works on. */
  function Works(pc: Pc): Option<ExecId> { if pc.Exec? then Some(pc.x) else Mutates(pc) }

  /** At most one of Exec, Start and Delete is in flight per exec id. */
  predicate FullyDisciplined(s: State, step: Step) {
    && Disciplined(s, step)
    && (step.Arrive? && Works(step.pc).Some? ==> forall u | u in s.threads :: Works(s.threads[u]) != Works(step.pc))
  }

  predicate IsFullyDisciplinedRun(ss: seq<State>, steps: seq<Step>) {
    IsRun(ss, steps) && forall i | 0 <= i < |steps| :: FullyDisciplined(ss[i], steps[i])
  }

  predicate OneWorker(s: State) {
    forall t, u | t in s.threads && u in s.threads && Works(s.threads[t]).Some?
                  && Works(s.threads[t]) == Works(s.threads[u]) :: t == u
  }

  /** An object without a state is still being made. */
  ghost predicate BeingMade(s: State, r: Ref) {
    r != PRIMARY && r < |s.procs| && s.procs[r].proc.state == Unset ==>
      exists t :: t in s.threads && Making(s.threads[t]) && s.threads[t].r == r
  }

  predicate PastClose(pc: Pc) { pc.Delete? && (pc.dop.DSpecfile? || pc.dop.DForget? || pc.dop.DRemove?) }

  ghost predicate Guarded(s: State) {
    && OneWorker(s)
    && (forall r: Ref :: BeingMade(s, r))
    && (forall t | t in s.threads && PastClose(s.threads[t]) :: WillBeClosed(s, s.threads[t].r))
  }

  lemma WorkGoesOn(s: State, pc: Pc, c: Choice)
    requires RefsOk(s, pc) && Execute(s, pc, c).Move?
    ensures var m := Execute(s, pc, c); Works(m.pc).None? || Works(m.pc) == Works(pc)
  {
    match pc
    case Exec(_, _, _) => assert Execute(s, pc, c) == ExecuteExec(s, pc, c);
    case Start(_, _, _, _) => assert Execute(s, pc, c) == ExecuteStart(s, pc, c);
    case Delete(_, _, _) => assert Execute(s, pc, c) == ExecuteDelete(s, pc, c);
    case Reap(_, _, _, _, _) => assert Execute(s, pc, c) == ExecuteReap(s, pc, c);
    case _ =>
  }

  /** Where the state of an object is recorded, and where one is made. */
  predicate StateMove(s: State, pc: Pc, m: Move) {
    && m.Move?
    && (m.eff.Set? && m.eff.r < |s.procs| ==>
          m.eff.proc.state == s.procs[m.eff.r].proc.state || m.eff.proc.state != Unset)
    && (m.eff.NewObject? ==> Making(m.pc) && m.pc.r == |s.procs|)
    && (Making(pc) ==>
          || (Making(m.pc) && m.pc.r == pc.r)
          || (m.eff.Set? && m.eff.r == pc.r && m.eff.proc.state == Created))
  }

  lemma StateMoves(s: State, pc: Pc, c: Choice)
    requires RefsOk(s, pc) && Execute(s, pc, c).Move?
    ensures StateMove(s, pc, Execute(s, pc, c))
  {
    match pc
    case Exec(_, _, _) => assert Execute(s, pc, c) == ExecuteExec(s, pc, c);
    case Start(_, _, _, _) => assert Execute(s, pc, c) == ExecuteStart(s, pc, c);
    case Delete(_, _, _) => assert Execute(s, pc, c) == ExecuteDelete(s, pc, c);
    case Reap(_, _, _, _, _) => assert Execute(s, pc, c) == ExecuteReap(s, pc, c);
    case _ =>
  }

  lemma OpBeingMade(s: State, t: Tid, m: Move, r: Ref)
    requires t in s.threads && m.Move? && EffectOk(s, m.eff) && StateMove(s, s.threads[t], m) && BeingMade(s, r)
    ensures BeingMade(Apply(s, m.eff).(threads := s.threads[t := m.pc]), r)
  {
    var s' := Apply(s, m.eff).(threads := s.threads[t := m.pc]);
    if r != PRIMARY && r < |s'.procs| && s'.procs[r].proc.state == Unset {
      if r < |s.procs| {
        assert s.procs[r].proc.state == Unset;
        var u :| u in s.threads && Making(s.threads[u]) && s.threads[u].r == r;
        assert u in s'.threads;
      } else {
        assert t in s'.threads && s'.threads[t] == m.pc;
      }
    }
  }

  /** With no Exec of its id in flight, Delete finds a state recorded. */
  lemma DeleteFindsState(s: State, t: Tid)
    requires Well(s) && Guarded(s) && t in s.threads && s.threads[t].Delete? && HasRef(s.threads[t])
    ensures s.threads[t].r < |s.procs| && s.procs[s.threads[t].r].proc.state != Unset
  {
    var pc := s.threads[t];
    assert PcOk(s, t, pc) && BeingMade(s, pc.r);
    forall u | u in s.threads && Making(s.threads[u]) ensures s.threads[u].r != pc.r {
      assert PcOk(s, u, s.threads[u]);
    }
  }

  /** Delete has seen a state that it does not close, or it closes. */
  lemma DeletePasses(s: State, t: Tid, c: Choice)
    requires Safe(s) && Guarded(s) && CanOp(s, t, c) && PastClose(Execute(s, s.threads[t], c).pc)
    ensures WillBeClosed(DoOp(s, t, c), Execute(s, s.threads[t], c).pc.r)
  {
    var pc := s.threads[t];
    var m := Execute(s, pc, c);
    assert PcOk(s, t, pc) && ThreadOk(s, pc);
    ComesFromDelete(s, pc, c);
    assert m == ExecuteDelete(s, pc, c);
    if pc.dop.DState? {
      DeleteFindsState(s, t);
      assert WillBeClosed(s, pc.r);
      OpWillBeClosed(s, t, c, pc.r);
    } else if !pc.dop.DClose? {
      OpWillBeClosed(s, t, c, pc.r);
    }
  }

  lemma ComesFromDelete(s: State, pc: Pc, c: Choice)
    requires RefsOk(s, pc) && Execute(s, pc, c).Move?
    ensures PastClose(Execute(s, pc, c).pc) ==>
              && pc.Delete? && HasRef(pc) && Execute(s, pc, c).pc.r == pc.r
              && (pc.dop.DState? || pc.dop.DClose? || PastClose(pc))
  {
    match pc
    case Exec(_, _, _) => assert Execute(s, pc, c) == ExecuteExec(s, pc, c);
    case Start(_, _, _, _) => assert Execute(s, pc, c) == ExecuteStart(s, pc, c);
    case Delete(_, _, _) => assert Execute(s, pc, c) == ExecuteDelete(s, pc, c);
    case Reap(_, _, _, _, _) => assert Execute(s, pc, c) == ExecuteReap(s, pc, c);
    case _ =>
  }

  lemma OpGuarded(s: State, t: Tid, c: Choice)
    requires Safe(s) && Guarded(s) && CanOp(s, t, c)
    ensures Guarded(DoOp(s, t, c))
  {
    var m := Execute(s, s.threads[t], c);
    var s' := DoOp(s, t, c);
    WorkGoesOn(s, s.threads[t], c);
    StateMoves(s, s.threads[t], c);
    forall r: Ref ensures BeingMade(s', r) { OpBeingMade(s, t, m, r); }
    forall u | u in s'.threads && PastClose(s'.threads[u]) ensures WillBeClosed(s', s'.threads[u].r) {
      if u == t { DeletePasses(s, t, c); } else { OpWillBeClosed(s, t, c, s.threads[u].r); }
    }
  }

  lemma NextGuarded(s: State, step: Step, s': State)
    requires Safe(s) && Guarded(s) && Next(s, step, s') && FullyDisciplined(s, step)
    ensures Guarded(s')
  {
    match step
    case Op(t, c) => OpGuarded(s, t, c);
    case _ => OtherGuarded(s, step, s');
  }

  lemma OtherGuarded(s: State, step: Step, s': State)
    requires Safe(s) && Guarded(s) && Next(s, step, s') && FullyDisciplined(s, step) && !step.Op?
    ensures Guarded(s')
  {
    NoOpThreads(s, step, s');
    MoreGuarded(s, s');
  }

  lemma NoOpThreads(s: State, step: Step, s': State)
    requires OneWorker(s) && Next(s, step, s') && FullyDisciplined(s, step) && !step.Op?
    ensures s'.procs == s.procs && OneWorker(s')
    ensures forall u | u in s.threads :: u in s'.threads && s'.threads[u] == s.threads[u]
    ensures forall u | u in s'.threads && u !in s.threads :: Entry(s'.threads[u])
  {}

  lemma MoreGuarded(s: State, s': State)
    requires EXITS in s.threads && Guarded(s) && OneWorker(s') && s'.procs == s.procs
    requires forall u | u in s.threads :: u in s'.threads && s'.threads[u] == s.threads[u]
    requires forall u | u in s'.threads && u !in s.threads :: Entry(s'.threads[u])
    ensures Guarded(s')
  {
    forall r: Ref ensures BeingMade(s', r) { assert BeingMade(s, r); }
    forall u | u in s'.threads && PastClose(s'.threads[u]) ensures WillBeClosed(s', s'.threads[u].r) {
      assert u in s.threads && WillBeClosed(s, s.threads[u].r);
    }
  }

  lemma {:induction false} RunGuarded(ss: seq<State>, steps: seq<Step>, n: nat)
    requires IsFullyDisciplinedRun(ss, steps) && n < |ss|
    ensures Safe(ss[n]) && Guarded(ss[n])
  {
    assert IsDisciplinedRun(ss, steps);
    RunSafe(ss, steps, n);
    if n > 0 {
      RunGuarded(ss, steps, n - 1);
      StepGuarded(ss, steps, n - 1);
    }
  }

  lemma StepGuarded(ss: seq<State>, steps: seq<Step>, i: nat)
    requires IsFullyDisciplinedRun(ss, steps) && i < |steps| && Safe(ss[i]) && Guarded(ss[i])
    ensures Guarded(ss[i + 1])
  {
    var s, step, s' := ss[i], steps[i], ss[i + 1];
    assert Next(s, step, s');
    NextGuarded(s, step, s');
  }

  /** Whenever Delete takes a process out of the map, its channel is closed or the
      exit goroutine holds the object and goes on to close it, if no Exec of the id is in flight either. */
  lemma DeleteStrandsNoWaiter(ss: seq<State>, steps: seq<Step>, n: nat, t: Tid, c: Choice, x: ExecId)
    requires IsFullyDisciplinedRun(ss, steps) && n < |steps| && steps[n] == Op(t, c)
    requires Execute(ss[n], ss[n].threads[t], c).eff == Unmap(x)
    ensures x in ss[n].aux && WillBeClosed(ss[n], ss[n].aux[x])
  {
    RunGuarded(ss, steps, n);
    var pc := ss[n].threads[t];
    assert PcOk(ss[n], t, pc) && ThreadOk(ss[n], pc);
    UnmapOnlyByDelete(ss[n], pc, c);
  }

  lemma UnmapOnlyByDelete(s: State, pc: Pc, c: Choice)
    requires RefsOk(s, pc) && Execute(s, pc, c).Move? && Execute(s, pc, c).eff.Unmap?
    ensures pc.Delete? && pc.dop.DRemove? && Execute(s, pc, c).eff.x == pc.x
  {}
}
