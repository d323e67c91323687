/** Where the events of the shim come from, in every interleaving: who sends them, and what
    that thread did and learned before. */
module ShimEvents {
  import opened RunjState
  import opened ShimProcess
  import opened Shim
  import opened ShimInvariant

  // ----- looking back -----

  /** What t executes in a step. */
  predicate Executes(s: State, step: Step, t: Tid) { step.Op? && step.t == t && CanOp(s, t, step.c) }

  /** Where a thread is after a step: where it was, where it moved itself, or where requests begin. */
  lemma ThreadAfter(s: State, step: Step, s': State, t: Tid)
    requires Next(s, step, s') && t in s'.threads
    ensures || (t in s.threads && s'.threads[t] == s.threads[t])
            || (Executes(s, step, t) && s'.threads[t] == Execute(s, s.threads[t], step.c).pc)
            || (t !in s.threads && Entry(s'.threads[t]))
  {}

  /** If a thread gets among some program points only by a step that satisfies p, then a
      thread that is there has such a step behind it. */
  lemma {:induction false} LookBack(ss: seq<State>, steps: seq<Step>, n: nat, t: Tid, there: Pc -> bool,
                                    p: (State, Step) -> bool)
    requires IsRun(ss, steps) && n < |ss| && t in ss[n].threads && there(ss[n].threads[t])
    requires !there(Reap(RIdle, NO_EXIT, {}, "", PRIMARY))
    requires forall s, step, s' | Next(s, step, s') && t in s'.threads && there(s'.threads[t]) ::
               (t in s.threads && there(s.threads[t])) || p(s, step)
    ensures exists i :: 0 <= i < n && p(ss[i], steps[i])
  {
    if n > 0 {
      assert Next(ss[n - 1], steps[n - 1], ss[n]);
      if !p(ss[n - 1], steps[n - 1]) { LookBack(ss, steps, n - 1, t, there, p); }
    }
  }

  /** The step in which t sends an event. */
  predicate SendsAt(s: State, step: Step, t: Tid, ev: Event) {
    Executes(s, step, t) && Execute(s, s.threads[t], step.c).eff == Send(ev)
  }

  lemma LogAfter(s: State, step: Step, s': State, q: nat)
    requires Next(s, step, s') && q < |s'.log|
    ensures (q < |s.log| && s.log[q] == s'.log[q]) || (step.Op? && SendsAt(s, step, step.t, s'.log[q]))
  {}

  /** Every event of the log was sent in some step. */
  lemma {:induction false} EventWasSent(ss: seq<State>, steps: seq<Step>, n: nat, q: nat)
    requires IsRun(ss, steps) && n < |ss| && q < |ss[n].log|
    ensures exists m, t :: 0 <= m < n && SendsAt(ss[m], steps[m], t, ss[n].log[q])
  {
    if n > 0 {
      assert Next(ss[n - 1], steps[n - 1], ss[n]);
      LogAfter(ss[n - 1], steps[n - 1], ss[n], q);
      if q < |ss[n - 1].log| && ss[n - 1].log[q] == ss[n].log[q] { EventWasSent(ss, steps, n - 1, q); }
    }
  }

  // ----- who sends what -----

  /** The program point that sends an event. */
  predicate SenderOf(pc: Pc, ev: Event) {
    match ev
    case TaskCreate(p) => pc == Create(CSend, p)
    case TaskStart(p, k) => pc == Init(ISend, p, k)
    case TaskExecAdded(x) => pc.Exec? && pc.eop.ESend? && pc.x == x
    case TaskExecStarted(x, p) => pc.Start? && pc.sop.SSend? && pc.x == x && pc.p == p
    case TaskExit(x, e) => pc.Reap? && pc.rop.RSend? && pc.x == x && pc.e == e
  }

  /** A program point leads to one of the same handler, or to the handler's end. */
  predicate SameHandler(pc: Pc, next: Pc) {
    match pc
    case Exec(_, _, _) => next.Exec? || next.Done?
    case Start(_, _, _, _) => next.Start? || next.Done?
    case Init(_, _, _) => next.Init? || next.Done?
    case Delete(_, _, _) => next.Delete? || next.Done?
    case Peek(_, _, _) => next.Peek? || next.Done?
    case Wait(_, _, _) => next.Wait? || next.Done?
    case Create(_, _) => next.Create? || next.Done?
    case Reap(_, _, _, _, _) => next.Reap?
    case Done(_) => false
  }

  predicate OwnMove(pc: Pc, m: Move) {
    m.Move? ==> SameHandler(pc, m.pc) && (m.eff.Send? ==> SenderOf(pc, m.eff.event))
  }

  lemma StartOwn(s: State, pc: Pc, c: Choice)
    requires pc.Start? && RefsOk(s, pc)
    ensures OwnMove(pc, ExecuteStart(s, pc, c))
  {}

  lemma ReapOwn(s: State, pc: Pc, c: Choice)
    requires pc.Reap? && RefsOk(s, pc)
    ensures OwnMove(pc, ExecuteReap(s, pc, c))
  {}

  lemma ExecuteOwn(s: State, pc: Pc, c: Choice)
    requires RefsOk(s, pc)
    ensures OwnMove(pc, Execute(s, pc, c))
  {
    match pc
    case Start(_, _, _, _) => StartOwn(s, pc, c);
    case Reap(_, _, _, _, _) => ReapOwn(s, pc, c);
    case Exec(_, _, _) => assert Execute(s, pc, c) == ExecuteExec(s, pc, c);
    case Init(_, _, _) => assert Execute(s, pc, c) == ExecuteInit(s, pc, c);
    case Delete(_, _, _) => assert Execute(s, pc, c) == ExecuteDelete(s, pc, c);
    case Create(_, _) => assert Execute(s, pc, c) == ExecuteCreate(s, pc, c);
    case _ =>
  }

  /** An event's sender, at the program point that sends it. */
  lemma SenderFound(ss: seq<State>, steps: seq<Step>, n: nat, q: nat) returns (m: nat, t: Tid)
    requires IsRun(ss, steps) && n < |ss| && q < |ss[n].log|
    ensures m < n && SendsAt(ss[m], steps[m], t, ss[n].log[q]) && SenderOf(ss[m].threads[t], ss[n].log[q])
  {
    EventWasSent(ss, steps, n, q);
    m, t :| 0 <= m < n && SendsAt(ss[m], steps[m], t, ss[n].log[q]);
    ExecuteOwn(ss[m], ss[m].threads[t], steps[m].c);
  }

  // ----- startPrimary -----

  /** `runj state` answers that the entrypoint has PID p. */
  predicate AsksPid(s: State, step: Step, t: Tid, p: nat) {
    t in s.threads && s.threads[t].Init? && s.threads[t].iop.IState? && step == Op(t, Succeed(p))
  }

  /** `runj start` opens the fifo as number k. */
  predicate OpensFifo(s: State, step: Step, t: Tid, k: nat) {
    && Executes(s, step, t) && s.threads[t].Init? && s.threads[t].iop.IRun?
    && Execute(s, s.threads[t], step.c).eff.Opened? && s.releases == k
  }

  /** And it works. */
  predicate StartWorks(s: State, step: Step, t: Tid, k: nat) {
    && Executes(s, step, t) && s.threads[t].Init? && s.threads[t].iop.IReleased? && s.threads[t].k == k
    && !step.c.Fail?
  }

  predicate Asked(pc: Pc, p: nat) { pc.Init? && !pc.iop.IState? && pc.p == p }

  predicate HasOpened(pc: Pc, p: nat, k: nat) {
    pc.Init? && (pc.iop.IReleased? || pc.iop.ISend?) && pc.p == p && pc.k == k
  }

  lemma AskedFrom(s: State, step: Step, s': State, t: Tid, p: nat)
    requires Next(s, step, s') && t in s'.threads && Asked(s'.threads[t], p)
    ensures (t in s.threads && Asked(s.threads[t], p)) || AsksPid(s, step, t, p)
  {
    ThreadAfter(s, step, s', t);
    if Executes(s, step, t) { ExecuteOwn(s, s.threads[t], step.c); }
  }

  lemma HasOpenedFrom(s: State, step: Step, s': State, t: Tid, p: nat, k: nat)
    requires Next(s, step, s') && t in s'.threads && HasOpened(s'.threads[t], p, k)
    ensures || (t in s.threads && HasOpened(s.threads[t], p, k))
            || (OpensFifo(s, step, t, k) && Asked(s.threads[t], p))
  {
    ThreadAfter(s, step, s', t);
    if Executes(s, step, t) { ExecuteOwn(s, s.threads[t], step.c); }
  }

  lemma SendingFrom(s: State, step: Step, s': State, t: Tid, p: nat, k: nat)
    requires Next(s, step, s') && t in s'.threads && s'.threads[t] == Init(ISend, p, k)
    ensures || (t in s.threads && s.threads[t] == Init(ISend, p, k))
            || (StartWorks(s, step, t, k) && HasOpened(s.threads[t], p, k))
  {
    ThreadAfter(s, step, s', t);
    if Executes(s, step, t) { ExecuteOwn(s, s.threads[t], step.c); }
  }

  lemma AskedBefore(ss: seq<State>, steps: seq<Step>, n: nat, t: Tid, p: nat)
    requires IsRun(ss, steps) && n < |ss| && t in ss[n].threads && Asked(ss[n].threads[t], p)
    ensures exists i :: 0 <= i < n && AsksPid(ss[i], steps[i], t, p)
  {
    var there := (pc: Pc) => Asked(pc, p);
    forall s, step, s' | Next(s, step, s') && t in s'.threads && there(s'.threads[t])
      ensures (t in s.threads && there(s.threads[t])) || AsksPid(s, step, t, p)
    {
      AskedFrom(s, step, s', t, p);
    }
    LookBack(ss, steps, n, t, there, (s, step) => AsksPid(s, step, t, p));
  }

  lemma OpenedBefore(ss: seq<State>, steps: seq<Step>, n: nat, t: Tid, p: nat, k: nat)
    requires IsRun(ss, steps) && n < |ss| && t in ss[n].threads && HasOpened(ss[n].threads[t], p, k)
    ensures exists j :: 0 <= j < n && OpensFifo(ss[j], steps[j], t, k) && Asked(ss[j].threads[t], p)
  {
    var there := (pc: Pc) => HasOpened(pc, p, k);
    var opens := (s: State, step: Step) => OpensFifo(s, step, t, k) && Asked(s.threads[t], p);
    forall s, step, s' | Next(s, step, s') && t in s'.threads && there(s'.threads[t])
      ensures (t in s.threads && there(s.threads[t])) || opens(s, step)
    {
      HasOpenedFrom(s, step, s', t, p, k);
    }
    LookBack(ss, steps, n, t, there, opens);
  }

  lemma WorkedBefore(ss: seq<State>, steps: seq<Step>, n: nat, t: Tid, p: nat, k: nat)
    requires IsRun(ss, steps) && n < |ss| && t in ss[n].threads && ss[n].threads[t] == Init(ISend, p, k)
    ensures exists l :: 0 <= l < n && StartWorks(ss[l], steps[l], t, k) && HasOpened(ss[l].threads[t], p, k)
  {
    var there := (pc: Pc) => pc == Init(ISend, p, k);
    var works := (s: State, step: Step) => StartWorks(s, step, t, k) && HasOpened(s.threads[t], p, k);
    forall s, step, s' | Next(s, step, s') && t in s'.threads && there(s'.threads[t])
      ensures (t in s.threads && there(s.threads[t])) || works(s, step)
    {
      SendingFrom(s, step, s', t, p, k);
    }
    LookBack(ss, steps, n, t, there, works);
  }

  /** A TaskStart(p, k) comes from a startPrimary that was told PID p, then opened the fifo as
      number k, and whose command then worked. */
  lemma TaskStartSaysThePid(ss: seq<State>, steps: seq<Step>, n: nat, q: nat)
    requires IsRun(ss, steps) && n < |ss| && q < |ss[n].log| && ss[n].log[q].TaskStart?
    ensures var TaskStart(p, k) := ss[n].log[q];
            exists t, i, j, l, m :: 0 <= i < j < l < m < n
              && AsksPid(ss[i], steps[i], t, p) && OpensFifo(ss[j], steps[j], t, k)
              && StartWorks(ss[l], steps[l], t, k) && SendsAt(ss[m], steps[m], t, TaskStart(p, k))
  {
    var TaskStart(p, k) := ss[n].log[q];
    var m, t := SenderFound(ss, steps, n, q);
    WorkedBefore(ss, steps, m, t, p, k);
    var l :| 0 <= l < m && StartWorks(ss[l], steps[l], t, k) && HasOpened(ss[l].threads[t], p, k);
    OpenedBefore(ss, steps, l, t, p, k);
    var j :| 0 <= j < l && OpensFifo(ss[j], steps[j], t, k) && Asked(ss[j].threads[t], p);
    AskedBefore(ss, steps, j, t, p);
  }

  // ----- Create -----

  /** `runj state` answers Create that the entrypoint has PID p. */
  predicate LearnsPid(s: State, step: Step, t: Tid, p: nat) {
    t in s.threads && s.threads[t].Create? && s.threads[t].cop.CState? && step == Op(t, Succeed(p))
  }

  /** Create has the primary process record a PID, unless it records one already. */
  predicate RecordsPid(s: State, step: Step, t: Tid, p: nat) {
    && Executes(s, step, t) && s.threads[t] == Create(CSetPid, p)
    && Execute(s, s.threads[t], step.c).eff == Set(PRIMARY, s.procs[PRIMARY].proc.WithPid(p))
  }

  predicate Learned(pc: Pc, p: nat) { pc.Create? && (pc.cop.CSetPid? || pc.cop.CSend?) && pc.p == p }

  lemma CreateFrom(s: State, step: Step, s': State, t: Tid, p: nat)
    requires Next(s, step, s') && t in s'.threads
    ensures Learned(s'.threads[t], p) ==> (t in s.threads && Learned(s.threads[t], p)) || LearnsPid(s, step, t, p)
    ensures s'.threads[t] == Create(CSend, p) ==>
              (t in s.threads && s.threads[t] == Create(CSend, p)) || RecordsPid(s, step, t, p)
  {
    ThreadAfter(s, step, s', t);
    if Executes(s, step, t) { ExecuteOwn(s, s.threads[t], step.c); }
  }

  lemma LearnedBefore(ss: seq<State>, steps: seq<Step>, n: nat, t: Tid, p: nat)
    requires IsRun(ss, steps) && n < |ss| && t in ss[n].threads && Learned(ss[n].threads[t], p)
    ensures exists i :: 0 <= i < n && LearnsPid(ss[i], steps[i], t, p)
  {
    var there := (pc: Pc) => Learned(pc, p);
    forall s, step, s' | Next(s, step, s') && t in s'.threads && there(s'.threads[t])
      ensures (t in s.threads && there(s.threads[t])) || LearnsPid(s, step, t, p)
    {
      CreateFrom(s, step, s', t, p);
    }
    LookBack(ss, steps, n, t, there, (s, step) => LearnsPid(s, step, t, p));
  }

  lemma RecordedBefore(ss: seq<State>, steps: seq<Step>, n: nat, t: Tid, p: nat)
    requires IsRun(ss, steps) && n < |ss| && t in ss[n].threads && ss[n].threads[t] == Create(CSend, p)
    ensures exists j :: 0 <= j < n && RecordsPid(ss[j], steps[j], t, p)
  {
    var there := (pc: Pc) => pc == Create(CSend, p);
    forall s, step, s' | Next(s, step, s') && t in s'.threads && there(s'.threads[t])
      ensures (t in s.threads && there(s.threads[t])) || RecordsPid(s, step, t, p)
    {
      CreateFrom(s, step, s', t, p);
    }
    LookBack(ss, steps, n, t, there, (s, step) => RecordsPid(s, step, t, p));
  }

  /** A TaskCreate(p) comes from a Create that was told PID p and had the primary process record it. */
  lemma TaskCreateSaysThePid(ss: seq<State>, steps: seq<Step>, n: nat, q: nat)
    requires IsRun(ss, steps) && n < |ss| && q < |ss[n].log| && ss[n].log[q].TaskCreate?
    ensures var TaskCreate(p) := ss[n].log[q];
            exists t, i, j, m :: 0 <= i < j < m < n && LearnsPid(ss[i], steps[i], t, p)
              && RecordsPid(ss[j], steps[j], t, p) && SendsAt(ss[m], steps[m], t, TaskCreate(p))
  {
    var TaskCreate(p) := ss[n].log[q];
    var m, t := SenderFound(ss, steps, n, q);
    RecordedBefore(ss, steps, m, t, p);
    var j :| 0 <= j < m && RecordsPid(ss[j], steps[j], t, p);
    LearnedBefore(ss, steps, j, t, p);
  }

  // ----- the primary process's PID -----

  function PidOf(s: State): nat { if s.procs == [] then 0 else s.procs[PRIMARY].proc.pid }

  /** A step in which some Create records the PID p. */
  predicate SomeRecords(s: State, step: Step, p: nat) { step.Op? && RecordsPid(s, step, step.t, p) }

  predicate KeepsPrimary(s: State, pc: Pc, m: Move) {
    m.Move? && m.eff.Set? && m.eff.r == PRIMARY && m.eff.proc.pid != PidOf(s) ==>
      pc.Create? && pc.cop.CSetPid? && m.eff.proc.pid == pc.p
  }

  lemma StartKeepsPrimary(s: State, t: Tid, pc: Pc, c: Choice)
    requires pc.Start? && ObjectsOk(s) && PcOk(s, t, pc)
    ensures KeepsPrimary(s, pc, ExecuteStart(s, pc, c))
  {}

  lemma ReapKeepsPrimary(s: State, t: Tid, pc: Pc, c: Choice)
    requires pc.Reap? && ObjectsOk(s) && PcOk(s, t, pc)
    ensures KeepsPrimary(s, pc, ExecuteReap(s, pc, c))
  {}

  lemma ExecKeepsPrimary(s: State, t: Tid, pc: Pc, c: Choice)
    requires pc.Exec? && ObjectsOk(s) && PcOk(s, t, pc)
    ensures KeepsPrimary(s, pc, ExecuteExec(s, pc, c))
  {}

  lemma ExecuteKeepsPrimary(s: State, t: Tid, pc: Pc, c: Choice)
    requires ObjectsOk(s) && PcOk(s, t, pc)
    ensures KeepsPrimary(s, pc, Execute(s, pc, c))
  {
    match pc
    case Start(_, _, _, _) => StartKeepsPrimary(s, t, pc, c);
    case Reap(_, _, _, _, _) => ReapKeepsPrimary(s, t, pc, c);
    case Exec(_, _, _) => ExecKeepsPrimary(s, t, pc, c);
    case Init(_, _, _) => assert Execute(s, pc, c) == ExecuteInit(s, pc, c);
    case Delete(_, _, _) => assert Execute(s, pc, c) == ExecuteDelete(s, pc, c);
    case Create(_, _) => assert Execute(s, pc, c) == ExecuteCreate(s, pc, c);
    case _ =>
  }

  lemma ApplyPid(s: State, eff: Effect)
    requires EffectOk(s, eff) && s.procs != []
    ensures PidOf(Apply(s, eff)) == if eff.Set? && eff.r == PRIMARY then eff.proc.pid else PidOf(s)
  {}

  lemma PidFrom(s: State, step: Step, s': State)
    requires Well(s) && Next(s, step, s')
    ensures PidOf(s') == PidOf(s) || SomeRecords(s, step, PidOf(s'))
  {
    if step.Op? {
      var pc := s.threads[step.t];
      assert PcOk(s, step.t, pc);
      ExecuteKeepsPrimary(s, step.t, pc, step.c);
      ApplyPid(s, Execute(s, pc, step.c).eff);
      if PidOf(s') != PidOf(s) { assert Execute(s, pc, step.c) == ExecuteCreate(s, pc, step.c); }
    }
  }

  /** Only Create has the primary process record a PID. */
  lemma {:induction false} PidWasRecorded(ss: seq<State>, steps: seq<Step>, n: nat)
    requires IsRun(ss, steps) && n < |ss| && PidOf(ss[n]) != 0
    ensures exists j :: 0 <= j < n && SomeRecords(ss[j], steps[j], PidOf(ss[n]))
  {
    if n > 0 {
      RunWell(ss, steps, n - 1);
      assert Next(ss[n - 1], steps[n - 1], ss[n]);
      PidFrom(ss[n - 1], steps[n - 1], ss[n]);
      if PidOf(ss[n]) == PidOf(ss[n - 1]) { PidWasRecorded(ss, steps, n - 1); }
    }
  }

  lemma PidWasLearned(ss: seq<State>, steps: seq<Step>, n: nat)
    requires IsRun(ss, steps) && n < |ss| && PidOf(ss[n]) != 0
    ensures exists i, t :: 0 <= i < n && LearnsPid(ss[i], steps[i], t, PidOf(ss[n]))
  {
    PidWasRecorded(ss, steps, n);
    var j :| 0 <= j < n && SomeRecords(ss[j], steps[j], PidOf(ss[n]));
    LearnedBefore(ss, steps, j, steps[j].t, PidOf(ss[n]));
  }

  lemma {:induction false} SameObject(ss: seq<State>, m: nat, n: nat, r: Ref)
    requires m <= n < |ss| && r < |ss[m].procs| && forall i | m < i <= n :: Extends(ss[i - 1], ss[i])
    ensures r < |ss[n].procs| && ss[n].procs[r].key == ss[m].procs[r].key
    ensures ss[m].procs[r].proc.pid != 0 ==> ss[n].procs[r].proc.pid == ss[m].procs[r].proc.pid
  {
    if m < n { SameObject(ss, m, n - 1, r); }
  }

  lemma StepGrows(ss: seq<State>, steps: seq<Step>, i: nat)
    requires IsRun(ss, steps) && 0 < i < |ss|
    ensures Extends(ss[i - 1], ss[i])
  {
    RunWell(ss, steps, i - 1);
    NextWell(ss[i - 1], steps[i - 1], ss[i]);
  }

  lemma RunGrows(ss: seq<State>, steps: seq<Step>)
    requires IsRun(ss, steps)
    ensures forall i | 0 < i < |ss| :: Extends(ss[i - 1], ss[i])
  {
    forall i | 0 < i < |ss| ensures Extends(ss[i - 1], ss[i]) { StepGrows(ss, steps, i); }
  }

  /** An object keeps its id, and its PID once it has one. */
  lemma ObjectStays(ss: seq<State>, steps: seq<Step>, m: nat, n: nat, r: Ref)
    requires IsRun(ss, steps) && m <= n < |ss| && r < |ss[m].procs|
    ensures r < |ss[n].procs| && ss[n].procs[r].key == ss[m].procs[r].key
    ensures ss[m].procs[r].proc.pid != 0 ==> ss[n].procs[r].proc.pid == ss[m].procs[r].proc.pid
  {
    RunGrows(ss, steps);
    SameObject(ss, m, n, r);
  }

  lemma RecordsAPid(s: State, step: Step, s': State, t: Tid, p: nat)
    requires Well(s) && Next(s, step, s') && RecordsPid(s, step, t, p) && p != 0
    ensures PidOf(s') != 0
  {
    ApplyPid(s, Execute(s, s.threads[t], step.c).eff);
  }

  lemma RecordedStays(ss: seq<State>, steps: seq<Step>, j: nat, n: nat, t: Tid, p: nat)
    requires IsRun(ss, steps) && j < n < |ss| && RecordsPid(ss[j], steps[j], t, p) && p != 0
    ensures PidOf(ss[n]) != 0
  {
    RunWell(ss, steps, j);
    assert Next(ss[j], steps[j], ss[j + 1]);
    RecordsAPid(ss[j], steps[j], ss[j + 1], t, p);
    ObjectStays(ss, steps, j + 1, n, PRIMARY);
  }

  /** The PIDs that Creates learn are all the same. */
  ghost predicate PidsAgree(ss: seq<State>, steps: seq<Step>, p: nat)
    requires IsRun(ss, steps)
  {
    forall i, t, p' | 0 <= i < |steps| && LearnsPid(ss[i], steps[i], t, p') :: p' == p
  }

  /** When TaskCreate(p) has been sent the primary process records a PID, one that some Create
      learned: p itself, unless two Creates learned different ones. */
  lemma CreatedIsRecorded(ss: seq<State>, steps: seq<Step>, n: nat, q: nat)
    requires IsRun(ss, steps) && n < |ss| && q < |ss[n].log| && ss[n].log[q].TaskCreate? && ss[n].log[q].pid != 0
    ensures PidOf(ss[n]) != 0 && exists i, t :: 0 <= i < n && LearnsPid(ss[i], steps[i], t, PidOf(ss[n]))
    ensures PidsAgree(ss, steps, ss[n].log[q].pid) ==> PidOf(ss[n]) == ss[n].log[q].pid
  {
    TaskCreateSaysThePid(ss, steps, n, q);
    var t, j :| 0 <= j < n && RecordsPid(ss[j], steps[j], t, ss[n].log[q].pid);
    RecordedStays(ss, steps, j, n, t, ss[n].log[q].pid);
    PidWasLearned(ss, steps, n);
  }

  // ----- startAux -----

  /** `runj extension exec` comes up with PID p for exec id x. */
  predicate Launches(s: State, step: Step, t: Tid, x: ExecId, p: nat) {
    && t in s.threads && s.threads[t].Start? && s.threads[t].sop.SRun? && s.threads[t].x == x
    && step == Op(t, Succeed(p)) && p != 0
  }

  predicate HasLaunched(pc: Pc, x: ExecId, p: nat) { HasPid(pc) && pc.x == x && pc.p == p }

  lemma LaunchedFrom(s: State, step: Step, s': State, t: Tid, x: ExecId, p: nat)
    requires Next(s, step, s') && t in s'.threads && HasLaunched(s'.threads[t], x, p)
    ensures (t in s.threads && HasLaunched(s.threads[t], x, p)) || Launches(s, step, t, x, p)
  {
    ThreadAfter(s, step, s', t);
    if Executes(s, step, t) { ExecuteOwn(s, s.threads[t], step.c); }
  }

  lemma LaunchedBefore(ss: seq<State>, steps: seq<Step>, n: nat, t: Tid, x: ExecId, p: nat)
    requires IsRun(ss, steps) && n < |ss| && t in ss[n].threads && HasLaunched(ss[n].threads[t], x, p)
    ensures exists i :: 0 <= i < n && Launches(ss[i], steps[i], t, x, p)
  {
    var there := (pc: Pc) => HasLaunched(pc, x, p);
    forall s, step, s' | Next(s, step, s') && t in s'.threads && there(s'.threads[t])
      ensures (t in s.threads && there(s.threads[t])) || Launches(s, step, t, x, p)
    {
      LaunchedFrom(s, step, s', t, x, p);
    }
    LookBack(ss, steps, n, t, there, (s, step) => Launches(s, step, t, x, p));
  }

  /** A TaskExecStarted(x, p) comes from a startAux of x whose command came up with p. */
  lemma TaskExecStartedSaysThePid(ss: seq<State>, steps: seq<Step>, n: nat, q: nat)
    requires IsRun(ss, steps) && n < |ss| && q < |ss[n].log| && ss[n].log[q].TaskExecStarted?
    ensures var TaskExecStarted(x, p) := ss[n].log[q];
            exists t, i, m :: 0 <= i < m < n && Launches(ss[i], steps[i], t, x, p)
              && SendsAt(ss[m], steps[m], t, TaskExecStarted(x, p))
  {
    var TaskExecStarted(x, p) := ss[n].log[q];
    var m, t := SenderFound(ss, steps, n, q);
    LaunchedBefore(ss, steps, m, t, x, p);
  }

  // ----- checkProcesses -----

  predicate ReportsOk(s: State) {
    && EXITS in s.threads
    && (forall i | 0 <= i < |s.exits| :: s.exits[i] in s.delivered)
    && (s.threads[EXITS].Reap? && !s.threads[EXITS].rop.RIdle? ==> s.threads[EXITS].e in s.delivered)
  }

  lemma ReapReports(s: State, pc: Pc, c: Choice)
    requires pc.Reap? && RefsOk(s, pc)
    ensures var m := ExecuteReap(s, pc, c);
            m.Move? ==> m.pc.Reap? && (m.pc.rop.RIdle? || (if pc.rop.RIdle? then s.exits != [] && m.pc.e == s.exits[0]
                                                            else m.pc.e == pc.e))
  {}

  lemma ApplyReports(s: State, eff: Effect)
    requires EffectOk(s, eff)
    ensures Apply(s, eff).delivered == s.delivered
    ensures Apply(s, eff).exits == if eff.TakeExit? then s.exits[1..] else s.exits
  {}

  lemma NextReportsOk(s: State, step: Step, s': State)
    requires Well(s) && ReportsOk(s) && Next(s, step, s')
    ensures ReportsOk(s')
  {
    if step.Op? {
      ApplyReports(s, Execute(s, s.threads[step.t], step.c).eff);
      assert PcOk(s, step.t, s.threads[step.t]);
      if step.t == EXITS { ReapReports(s, s.threads[EXITS], step.c); }
    }
  }

  lemma {:induction false} RunReportsOk(ss: seq<State>, steps: seq<Step>, n: nat)
    requires IsRun(ss, steps) && n < |ss|
    ensures ReportsOk(ss[n])
  {
    if n > 0 {
      RunReportsOk(ss, steps, n - 1);
      RunWell(ss, steps, n - 1);
      NextReportsOk(ss[n - 1], steps[n - 1], ss[n]);
    }
  }

  lemma {:induction false} DeliveredWasReported(ss: seq<State>, steps: seq<Step>, n: nat, e: Exit)
    requires IsRun(ss, steps) && n < |ss| && e in ss[n].delivered
    ensures exists i :: 0 <= i < n && steps[i] == ReapExit(e)
  {
    if n > 0 {
      assert Next(ss[n - 1], steps[n - 1], ss[n]);
      if steps[n - 1].Op? {
        ApplyReports(ss[n - 1], Execute(ss[n - 1], ss[n - 1].threads[steps[n - 1].t], steps[n - 1].c).eff);
      }
      if steps[n - 1] != ReapExit(e) { DeliveredWasReported(ss, steps, n - 1, e); }
    }
  }

  /** A TaskExit(x, e) passes on an exit that the reaper reported, of a process that x was made for
      and that records its PID. */
  lemma TaskExitSaysTheExit(ss: seq<State>, steps: seq<Step>, n: nat, q: nat)
    requires IsRun(ss, steps) && n < |ss| && q < |ss[n].log| && ss[n].log[q].TaskExit?
    ensures var TaskExit(x, e) := ss[n].log[q];
            && (exists i :: 0 <= i < n && steps[i] == ReapExit(e))
            && (exists r :: 0 <= r < |ss[n].procs| && ss[n].procs[r].key == x && ss[n].procs[r].proc.pid == e.pid != 0)
  {
    var TaskExit(x, e) := ss[n].log[q];
    var m, t := SenderFound(ss, steps, n, q);
    RunReportsOk(ss, steps, m);
    RunWell(ss, steps, m);
    var pc := ss[m].threads[t];
    assert PcOk(ss[m], t, pc);
    assert t == EXITS;
    DeliveredWasReported(ss, steps, m, e);
    ObjectStays(ss, steps, m, n, pc.r);
  }

  // ----- locks -----

  /** What a program point writes, it writes under the lock that guards it. */
  predicate Guarded(pc: Pc, m: Move) {
    m.Move? ==>
      && (m.eff.Set? ==> ProcMu(m.eff.r) in Needs(pc))
      && (m.eff.Send? ==> EventSendMu in Needs(pc))
      && (m.eff.NewObject? || m.eff.Unmap? ==> Mu in Needs(pc))
  }

  lemma StartGuarded(s: State, pc: Pc, c: Choice)
    requires pc.Start? && RefsOk(s, pc)
    ensures Guarded(pc, ExecuteStart(s, pc, c))
  {}

  lemma ReapGuarded(s: State, pc: Pc, c: Choice)
    requires pc.Reap? && RefsOk(s, pc)
    ensures Guarded(pc, ExecuteReap(s, pc, c))
  {}

  lemma ExecuteGuarded(s: State, pc: Pc, c: Choice)
    requires RefsOk(s, pc)
    ensures Guarded(pc, Execute(s, pc, c))
  {
    match pc
    case Start(_, _, _, _) => StartGuarded(s, pc, c);
    case Reap(_, _, _, _, _) => ReapGuarded(s, pc, c);
    case Exec(_, _, _) => assert Execute(s, pc, c) == ExecuteExec(s, pc, c);
    case Init(_, _, _) => assert Execute(s, pc, c) == ExecuteInit(s, pc, c);
    case Delete(_, _, _) => assert Execute(s, pc, c) == ExecuteDelete(s, pc, c);
    case Create(_, _) => assert Execute(s, pc, c) == ExecuteCreate(s, pc, c);
    case _ =>
  }

  /** Whoever changes a process, the queue or the map owns the lock for it, and so nobody else
      can be at a program point that needs that lock and execute it. */
  lemma WritersOwnTheLock(s: State, t: Tid, c: Choice, u: Tid, d: Choice)
    requires CanOp(s, t, c) && CanOp(s, u, d) && t != u
    ensures var eff := Execute(s, s.threads[t], c).eff;
            && (eff.Set? ==> ProcMu(eff.r) !in Needs(s.threads[u]))
            && (eff.Send? ==> EventSendMu !in Needs(s.threads[u]))
            && (eff.NewObject? || eff.Unmap? ==> Mu !in Needs(s.threads[u]))
  {
    ExecuteGuarded(s, s.threads[t], c);
  }
}
