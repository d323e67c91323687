/** The order of the shim's events, in every interleaving and without any
    assumption about overlapping requests or reused PIDs. */
module ShimOrder {
  import opened ShimProcess
  import opened Shim
  import opened ShimInvariant

  predicate AnnouncingAs(pc: Pc, r: Ref, p: nat) {
    Announcing(pc) && pc.r == r && pc.p == p
  }

  /** The `runj start` command with number k has opened the fifo, and neither the
      failure of the command nor its TaskStart event has been recorded yet. */
  predicate StartingAs(pc: Pc, k: nat) {
    pc.Init? && (pc.iop.IReleased? || pc.iop.ISend?) && pc.k == k
  }

  predicate StartSent(log: seq<Event>, k: nat) {
    exists j :: 0 <= j < |log| && log[j].TaskStart? && log[j].start == k
  }

  // ----- the invariant -----

  ghost predicate PidKnown(s: State, r: Ref)
    requires r < |s.procs|
  {
    var o := s.procs[r];
    o.key != "" &&
    (|| TaskExecStarted(o.key, o.proc.pid) in s.log
     || exists t :: t in s.threads && AnnouncingAs(s.threads[t], r, o.proc.pid))
  }

  ghost predicate PidsKnown(s: State) {
    forall r | 0 < r < |s.procs| && s.procs[r].proc.pid != 0 :: PidKnown(s, r)
  }

  predicate ExecExitsOrdered(log: seq<Event>) {
    forall i | 0 <= i < |log| && log[i].TaskExit? && log[i].x != "" ::
      TaskExecStarted(log[i].x, log[i].exit.pid) in log[..i]
  }

  ghost predicate StartKnown(s: State, k: nat) {
    k in s.failedStarts || StartSent(s.log, k) || exists t :: t in s.threads && StartingAs(s.threads[t], k)
  }

  ghost predicate StartsKnown(s: State) {
    forall k: nat | k < s.releases :: StartKnown(s, k)
  }

  predicate ExitsAfterStarts(log: seq<Event>, failed: set<nat>) {
    forall i | 0 <= i < |log| && log[i].TaskExit? ::
      forall k: nat | k < log[i].exit.after :: k in failed || StartSent(log[..i], k)
  }

  predicate ExitsDated(s: State) {
    && (forall i | 0 <= i < |s.exits| :: s.exits[i].after <= s.releases)
    && (EXITS in s.threads && s.threads[EXITS].Reap? ==> s.threads[EXITS].e.after <= s.releases)
  }

  ghost predicate Ordered(s: State) {
    && Well(s)
    && PidsKnown(s) && ExecExitsOrdered(s.log)
    && StartsKnown(s) && ExitsAfterStarts(s.log, s.failedStarts) && ExitsDated(s)
  }

  // ----- what one program point can do to it -----

  predicate MoveOrderly(s: State, pc: Pc, m: Move) {
    m.Move? && EffectOk(s, m.eff) ==>
      && (m.eff.Set? && m.eff.r != PRIMARY && m.eff.proc.pid != s.procs[m.eff.r].proc.pid ==>
            AnnouncingAs(m.pc, m.eff.r, m.eff.proc.pid) && s.procs[m.eff.r].key != "")
      && (Announcing(pc) ==> m.eff == Send(TaskExecStarted(pc.x, pc.p)) || AnnouncingAs(m.pc, pc.r, pc.p))
      && (m.eff.Send? && m.eff.event.TaskExit? ==>
            HandlesExit(pc) && EventSendMu in Needs(pc) && m.eff.event == TaskExit(pc.x, pc.e))
      && (pc.Init? && (pc.iop.IReleased? || pc.iop.ISend?) ==>
            m.eff == Send(TaskStart(pc.p, pc.k)) || m.eff == StartFailed(pc.k) || StartingAs(m.pc, pc.k))
      && (m.eff.Opened? ==> StartingAs(m.pc, s.releases))
      && (m.pc.Reap? ==> m.pc.e == NO_EXIT || (pc.Reap? && m.pc.e == pc.e) || (s.exits != [] && m.pc.e == s.exits[0]))
  }

  lemma ReapOrderly(s: State, t: Tid, pc: Pc, c: Choice)
    requires pc.Reap? && ObjectsOk(s) && PcOk(s, t, pc)
    ensures MoveOrderly(s, pc, ExecuteReap(s, pc, c))
  {}

  lemma StartOrderly(s: State, t: Tid, pc: Pc, c: Choice)
    requires pc.Start? && ObjectsOk(s) && PcOk(s, t, pc)
    ensures MoveOrderly(s, pc, ExecuteStart(s, pc, c))
  {}

  lemma ExecuteOrderly(s: State, t: Tid, pc: Pc, c: Choice)
    requires ObjectsOk(s) && PcOk(s, t, pc)
    ensures MoveOrderly(s, pc, Execute(s, pc, c))
  {
    match pc
    case Start(_, _, _, _) => StartOrderly(s, t, pc, c);
    case Reap(_, _, _, _, _) => ReapOrderly(s, t, pc, c);
    case Exec(_, _, _) => assert Execute(s, pc, c) == ExecuteExec(s, pc, c);
    case Init(_, _, _) => assert Execute(s, pc, c) == ExecuteInit(s, pc, c);
    case Delete(_, _, _) => assert Execute(s, pc, c) == ExecuteDelete(s, pc, c);
    case Create(_, _) => assert Execute(s, pc, c) == ExecuteCreate(s, pc, c);
    case _ =>
  }

  /** The event lock keeps everyone else out of the section between recording a
      PID, or opening the fifo, and sending the start event. */
  lemma AloneInSection(s: State, t: Tid)
    requires Well(s) && t in s.threads && !s.threads[t].Start? && !s.threads[t].Init?
    requires EventSendMu in s.locks && s.locks[EventSendMu] == t
    ensures forall u | u in s.threads :: !Announcing(s.threads[u])
    ensures forall u, k | u in s.threads :: !StartingAs(s.threads[u], k)
  {
    forall u | u in s.threads && EventSendMu in Outer(s.threads[u]) ensures false {}
  }

  // ----- preservation by one operation -----

  lemma SendKeepsStarts(log: seq<Event>, ev: Event, k: nat)
    requires StartSent(log, k)
    ensures StartSent(log + [ev], k)
  {
    var j :| 0 <= j < |log| && log[j].TaskStart? && log[j].start == k;
    assert (log + [ev])[j] == log[j];
  }

  /** A PID that was known is still known: its start event is sent, or still to be sent. */
  lemma PidStaysKnown(s: State, a: State, t: Tid, m: Move, r: Ref)
    requires t in s.threads && m.Move? && r < |s.procs| && r < |a.procs| && PidKnown(s, r)
    requires a.threads == s.threads && (a.log == s.log || (m.eff.Send? && a.log == s.log + [m.eff.event]))
    requires a.procs[r].key == s.procs[r].key && a.procs[r].proc.pid == s.procs[r].proc.pid
    requires PcOk(s, t, s.threads[t])
    requires Announcing(s.threads[t]) ==>
               || (m.eff == Send(TaskExecStarted(s.threads[t].x, s.threads[t].p)) && a.log == s.log + [m.eff.event])
               || AnnouncingAs(m.pc, s.threads[t].r, s.threads[t].p)
    ensures PidKnown(a.(threads := s.threads[t := m.pc]), r)
  {
    var s' := a.(threads := s.threads[t := m.pc]);
    var o := s.procs[r];
    if TaskExecStarted(o.key, o.proc.pid) !in s.log {
      var u :| u in s.threads && AnnouncingAs(s.threads[u], r, o.proc.pid);
      assert u in s'.threads;
      if u == t && !AnnouncingAs(m.pc, r, o.proc.pid) { assert s'.log[|s.log|] == TaskExecStarted(o.key, o.proc.pid); }
    }
  }

  lemma OpPidsKnown(s: State, t: Tid, m: Move)
    requires Ordered(s) && t in s.threads && m.Move? && EffectSound(s, m.eff)
    requires MoveOrderly(s, s.threads[t], m) && PcOk(s, t, s.threads[t])
    ensures PidsKnown(Apply(s, m.eff).(threads := s.threads[t := m.pc]))
  {
    var a := Apply(s, m.eff);
    var s' := a.(threads := s.threads[t := m.pc]);
    ApplySound(s, m.eff);
    forall r | 0 < r < |s'.procs| && s'.procs[r].proc.pid != 0 ensures PidKnown(s', r) {
      if r < |s.procs| && s.procs[r].proc.pid == s'.procs[r].proc.pid {
        PidStaysKnown(s, a, t, m, r);
      } else {
        assert t in s'.threads && s'.threads[t] == m.pc;
      }
    }
  }

  lemma OpStartsKnown(s: State, t: Tid, m: Move)
    requires Ordered(s) && t in s.threads && m.Move? && EffectSound(s, m.eff)
    requires MoveOrderly(s, s.threads[t], m)
    ensures StartsKnown(Apply(s, m.eff).(threads := s.threads[t := m.pc]))
  {
    var s' := Apply(s, m.eff).(threads := s.threads[t := m.pc]);
    forall k: nat | k < s'.releases ensures StartKnown(s', k) {
      assert t in s'.threads && s'.threads[t] == m.pc;
      if k < s.releases {
        assert StartKnown(s, k);
        if StartSent(s.log, k) {
          if m.eff.Send? { SendKeepsStarts(s.log, m.eff.event, k); }
        } else if k !in s.failedStarts {
          var u :| u in s.threads && StartingAs(s.threads[u], k);
          assert u in s'.threads;
          if m.eff == Send(TaskStart(s.threads[u].p, k)) {
            assert s'.log[|s.log|].TaskStart? && s'.log[|s.log|].start == k;
          }
        }
      }
    }
  }

  lemma OpLogOrdered(s: State, t: Tid, m: Move)
    requires Ordered(s) && t in s.threads && m.Move? && EffectSound(s, m.eff)
    requires HoldsExactly(s, t, Needs(s.threads[t]))
    requires MoveOrderly(s, s.threads[t], m)
    ensures ExecExitsOrdered(Apply(s, m.eff).log)
    ensures ExitsAfterStarts(Apply(s, m.eff).log, Apply(s, m.eff).failedStarts)
  {
    var pc := s.threads[t];
    var log' := Apply(s, m.eff).log;
    var n := |s.log|;
    assert PcOk(s, t, pc);
    forall i | 0 <= i < n ensures log'[..i] == s.log[..i] && log'[i] == s.log[i] {}
    if m.eff.Send? && m.eff.event.TaskExit? {
      assert log'[..n] == s.log;
      AloneInSection(s, t);
      if pc.x != "" {
        assert pc.r != PRIMARY;
        assert PidKnown(s, pc.r);
      }
      forall k: nat | k < pc.e.after ensures k in s.failedStarts || StartSent(log'[..n], k) {
        assert t == EXITS;
        assert StartKnown(s, k);
      }
    }
  }

  lemma OpDated(s: State, t: Tid, m: Move)
    requires Well(s) && ExitsDated(s) && t in s.threads && m.Move? && EffectOk(s, m.eff)
    requires MoveOrderly(s, s.threads[t], m)
    requires m.pc.Reap? ==> t == EXITS
    ensures ExitsDated(Apply(s, m.eff).(threads := s.threads[t := m.pc]))
  {
    assert PcOk(s, EXITS, s.threads[EXITS]);
  }

  lemma OpOrdered(s: State, t: Tid, c: Choice)
    requires Ordered(s) && CanOp(s, t, c)
    ensures Ordered(DoOp(s, t, c))
  {
    var m := Execute(s, s.threads[t], c);
    assert PcOk(s, t, s.threads[t]);
    ExecuteSound(s, t, s.threads[t], c);
    ExecuteOrderly(s, t, s.threads[t], c);
    OpWell(s, t, c);
    OpPidsKnown(s, t, m);
    OpStartsKnown(s, t, m);
    OpLogOrdered(s, t, m);
    OpDated(s, t, m);
  }

  lemma NextOrdered(s: State, step: Step, s': State)
    requires Ordered(s) && Next(s, step, s')
    ensures Ordered(s')
  {
    NextWell(s, step, s');
    match step
    case Op(t, c) => OpOrdered(s, t, c);
    case _ =>
      assert forall t | t in s.threads :: t in s'.threads && s'.threads[t] == s.threads[t];
      forall r | 0 < r < |s'.procs| && s'.procs[r].proc.pid != 0 ensures PidKnown(s', r) {
        assert PidKnown(s, r);
      }
      forall k: nat | k < s'.releases ensures StartKnown(s', k) {
        assert StartKnown(s, k);
      }
  }

  lemma {:induction false} RunOrdered(ss: seq<State>, steps: seq<Step>, n: nat)
    requires IsRun(ss, steps) && n < |ss|
    ensures Ordered(ss[n])
  {
    if n > 0 {
      RunOrdered(ss, steps, n - 1);
      NextOrdered(ss[n - 1], steps[n - 1], ss[n]);
    }
  }

  // ----- the theorems -----

  /** At every point of every run, a TaskExit of an exec process stands behind a
      TaskExecStarted of the same exec id and PID; what the forwarder took is a
      prefix of the log, so publication keeps that order. */
  lemma ExecStartedBeforeExit(ss: seq<State>, steps: seq<Step>, n: nat, i: nat)
    requires IsRun(ss, steps) && n < |ss|
    requires i < |ss[n].log| && ss[n].log[i].TaskExit? && ss[n].log[i].x != ""
    ensures exists j :: 0 <= j < i && ss[n].log[j] == TaskExecStarted(ss[n].log[i].x, ss[n].log[i].exit.pid)
  {
    RunOrdered(ss, steps, n);
  }

  /** If a `runj start` that opened the fifo did not fail, then every exit that
      happened after it opened the fifo is queued behind its TaskStart.  While the
      command is still running, no such exit is queued at all. */
  lemma TaskStartBeforeExit(ss: seq<State>, steps: seq<Step>, n: nat, i: nat, k: nat)
    requires IsRun(ss, steps) && n < |ss|
    requires i < |ss[n].log| && ss[n].log[i].TaskExit? && k < ss[n].log[i].exit.after
    requires k !in ss[n].failedStarts
    ensures exists j :: 0 <= j < i && ss[n].log[j].TaskStart? && ss[n].log[j].start == k
  {
    RunOrdered(ss, steps, n);
    assert StartSent(ss[n].log[..i], k);
  }

  /** Events are only ever appended, and taken from the front: what was published
      at one point of a run is the beginning of what is published later. */
  lemma {:induction false} PublishedStays(ss: seq<State>, steps: seq<Step>, m: nat, n: nat)
    requires IsRun(ss, steps) && m <= n < |ss|
    ensures ss[m].taken <= ss[n].taken <= |ss[n].log|
    ensures ss[m].log <= ss[n].log
  {
    RunWell(ss, steps, n);
    if m < n {
      PublishedStays(ss, steps, m, n - 1);
      assert Next(ss[n - 1], steps[n - 1], ss[n]);
      assert ss[n - 1].log <= ss[n].log;
    }
  }
}
