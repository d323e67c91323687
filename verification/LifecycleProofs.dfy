/** What every interleaving of runj commands on one container keeps. */
module LifecycleProofs {
  import opened Wrappers
  import opened RunjState
  import opened Lifecycle

  // ----- the start token -----

  /** The byte is written at most once, by a helper that went past its open, and is
      buffered, read or discarded; the user program runs after it was written. */
  predicate TokenOk(s: State) {
    && s.written == s.buffered + s.taken + s.discarded
    && (match s.helper
        case NotSpawned | Booting | Opening => s.opens == 0 && s.written == 0 && s.runs == 0
        case Writing => s.opens == 1 && s.written == 0 && s.runs == 0
        case Attaching => s.opens == 1 && s.written == 1 && s.runs == 0
        case UserProgram => s.opens == 1 && s.written == 1 && s.runs == 1
        case Dead => s.runs <= s.written <= s.opens <= 1)
  }

  predicate HoldsToken(pc: Pc) { pc.Start? && pc.got > 0 }

  predicate PcOk(s: State, t: Tid, pc: Pc) {
    && (pc.Create? <==> t == CREATE)
    && (pc.Create? ==>
          if pc.cop.CFifo? || pc.cop.CSpawn? then s.helper.NotSpawned?
          else pc.cop.CUndoRemove? || pc.cop.CDone? || !s.helper.NotSpawned?)
    && (pc.Start? ==> pc.got <= s.taken)
    && (pc.Start? && (pc.sop.SUnlink? || pc.sop.SSave? || pc.sop.SSucceeded?) ==> pc.got > 0)
  }

  predicate ThreadsOk(s: State) {
    && (forall t | t in s.threads :: PcOk(s, t, s.threads[t]))
    && (forall t, u | t in s.threads && u in s.threads && HoldsToken(s.threads[t]) && HoldsToken(s.threads[u]) ::
        t == u)
  }

  // ----- the persisted status -----

  /** Some `runj start` has saved, or tried to save, the status running. */
  ghost predicate Started(s: State) {
    exists t :: t in s.threads && s.threads[t].Start? && s.threads[t].sop.SSucceeded?
  }

  /** Commands that have seen the container running, or recorded it stopped. */
  predicate SawRunning(pc: Pc) {
    || (pc.Query? && (pc.qop.QPs? || pc.qop.QSave? || pc.qop.QSignal?))
    || (pc.Exec? && (pc.xop.XPs? || pc.xop.XEntered?))
  }

  ghost predicate StatusOk(s: State) {
    && (s.status.Some? && Rank(s.status.value) > Rank(Created) ==> Started(s))
    && (forall t | t in s.threads && SawRunning(s.threads[t]) :: Started(s))
  }

  ghost predicate Inv(s: State) { TokenOk(s) && ThreadsOk(s) && StatusOk(s) }

  // ----- preservation -----

  /** Sweeping moves buffered bytes to the discarded ones. */
  lemma SweptInv(s: State)
    ensures TokenOk(s) ==> TokenOk(Swept(s))
    ensures ThreadsOk(s) ==> ThreadsOk(Swept(s))
    ensures StatusOk(s) ==> StatusOk(Swept(s))
    ensures Swept(s).status == s.status && Swept(s).threads == s.threads && Swept(s).helper == s.helper
  {
    var s' := Swept(s);
    assert s'.threads == s.threads && s'.taken == s.taken && s'.helper == s.helper && s'.status == s.status;
    if ThreadsOk(s) {
      forall t | t in s'.threads ensures PcOk(s', t, s'.threads[t]) { assert PcOk(s, t, s.threads[t]); }
    }
    if Started(s) { KeepsStarted(s, s'); }
  }

  lemma KeepsStarted(s: State, s': State)
    requires forall t | t in s.threads && s.threads[t].Start? && s.threads[t].sop.SSucceeded? ::
               t in s'.threads && s'.threads[t] == s.threads[t]
    ensures Started(s) ==> Started(s')
  {
    if Started(s) {
      var t :| t in s.threads && s.threads[t].Start? && s.threads[t].sop.SSucceeded?;
      assert t in s'.threads && s'.threads[t] == s.threads[t];
    }
  }

  /** One program point of a command. */
  predicate MoveOk(s: State, t: Tid, pc: Pc, m: Move) {
    m.Move? ==>
      && (m.eff.Spawn? ==> pc.Create? && s.helper.NotSpawned?)
      && (m.eff.Kill? ==> pc.Create? && !s.helper.NotSpawned?)
      && PcOk(Apply(s, m.eff), t, m.pc)
      && (HoldsToken(m.pc) && !HoldsToken(pc) ==> m.eff.Drain? && s.buffered > 0)
      && (pc.Start? ==> m.pc.Start? && pc.got <= m.pc.got && !pc.sop.SSucceeded?)
      && (SawRunning(m.pc) ==> SawRunning(pc) || (s.status.Some? && Rank(s.status.value) > Rank(Created)))
      && (m.eff.Save? ==>
            && s.status.Some?
            && match m.eff.st
               case Created => pc.Create? && pc.cop.CSave?
               case Running => pc.Start? && pc.sop.SSave? && m.pc.sop.SSucceeded?
               case Stopped => SawRunning(pc)
               case _ => false)
  }

  lemma CommandMoveOk(s: State, t: Tid, pc: Pc, c: Choice)
    requires PcOk(s, t, pc)
    ensures MoveOk(s, t, pc, CommandMove(s, pc, c))
  {
    match pc
    case Start(_, _, _) => StartMoveOk(s, t, pc, c);
    case Create(_) => CreateMoveOk(s, t, pc, c);
    case Query(_, _, _) => assert CommandMove(s, pc, c) == QueryMove(s, pc, c);
    case _ =>
  }

  lemma StartMoveOk(s: State, t: Tid, pc: Pc, c: Choice)
    requires pc.Start? && PcOk(s, t, pc)
    ensures MoveOk(s, t, pc, StartMove(s, pc, c))
  {}

  lemma CreateMoveOk(s: State, t: Tid, pc: Pc, c: Choice)
    requires pc.Create? && PcOk(s, t, pc)
    ensures MoveOk(s, t, pc, CreateMove(s, pc, c))
  {}

  lemma ApplyTokenOk(s: State, t: Tid, m: Move)
    requires TokenOk(s) && t in s.threads && m.Move? && MoveOk(s, t, s.threads[t], m)
    ensures TokenOk(Apply(s, m.eff)) && s.taken <= Apply(s, m.eff).taken
    ensures !s.threads[t].Create? ==> Apply(s, m.eff).helper == s.helper
    ensures HoldsToken(m.pc) && !HoldsToken(s.threads[t]) ==> s.taken == 0
    ensures s.helper.NotSpawned? || !Apply(s, m.eff).helper.NotSpawned?
  {}

  lemma ApplyThreadsOk(s: State, t: Tid, m: Move)
    requires TokenOk(s) && ThreadsOk(s) && t in s.threads && m.Move? && MoveOk(s, t, s.threads[t], m)
    ensures ThreadsOk(Switch(Apply(s, m.eff), t, m.pc))
  {
    var a := Apply(s, m.eff);
    var s' := Switch(a, t, m.pc);
    ApplyTokenOk(s, t, m);
    assert PcOk(s, t, s.threads[t]);
    assert a.threads == s.threads;
    forall u | u in s'.threads ensures PcOk(s', u, s'.threads[u]) {
      if u != t {
        assert PcOk(s, u, s.threads[u]);
      } else {
        assert PcOk(a, t, m.pc);
      }
    }
    forall u | u in s.threads && u != t && HoldsToken(s.threads[u]) ensures !HoldsToken(m.pc) {
      assert PcOk(s, u, s.threads[u]);
    }
  }

  lemma ApplyStatusOk(s: State, t: Tid, m: Move)
    requires StatusOk(s) && t in s.threads && m.Move? && MoveOk(s, t, s.threads[t], m)
    ensures StatusOk(Switch(Apply(s, m.eff), t, m.pc))
  {
    var s' := Switch(Apply(s, m.eff), t, m.pc);
    KeepsStarted(s, s');
    assert s'.threads[t] == m.pc;
    if m.eff == Save(Running) { assert Started(s'); }
  }

  lemma CommandInv(s: State, t: Tid, c: Choice)
    requires Inv(s) && t in s.threads && CommandMove(s, s.threads[t], c).Move?
    ensures var m := CommandMove(s, s.threads[t], c);
            Inv(Swept(Switch(Apply(s, m.eff), t, m.pc)))
  {
    var m := CommandMove(s, s.threads[t], c);
    assert PcOk(s, t, s.threads[t]);
    CommandMoveOk(s, t, s.threads[t], c);
    ApplyTokenOk(s, t, m);
    ApplyThreadsOk(s, t, m);
    ApplyStatusOk(s, t, m);
    SweptInv(Switch(Apply(s, m.eff), t, m.pc));
  }

  lemma HelperTokenOk(s: State, c: Choice)
    requires TokenOk(s)
    ensures var h := HelperMove(s, c);
            h.Some? ==>
              && TokenOk(h.value) && !s.helper.NotSpawned? && !h.value.helper.NotSpawned?
              && h.value == s.(helper := h.value.helper, opens := h.value.opens, buffered := h.value.buffered,
                               written := h.value.written, runs := h.value.runs)
  {}

  lemma HelperInv(s: State, h: State)
    requires Inv(s) && !s.helper.NotSpawned? && !h.helper.NotSpawned? && TokenOk(h)
    requires h.threads == s.threads && h.taken == s.taken && h.status == s.status
    ensures Inv(Swept(h))
  {
    forall u | u in h.threads ensures PcOk(h, u, h.threads[u]) { assert PcOk(s, u, s.threads[u]); }
    KeepsStarted(s, h);
    SweptInv(h);
  }

  lemma OtherInv(s: State, t: Tid, pc: Pc)
    requires Inv(s) && CREATE in s.threads && !SawRunning(pc)
    requires if t in s.threads then
               && pc.Start? && s.threads[t].Start? && pc.got == s.threads[t].got
               && pc.sop.SFailed? && !s.threads[t].sop.SSucceeded?
             else Entry(pc)
    ensures Inv(Switch(s, t, pc))
  {
    var s' := Switch(s, t, pc);
    forall u | u in s'.threads ensures PcOk(s', u, s'.threads[u]) {
      if u in s.threads { assert PcOk(s, u, s.threads[u]); }
    }
    KeepsStarted(s, s');
  }

  lemma NextInv(s: State, step: Step, s': State)
    requires Inv(s) && CREATE in s.threads && Next(s, step, s')
    ensures Inv(s') && CREATE in s'.threads
  {
    match step
    case Op(t, c) => OpInv(s, t, c, s');
    case Arrive(t, pc) => ArriveInv(s, t, pc, s');
    case HelperOp(c) => HelperOpInv(s, c, s');
    case HelperDies => HelperDiesInv(s, s');
    case Crash(t) => CrashInv(s, t, s');
  }

  lemma OpInv(s: State, t: Tid, c: Choice, s': State)
    requires Inv(s) && CREATE in s.threads && Next(s, Op(t, c), s')
    ensures Inv(s') && CREATE in s'.threads
  {
    var m := CommandMove(s, s.threads[t], c);
    var a := Switch(Apply(s, m.eff), t, m.pc);
    assert s' == Swept(a);
    CommandInv(s, t, c);
    SweptInv(a);
    ApplyThreads(s, m.eff);
  }

  lemma ApplyThreads(s: State, eff: Effect)
    ensures Apply(s, eff).threads == s.threads
  {}

  lemma ArriveInv(s: State, t: Tid, pc: Pc, s': State)
    requires Inv(s) && CREATE in s.threads && Next(s, Arrive(t, pc), s')
    ensures Inv(s') && CREATE in s'.threads
  {
    OtherInv(s, t, pc);
  }

  lemma HelperOpInv(s: State, c: Choice, s': State)
    requires Inv(s) && CREATE in s.threads && Next(s, HelperOp(c), s')
    ensures Inv(s') && CREATE in s'.threads
  {
    HelperTokenOk(s, c);
    HelperInv(s, HelperMove(s, c).value);
    SweptInv(HelperMove(s, c).value);
  }

  lemma HelperDiesInv(s: State, s': State)
    requires Inv(s) && CREATE in s.threads && Next(s, HelperDies, s')
    ensures Inv(s') && CREATE in s'.threads
  {
    HelperInv(s, s.(helper := Dead));
    SweptInv(s.(helper := Dead));
  }

  lemma CrashInv(s: State, t: Tid, s': State)
    requires Inv(s) && CREATE in s.threads && Next(s, Crash(t), s')
    ensures Inv(s') && CREATE in s'.threads
  {
    var pc := Start(SFailed, s.threads[t].loaded, s.threads[t].got);
    OtherInv(s, t, pc);
    SweptInv(Switch(s, t, pc));
  }

  lemma {:induction false} RunInv(ss: seq<State>, steps: seq<Step>, n: nat)
    requires IsRun(ss, steps) && n < |ss|
    ensures Inv(ss[n]) && CREATE in ss[n].threads
  {
    if n > 0 {
      RunInv(ss, steps, n - 1);
      NextInv(ss[n - 1], steps[n - 1], ss[n]);
    }
  }

  // ----- the theorems -----

  /** The start token is conserved: unwritten, buffered, read or, once nobody can
      read it any more, discarded; there is never a second one. */
  lemma TokenConserved(ss: seq<State>, steps: seq<Step>, n: nat)
    requires IsRun(ss, steps) && n < |ss|
    ensures (1 - ss[n].written) + ss[n].buffered + ss[n].taken + ss[n].discarded == 1
    ensures ss[n].written <= 1
    ensures ss[n].runs <= ss[n].written
  {
    RunInv(ss, steps, n);
  }

  /** However many starts overlap, at most one succeeds, and it has read the token;
      the user program is executed at most once. */
  lemma StartSucceedsOnce(ss: seq<State>, steps: seq<Step>, n: nat, t: Tid, u: Tid)
    requires IsRun(ss, steps) && n < |ss| && t in ss[n].threads && u in ss[n].threads
    requires ss[n].threads[t].Start? && ss[n].threads[t].sop.SSucceeded?
    requires ss[n].threads[u].Start? && ss[n].threads[u].sop.SSucceeded?
    ensures t == u && ss[n].threads[t].got == ss[n].taken == 1
  {
    RunInv(ss, steps, n);
    assert PcOk(ss[n], t, ss[n].threads[t]) && PcOk(ss[n], u, ss[n].threads[u]);
  }

  /** The helper leaves its open, and so the user program runs, only after some
      `runj start` has opened the fifo for reading. */
  lemma {:induction false} ProgramWaitsForStart(ss: seq<State>, steps: seq<Step>, n: nat)
    requires IsRun(ss, steps) && n < |ss| && (ss[n].runs > 0 || ss[n].opens > 0)
    ensures exists m, t :: 0 <= m < n && t in ss[m].threads && Reading(ss[m].threads[t])
  {
    RunInv(ss, steps, n);
    if n > 0 {
      RunInv(ss, steps, n - 1);
      assert Next(ss[n - 1], steps[n - 1], ss[n]);
      if ss[n - 1].opens > 0 {
        ProgramWaitsForStart(ss, steps, n - 1);
      } else {
        OpensOnlyWithReader(ss[n - 1], steps[n - 1], ss[n]);
        var t :| t in ss[n - 1].threads && Reading(ss[n - 1].threads[t]);
      }
    }
  }

  lemma OpensOnlyWithReader(s: State, step: Step, s': State)
    requires Next(s, step, s') && s'.opens > s.opens
    ensures HasReader(s)
  {}

  /** Running, stopped, a signal sent by kill and a process entered by
      `extension exec` all come after the start token was read by a start. */
  lemma RunningMeansStarted(ss: seq<State>, steps: seq<Step>, n: nat)
    requires IsRun(ss, steps) && n < |ss|
    ensures ss[n].status == Some(Running) || ss[n].status == Some(Stopped) ==> ss[n].taken == 1
    ensures forall t | t in ss[n].threads && ss[n].threads[t].Exec? && ss[n].threads[t].xop.XEntered? ::
        ss[n].taken == 1
    ensures forall t | t in ss[n].threads && ss[n].threads[t].Query? && ss[n].threads[t].qop.QSignal? ::
        ss[n].taken == 1
  {
    RunInv(ss, steps, n);
    if Started(ss[n]) {
      var t :| t in ss[n].threads && ss[n].threads[t].Start? && ss[n].threads[t].sop.SSucceeded?;
      assert PcOk(ss[n], t, ss[n].threads[t]);
    }
  }

  /** The persisted status moves back at exactly one place in the code: where create
      finishes by saving `created` and a start has overtaken it. */
  predicate MovesBack(s: State, s': State) {
    s.status.Some? && s'.status.Some? && Rank(s'.status.value) < Rank(s.status.value)
  }

  lemma StatusMovesForward(ss: seq<State>, steps: seq<Step>, n: nat)
    requires IsRun(ss, steps) && n < |steps|
    ensures MovesBack(ss[n], ss[n + 1]) <==>
              && steps[n] == Op(CREATE, Ok)
              && ss[n].threads[CREATE] == Create(CSave)
              && (ss[n].status == Some(Running) || ss[n].status == Some(Stopped))
  {
    RunInv(ss, steps, n);
    assert Next(ss[n], steps[n], ss[n + 1]);
    if steps[n].Op? {
      OpMovesBack(ss[n], steps[n].t, steps[n].c, ss[n + 1]);
    } else if steps[n].HelperOp? {
      HelperTokenOk(ss[n], steps[n].c);
    }
  }

  lemma OpMovesBack(s: State, t: Tid, c: Choice, s': State)
    requires Inv(s) && CREATE in s.threads && Next(s, Op(t, c), s')
    ensures MovesBack(s, s') <==>
              && t == CREATE && c == Ok && s.threads[CREATE] == Create(CSave)
              && (s.status == Some(Running) || s.status == Some(Stopped))
  {
    var pc := s.threads[t];
    assert PcOk(s, t, pc) && PcOk(s, CREATE, s.threads[CREATE]);
    CommandMoveOk(s, t, pc, c);
    var m := CommandMove(s, pc, c);
    assert s'.status == Apply(s, m.eff).status;
    if m.eff == Save(Running) { NotYetStarted(s, t); }
  }

  /** The start that is about to save `running` holds the token, so no other start has succeeded. */
  lemma NotYetStarted(s: State, t: Tid)
    requires Inv(s) && t in s.threads && s.threads[t].Start? && s.threads[t].sop.SSave?
    ensures !Started(s)
  {
    assert PcOk(s, t, s.threads[t]);
    forall u | u in s.threads && s.threads[u].Start? && s.threads[u].sop.SSucceeded? ensures u == t {
      assert PcOk(s, u, s.threads[u]);
    }
  }

  // ----- commands one after the other -----

  /** Every start begins when create has ended. */
  predicate StartsAfterCreate(ss: seq<State>, steps: seq<Step>)
    requires |ss| == |steps| + 1
  {
    forall i | 0 <= i < |steps| && steps[i].Arrive? && steps[i].pc.Start? :: CreateEnded(ss[i])
  }

  predicate CreateEnded(s: State) { CREATE in s.threads && s.threads[CREATE] == Create(CDone) }

  predicate AnyStart(s: State) { exists t :: t in s.threads && s.threads[t].Start? }

  predicate Ended(pc: Pc) {
    match pc
    case Start(op, _, _) => op.SSucceeded? || op.SFailed?
    case Query(op, _, _) => op.QDone?
    case Exec(op, _) => op.XEntered? || op.XRefused?
    case Delete(op) => op.DDone?
    case Create(op) => op.CDone?
  }

  /** Every command begins when all the others have ended; the helper and the program run on. */
  predicate OneAfterTheOther(ss: seq<State>, steps: seq<Step>)
    requires |ss| == |steps| + 1
  {
    forall i | 0 <= i < |steps| && steps[i].Arrive? :: forall t | t in ss[i].threads :: Ended(ss[i].threads[t])
  }

  lemma NextCreateEnded(s: State, step: Step, s': State)
    requires CREATE in s.threads && ThreadsOk(s) && Next(s, step, s')
    requires step.Arrive? && step.pc.Start? ==> CreateEnded(s)
    requires AnyStart(s) ==> CreateEnded(s)
    ensures AnyStart(s') ==> CreateEnded(s')
  {
    assert PcOk(s, CREATE, s.threads[CREATE]);
    match step
    case Op(t, c) => OpCreateEnded(s, t, c, s');
    case HelperOp(c) => HelperKeepsThreads(s, c, s');
    case _ =>
      if AnyStart(s') {
        var t :| t in s'.threads && s'.threads[t].Start?;
        if t in s.threads { assert s.threads[t].Start?; }
      }
  }

  lemma HelperKeepsThreads(s: State, c: Choice, s': State)
    requires Next(s, HelperOp(c), s')
    ensures s'.threads == s.threads && s'.status == s.status
  {}

  lemma OpCreateEnded(s: State, t: Tid, c: Choice, s': State)
    requires CREATE in s.threads && Next(s, Op(t, c), s') && (AnyStart(s) ==> CreateEnded(s))
    ensures AnyStart(s') ==> CreateEnded(s')
  {
    var m := CommandMove(s, s.threads[t], c);
    assert s'.threads == s.threads[t := m.pc];
    KindStays(s, s.threads[t], c);
    if AnyStart(s') {
      var u :| u in s'.threads && s'.threads[u].Start?;
      assert u in s.threads && s.threads[u].Start?;
    }
  }

  /** A command stays the command it is, and one that has ended makes no more moves. */
  lemma KindStays(s: State, pc: Pc, c: Choice)
    requires CommandMove(s, pc, c).Move?
    ensures CommandMove(s, pc, c).pc.Start? <==> pc.Start?
    ensures pc != Create(CDone)
  {}

  lemma {:induction false} RunCreateEnded(ss: seq<State>, steps: seq<Step>, n: nat)
    requires IsRun(ss, steps) && n < |ss| && StartsAfterCreate(ss, steps)
    ensures AnyStart(ss[n]) ==> CreateEnded(ss[n])
  {
    if n > 0 {
      RunCreateEnded(ss, steps, n - 1);
      RunInv(ss, steps, n - 1);
      NextCreateEnded(ss[n - 1], steps[n - 1], ss[n]);
    }
  }

  /** If every start begins when create has ended, the status never moves back. */
  lemma NeverMovesBack(ss: seq<State>, steps: seq<Step>, n: nat)
    requires IsRun(ss, steps) && n < |steps| && StartsAfterCreate(ss, steps)
    ensures !MovesBack(ss[n], ss[n + 1])
  {
    RunCreateEnded(ss, steps, n);
    RunInv(ss, steps, n);
    StatusMovesForward(ss, steps, n);
    if Started(ss[n]) {
      var t :| t in ss[n].threads && ss[n].threads[t].Start? && ss[n].threads[t].sop.SSucceeded?;
      assert AnyStart(ss[n]);
    }
  }

  /** A state that is gone stays gone. */
  lemma GoneStays(s: State, step: Step, s': State)
    requires Inv(s) && Next(s, step, s') && s.status.None?
    ensures s'.status.None?
  {
    match step
    case Op(t, c) =>
      assert PcOk(s, t, s.threads[t]);
      CommandMoveOk(s, t, s.threads[t], c);
    case HelperOp(c) => HelperKeepsThreads(s, c, s');
    case _ =>
  }

  /** Over every run in which starts begin after create, the persisted status only goes
      forward, from any point to any later one, until the state is gone for good. */
  lemma {:induction false} StatusOnlyMovesForward(ss: seq<State>, steps: seq<Step>, m: nat, n: nat)
    requires IsRun(ss, steps) && m <= n < |ss| && StartsAfterCreate(ss, steps) && ss[n].status.Some?
    ensures ss[m].status.Some? && Rank(ss[m].status.value) <= Rank(ss[n].status.value)
  {
    if m < n {
      RunInv(ss, steps, n - 1);
      if ss[n - 1].status.None? { GoneStays(ss[n - 1], steps[n - 1], ss[n]); }
      StatusOnlyMovesForward(ss, steps, m, n - 1);
      NeverMovesBack(ss, steps, n - 1);
    }
  }

  /** The same for commands that run one after the other. */
  lemma SequentialStatusMovesForward(ss: seq<State>, steps: seq<Step>, m: nat, n: nat)
    requires IsRun(ss, steps) && m <= n < |ss| && OneAfterTheOther(ss, steps) && ss[n].status.Some?
    ensures ss[m].status.Some? && Rank(ss[m].status.value) <= Rank(ss[n].status.value)
  {
    forall i | 0 <= i < |steps| && steps[i].Arrive? && steps[i].pc.Start? ensures CreateEnded(ss[i]) {
      RunInv(ss, steps, i);
      assert PcOk(ss[i], CREATE, ss[i].threads[CREATE]);
    }
    StatusOnlyMovesForward(ss, steps, m, n);
  }

  /** A status that moves back always has a start behind it that began before create had ended. */
  lemma MovingBackNeedsOverlap(ss: seq<State>, steps: seq<Step>, n: nat)
    requires IsRun(ss, steps) && n < |steps| && MovesBack(ss[n], ss[n + 1])
    ensures exists i :: 0 <= i < n && steps[i].Arrive? && steps[i].pc.Start? && !CreateEnded(ss[i])
  {
    var ss', steps' := ss[..n + 2], steps[..n + 1];
    assert IsRun(ss', steps') by {
      forall i | 0 <= i < |steps'| ensures Next(ss'[i], steps'[i], ss'[i + 1]) {
        assert Next(ss[i], steps[i], ss[i + 1]);
      }
    }
    StatusMovesForward(ss, steps, n);
    if StartsAfterCreate(ss', steps') { NeverMovesBack(ss', steps', n); }
  }

  // ----- a start that overtakes create -----

  ghost predicate Reachable(s: State) { exists ss, steps :: IsRun(ss, steps) && ss[|steps|] == s }

  lemma Reach(s: State, step: Step, s': State)
    requires Reachable(s) && Next(s, step, s')
    ensures Reachable(s')
  {
    var ss, steps :| IsRun(ss, steps) && ss[|steps|] == s;
    var ss', steps' := ss + [s'], steps + [step];
    forall i | 0 <= i < |steps'| ensures Next(ss'[i], steps'[i], ss'[i + 1]) {}
    assert IsRun(ss', steps') && ss'[|steps'|] == s';
  }

  /** create is still running its hooks, and the helper and a start have met at the fifo. */
  function Meeting(helper: Helper, buffered: nat, taken: nat, sop: StartOp): State {
    State(Some(Creating), true, buffered, 1, buffered + taken, taken, 0, helper, 0,
          map[CREATE := Create(CHooks), 1 := Start(sop, Creating, taken)])
  }

  const BOOTED: State := INITIAL.(linked := true, helper := Opening, threads := map[CREATE := Create(CHooks)])

  lemma Boot()
    ensures Reachable(BOOTED)
  {
    var none: seq<Step> := [];
    assert IsRun([INITIAL], none) && [INITIAL][|none|] == INITIAL;
    var s1 := INITIAL.(linked := true, threads := map[CREATE := Create(CSpawn)]);
    Reach(INITIAL, Op(CREATE, Ok), s1);
    var s2 := s1.(helper := Booting, threads := map[CREATE := Create(CHooks)]);
    Reach(s1, Op(CREATE, Ok), s2);
    Reach(s2, HelperOp(Ok), BOOTED);
  }

  /** A start opens the fifo while the helper waits for it. */
  const OPENING: State := Switch(BOOTED, 1, Start(SOpening(0), Creating, 0))

  lemma OpenFifo()
    ensures Reachable(OPENING)
  {
    Boot();
    var s4 := Switch(BOOTED, 1, Start(SLoad, Unset, 0));
    Reach(BOOTED, Arrive(1, Start(SLoad, Unset, 0)), s4);
    var s5 := Switch(BOOTED, 1, Start(SOpen, Creating, 0));
    assert Switch(s4, 1, Start(SOpen, Creating, 0)) == s5;
    Reach(s4, Op(1, Ok), s5);
    assert Switch(s5, 1, Start(SOpening(0), Creating, 0)) == OPENING;
    Reach(s5, Op(1, Ok), OPENING);
  }

  lemma Meet()
    ensures Reachable(Meeting(Writing, 0, 0, SReading))
  {
    OpenFifo();
    assert 1 in OPENING.threads && Reading(OPENING.threads[1]);
    var s7 := OPENING.(helper := Writing, opens := 1);
    Reach(OPENING, HelperOp(Ok), s7);
    var s8 := Switch(s7, 1, Start(SReading, Creating, 0));
    Reach(s7, Op(1, Ok), s8);
    assert s8 == Meeting(Writing, 0, 0, SReading);
  }

  lemma PassToken()
    ensures Reachable(Meeting(UserProgram, 0, 1, SReading).(runs := 1))
  {
    Meet();
    var s8 := Meeting(Writing, 0, 0, SReading);
    assert 1 in s8.threads && Reading(s8.threads[1]);
    var s9 := Meeting(Attaching, 1, 0, SReading);
    assert 1 in s9.threads && Reading(s9.threads[1]);
    Reach(s8, HelperOp(Ok), s9);
    var s10 := Meeting(Attaching, 0, 1, SReading);
    Reach(s9, Op(1, Ok), s10);
    Reach(s10, HelperOp(Ok), s10.(helper := UserProgram, runs := 1));
  }

  function Finishing(create: CreateOp, sop: StartOp, status: Status, linked: bool): State {
    Meeting(UserProgram, 0, 1, sop).(runs := 1, status := Some(status), linked := linked,
      threads := map[CREATE := Create(create), 1 := Start(sop, Creating, 1)])
  }

  lemma Finish()
    ensures Reachable(Finishing(CHooks, SUnlink, Creating, true))
  {
    PassToken();
    Reach(Meeting(UserProgram, 0, 1, SReading).(runs := 1), Op(1, Ok), Finishing(CHooks, SUnlink, Creating, true));
  }

  lemma RemoveFifo()
    ensures Reachable(Finishing(CHooks, SSave, Creating, false))
  {
    Finish();
    Reach(Finishing(CHooks, SUnlink, Creating, true), Op(1, Ok), Finishing(CHooks, SSave, Creating, false));
  }

  lemma Overtake()
    ensures Reachable(Finishing(CHooks, SSucceeded, Running, false))
  {
    RemoveFifo();
    Reach(Finishing(CHooks, SSave, Creating, false), Op(1, Ok), Finishing(CHooks, SSucceeded, Running, false));
  }

  lemma ReachLastSave()
    ensures Reachable(Finishing(CSave, SSucceeded, Running, false))
  {
    Overtake();
    Reach(Finishing(CHooks, SSucceeded, Running, false), Op(CREATE, Ok), Finishing(CSave, SSucceeded, Running, false));
  }

  lemma LastSave()
    ensures Next(Finishing(CSave, SSucceeded, Running, false), Op(CREATE, Ok),
                 Finishing(CDone, SSucceeded, Created, false))
  {}

  /** The status does move back in a run where a start finishes while create still runs its
      hooks: the container runs, and the state file says `created` again. */
  lemma StatusCanMoveBack()
    ensures exists s, s' :: Reachable(s) && Next(s, Op(CREATE, Ok), s') && MovesBack(s, s')
                            && s'.status == Some(Created) && s'.helper == UserProgram
  {
    ReachLastSave();
    LastSave();
    var s, s' := Finishing(CSave, SSucceeded, Running, false), Finishing(CDone, SSucceeded, Created, false);
    assert MovesBack(s, s');
  }
}
