/** Who waits for whom in the shim: no circular wait, and always someone who can step. */
module ShimDeadlock {
  import opened Shim
  import opened ShimInvariant

  predicate IsSend(pc: Pc) {
    || (pc.Exec? && pc.eop.ESend?) || (pc.Start? && pc.sop.SSend?) || (pc.Init? && pc.iop.ISend?)
    || (pc.Create? && pc.cop.CSend?) || (pc.Reap? && pc.rop.RSend?)
  }

  predicate QueueFull(s: State) { |s.log| - s.taken >= CAPACITY }

  /** t has given back every lock it no longer needs and now wants one that u owns. */
  predicate WaitsForLock(s: State, t: Tid, u: Tid) {
    && t in s.threads
    && Inner(s.threads[t]).Some?
    && HoldsExactly(s, t, Outer(s.threads[t]))
    && Inner(s.threads[t]).value in s.locks
    && s.locks[Inner(s.threads[t]).value] == u
  }

  predicate WaitsForQueue(s: State, t: Tid) {
    t in s.threads && IsSend(s.threads[t]) && HoldsExactly(s, t, Needs(s.threads[t])) && QueueFull(s)
  }

  /** What a thread waits for: nothing, the queue or a process lock, or one of the two big locks. */
  ghost function Level(s: State, t: Tid): nat {
    if exists u :: WaitsForLock(s, t, u) then
      (match Inner(s.threads[t]).value case ProcMu(_) => 1 case _ => 2)
    else if WaitsForQueue(s, t) then 1
    else 0
  }

  /** Nothing left to do for this thread until the environment acts. */
  predicate AtRest(s: State, t: Tid) {
    && t in s.threads
    && HoldsExactly(s, t, {})
    && (|| s.threads[t].Done?
        || (s.threads[t].Reap? && s.threads[t].rop.RIdle? && s.exits == [])
        || (s.threads[t].Wait? && s.threads[t].wop.WBlock? && s.threads[t].r < |s.procs|
            && s.procs[s.threads[t].r].closed == []))
  }

  /** t can acquire what it needs, give back what it does not need, or execute. */
  ghost predicate CanStep(s: State, t: Tid) {
    || (exists s' :: Next(s, Acquire(t), s'))
    || (exists l, s' :: t in s.threads && l !in Needs(s.threads[t]) && Next(s, Release(t, l), s'))
    || (exists c :: CanOp(s, t, c))
  }

  /** The lock order: eventSendMu and mu before a process lock or the queue. */
  lemma OuterIsInnermost(pc: Pc)
    ensures Outer(pc) != {} && Inner(pc).Some? ==> Inner(pc).value.ProcMu?
    ensures Outer(pc) <= {EventSendMu, Mu}
    ensures IsSend(pc) ==> EventSendMu in Needs(pc) && forall r :: ProcMu(r) !in Needs(pc)
  {}

  lemma WaitDescends(s: State, t: Tid, u: Tid)
    requires Well(s) && WaitsForLock(s, t, u)
    ensures u in s.threads && Level(s, u) < Level(s, t)
  {
    OuterIsInnermost(s.threads[t]);
    OuterIsInnermost(s.threads[u]);
  }

  /** No reachable state has threads that wait for each other in a circle. */
  lemma {:induction false} NoCircularWait(ss: seq<State>, steps: seq<Step>, n: nat, ts: seq<Tid>)
    requires IsRun(ss, steps) && n < |ss|
    requires 0 < |ts| && forall i | 0 <= i < |ts| - 1 :: WaitsForLock(ss[n], ts[i], ts[i + 1])
    ensures !WaitsForLock(ss[n], ts[|ts| - 1], ts[0])
  {
    RunWell(ss, steps, n);
    var s := ss[n];
    if WaitsForLock(s, ts[|ts| - 1], ts[0]) {
      WaitDescends(s, ts[|ts| - 1], ts[0]);
      ChainDescends(s, ts);
    }
  }

  lemma {:induction false} ChainDescends(s: State, ts: seq<Tid>)
    requires Well(s) && 0 < |ts| && forall i | 0 <= i < |ts| - 1 :: WaitsForLock(s, ts[i], ts[i + 1])
    ensures Level(s, ts[|ts| - 1]) <= Level(s, ts[0])
  {
    if 1 < |ts| {
      WaitDescends(s, ts[0], ts[1]);
      ChainDescends(s, ts[1..]);
    }
  }

  // ----- someone can always step -----

  /** A move is there, and only a full queue can be in its way. */
  predicate Ready(s: State, pc: Pc, m: Move) {
    m.Move? && (EffectOk(s, m.eff) || (IsSend(pc) && QueueFull(s)))
  }

  lemma HandlerReady(s: State, t: Tid, pc: Pc, c: Choice)
    requires ObjectsOk(s) && PcOk(s, t, pc) && (pc.Exec? || pc.Start? || pc.Delete?)
    ensures Ready(s, pc, Execute(s, pc, c))
  {
    match pc
    case Exec(_, _, _) => ExecReady(s, t, pc, c);
    case Start(_, _, _, _) => StartReady(s, t, pc, c);
    case Delete(_, _, _) => assert Execute(s, pc, c) == ExecuteDelete(s, pc, c);
  }

  lemma ExecReady(s: State, t: Tid, pc: Pc, c: Choice)
    requires ObjectsOk(s) && PcOk(s, t, pc) && pc.Exec?
    ensures Ready(s, pc, ExecuteExec(s, pc, c))
  {}

  lemma StartReady(s: State, t: Tid, pc: Pc, c: Choice)
    requires ObjectsOk(s) && PcOk(s, t, pc) && pc.Start?
    ensures Ready(s, pc, ExecuteStart(s, pc, c))
  {}

  lemma OtherReady(s: State, t: Tid, pc: Pc, c: Choice)
    requires ObjectsOk(s) && PcOk(s, t, pc) && (pc.Init? || pc.Peek? || pc.Create?)
    ensures Ready(s, pc, Execute(s, pc, c))
  {
    match pc
    case Init(_, _, _) => assert Execute(s, pc, c) == ExecuteInit(s, pc, c);
    case Peek(_, _, _) => assert Execute(s, pc, c) == ExecutePeek(s, pc, c);
    case Create(_, _) => assert Execute(s, pc, c) == ExecuteCreate(s, pc, c);
  }

  lemma WaitReady(s: State, t: Tid, pc: Pc, c: Choice)
    requires ObjectsOk(s) && PcOk(s, t, pc) && pc.Wait? && (pc.wop.WBlock? ==> s.procs[pc.r].closed != [])
    ensures Ready(s, pc, Execute(s, pc, c))
  {}

  lemma ReapReady(s: State, t: Tid, pc: Pc, c: Choice)
    requires ObjectsOk(s) && PcOk(s, t, pc) && pc.Reap? && (pc.rop.RIdle? ==> s.exits != [])
    requires pc.rop.RScan? && pc.todo != {} ==> c.Pick? && c.x in pc.todo && c.x in s.aux
    ensures Ready(s, pc, ExecuteReap(s, pc, c))
  {}

  /** The iteration order picks some exec id that is left. */
  lemma Picks(s: State, pc: Pc) returns (c: Choice)
    requires pc.Reap? && pc.rop.RScan? ==> pc.todo <= s.aux.Keys
    ensures pc.Reap? && pc.rop.RScan? && pc.todo != {} ==> c.Pick? && c.x in pc.todo && c.x in s.aux
  {
    c := Succeed(1);
    if pc.Reap? && pc.rop.RScan? && pc.todo != {} {
      var x :| x in pc.todo;
      c := Pick(x);
    }
  }

  /** A thread with all its locks can execute its program point, unless it is at
      rest or would send into a full queue. */
  lemma OpEnabled(s: State, t: Tid) returns (c: Choice)
    requires Well(s) && ScanOk(s) && t in s.threads && HoldsExactly(s, t, Needs(s.threads[t]))
    requires !AtRest(s, t) && !WaitsForQueue(s, t)
    ensures CanOp(s, t, c)
  {
    var pc := s.threads[t];
    assert PcOk(s, t, pc);
    c := Picks(s, pc);
    if pc.Reap? {
      ReapReady(s, t, pc, c);
    } else if pc.Wait? {
      WaitReady(s, t, pc, c);
    } else if pc.Exec? || pc.Start? || pc.Delete? {
      HandlerReady(s, t, pc, c);
    } else if pc.Init? || pc.Peek? || pc.Create? {
      OtherReady(s, t, pc, c);
    }
  }

  /** Every thread is at rest, can step, or waits for a lock or for queue room. */
  lemma ThreadProgress(s: State, t: Tid)
    requires Well(s) && ScanOk(s) && t in s.threads
    ensures AtRest(s, t) || CanStep(s, t) || WaitsForQueue(s, t) || exists u :: WaitsForLock(s, t, u)
  {
    var pc := s.threads[t];
    if l :| l in s.locks && s.locks[l] == t && l !in Needs(pc) {
      assert Next(s, Release(t, l), s.(locks := s.locks - {l}));
    } else if HoldsExactly(s, t, Needs(pc)) {
      if !AtRest(s, t) && !WaitsForQueue(s, t) { var c := OpEnabled(s, t); }
    } else {
      assert forall l | l in Outer(pc) :: l in s.locks && s.locks[l] == t;
      assert Inner(pc).Some? && HoldsExactly(s, t, Outer(pc));
      var l := Inner(pc).value;
      if l in s.locks {
        assert WaitsForLock(s, t, s.locks[l]);
      } else {
        assert Next(s, Acquire(t), s.(locks := s.locks[l := t]));
      }
    }
  }

  /** Whoever t waits for can step, or waits for queue room, which the forwarder
      makes, or waits for a third thread that can step. */
  lemma {:induction false} BlockedByRunnable(ss: seq<State>, steps: seq<Step>, n: nat, t: Tid, u: Tid)
    requires IsRun(ss, steps) && n < |ss| && WaitsForLock(ss[n], t, u)
    ensures || CanStep(ss[n], u)
            || (WaitsForQueue(ss[n], u) && Next(ss[n], Forward, ss[n].(taken := ss[n].taken + 1)))
            || exists v :: WaitsForLock(ss[n], u, v) && CanStep(ss[n], v)
  {
    RunWell(ss, steps, n);
    RunScanOk(ss, steps, n);
    var s := ss[n];
    WaitDescends(s, t, u);
    ThreadProgress(s, u);
    if v :| WaitsForLock(s, u, v) {
      WaitDescends(s, u, v);
      ThreadProgress(s, v);
    }
  }
}
