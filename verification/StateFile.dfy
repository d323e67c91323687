/** The state directory of one container id at inode level: any number of `Save`,
    `Load`, create and delete commands interleave, one file operation at a time.
    A directory name maps to an inode; a reader keeps the inode it opened. */
module StateFile {
  import opened Wrappers
  import opened RunjState
  import opened Binary

  type Ino = nat
  type Tid = nat

  datatype Name = StateJson | Temp(n: nat)

  /** The JSON encoding, as a parameter: nothing is assumed of the decoder on a
      document that was cut short. */
  datatype Codec = Codec(enc: Record -> Bytes, dec: Bytes -> Option<Record>)

  ghost predicate CodecOk(k: Codec) {
    && k.dec([]) == None
    && forall v :: k.dec(k.enc(v)) == Some(v)
  }

  /** Who called Save: state.Create, the end of create, or start, state and kill. */
  datatype Caller = Initializing | Finalizing | Updating

  datatype Pc =
    // Save
    | SaveTemp(v: Record, who: Caller) | SaveWrite(v: Record, who: Caller, ino: Ino)
    | SaveRename(v: Record, who: Caller, ino: Ino) | SaveUnlink(who: Caller, ino: Ino)
    // Load
    | LoadOpen | LoadRead(ino: Ino, buf: Bytes) | Loaded(result: Option<Record>)
    // create: MkdirAll, OpenFile with O_EXCL, Save, the rest of the command, Save or Remove
    | CreateMkdir(v: Record) | CreateOpen(v: Record) | CreateBody | CreateRemove
    // delete
    | DeleteRemove
    | Done(ok: bool)

  /** `saved` holds the states handed to Save so far, `owner` the create that
      made the present state.json, `ended` the creates whose state is gone again. */
  datatype State = State(
    dir: bool, names: map<Name, Ino>, inodes: seq<Bytes>, threads: map<Tid, Pc>,
    saved: set<Record>, owner: Option<Tid>, ended: set<Tid>)

  const INITIAL := State(false, map[], [], map[], {}, None, {})

  datatype Choice = Ok | Fail | Count(n: nat) | Value(v: Record)

  datatype Step = Arrive(t: Tid, pc: Pc) | Op(t: Tid, c: Choice)

  predicate Entry(pc: Pc) {
    || pc.LoadOpen? || pc.CreateMkdir? || pc.DeleteRemove?
    || (pc.SaveTemp? && pc.who.Updating?)
  }

  function Removed(s: State): State {
    s.(dir := false, names := map[], owner := None,
       ended := s.ended + match s.owner case None => {} case Some(t) => {t})
  }

  /** After Save returned to its caller. */
  function Resume(who: Caller, ok: bool): Pc {
    if ok && who.Initializing? then CreateBody else Done(ok)
  }

  /** One file operation: the state it leaves, apart from the thread, and the thread's next point. */
  function Execute(k: Codec, s: State, t: Tid, pc: Pc, c: Choice): Option<(State, Pc)> {
    match pc
    case SaveTemp(v, who) =>
      if !s.dir || c.Fail? then Some((s, Resume(who, false)))
      else
        var ino := |s.inodes|;
        Some((s.(inodes := s.inodes + [[]], names := s.names[Temp(ino) := ino], saved := s.saved + {v}),
              SaveWrite(v, who, ino)))
    case SaveWrite(v, who, ino) =>
      if ino >= |s.inodes| then None
      else
        var written := s.inodes[ino];
        var doc := k.enc(v);
        if c.Fail? then Some((s, SaveUnlink(who, ino)))
        else if written == doc then Some((s, SaveRename(v, who, ino)))
        else if c.Count? && 0 < c.n <= |doc| - |written|
        then Some((s.(inodes := s.inodes[ino := written + doc[|written|..|written| + c.n]]), pc))
        else None
    case SaveUnlink(who, ino) => Some((s.(names := s.names - {Temp(ino)}), Resume(who, false)))
    case SaveRename(v, who, ino) =>
      // the error of rename is ignored
      if Temp(ino) in s.names && !c.Fail?
      then Some((s.(names := (s.names - {Temp(ino)})[StateJson := s.names[Temp(ino)]]), Resume(who, true)))
      else Some((s, Resume(who, true)))
    case LoadOpen =>
      if StateJson in s.names && !c.Fail? then Some((s, LoadRead(s.names[StateJson], [])))
      else Some((s, Loaded(None)))
    case LoadRead(ino, buf) =>
      if ino >= |s.inodes| then None
      else
        var content := s.inodes[ino];
        if c.Fail? then Some((s, Loaded(None)))
        else if |buf| >= |content| then Some((s, Loaded(k.dec(buf))))
        else if c.Count? && 0 < c.n <= |content| - |buf|
        then Some((s, LoadRead(ino, buf + content[|buf|..|buf| + c.n])))
        else None
    case CreateMkdir(v) =>
      if c.Fail? then Some((s, Done(false))) else Some((s.(dir := true), CreateOpen(v)))
    case CreateOpen(v) =>
      if !s.dir || StateJson in s.names || c.Fail? then Some((s, Done(false)))
      else Some((s.(inodes := s.inodes + [[]], names := s.names[StateJson := |s.inodes|], owner := Some(t)),
                 SaveTemp(v, Initializing)))
    case CreateBody => if c.Value? then Some((s, SaveTemp(c.v, Finalizing))) else Some((s, CreateRemove))
    case CreateRemove => Some((Removed(s), Done(false)))
    case DeleteRemove => Some((Removed(s), Done(true)))
    case Loaded(_) => None
    case Done(_) => None
  }

  predicate Next(k: Codec, s: State, step: Step, s': State) {
    match step
    case Arrive(t, pc) => t !in s.threads && Entry(pc) && s' == s.(threads := s.threads[t := pc])
    case Op(t, c) =>
      && t in s.threads
      && var r := Execute(k, s, t, s.threads[t], c);
         r.Some? && s' == r.value.0.(threads := s.threads[t := r.value.1])
  }

  predicate IsRun(k: Codec, ss: seq<State>, steps: seq<Step>) {
    && |ss| == |steps| + 1 && ss[0] == INITIAL
    && forall i | 0 <= i < |steps| :: Next(k, ss[i], steps[i], ss[i + 1])
  }

  // ----- contents -----

  predicate Saving(pc: Pc) { pc.SaveWrite? || pc.SaveRename? || pc.SaveUnlink? }

  /** An inode nobody writes any more, holding nothing or a whole saved document. */
  predicate Sealed(k: Codec, s: State, ino: Ino) {
    && ino < |s.inodes|
    && (forall t | t in s.threads && Saving(s.threads[t]) :: s.threads[t].ino != ino)
    && Whole(k, s.saved, s.inodes[ino])
  }

  predicate Whole(k: Codec, saved: set<Record>, content: Bytes) {
    content == [] || exists v :: v in saved && content == k.enc(v)
  }

  predicate PcOk(k: Codec, s: State, pc: Pc) {
    match pc
    case SaveWrite(v, _, ino) => ino < |s.inodes| && v in s.saved && s.inodes[ino] <= k.enc(v)
    case SaveRename(v, _, ino) => ino < |s.inodes| && v in s.saved && s.inodes[ino] == k.enc(v)
    case SaveUnlink(_, ino) => ino < |s.inodes|
    case LoadRead(ino, buf) => Sealed(k, s, ino) && buf <= s.inodes[ino]
    case Loaded(r) => r.None? || r.value in s.saved
    case _ => true
  }

  ghost predicate FilesOk(k: Codec, s: State) {
    && (StateJson in s.names ==> Sealed(k, s, s.names[StateJson]))
    && (forall n: nat | Temp(n) in s.names :: s.names[Temp(n)] == n < |s.inodes|)
    && (forall t | t in s.threads :: PcOk(k, s, s.threads[t]))
    && (forall t, u | t in s.threads && u in s.threads && Saving(s.threads[t]) && Saving(s.threads[u])
                      && s.threads[t].ino == s.threads[u].ino :: t == u)
  }

  lemma SealedStays(k: Codec, s: State, t: Tid, c: Choice, s': State, ino: Ino)
    requires FilesOk(k, s) && Next(k, s, Op(t, c), s') && Sealed(k, s, ino)
    ensures Sealed(k, s', ino) && s'.inodes[ino] == s.inodes[ino]
  {
    OpContents(k, s, t, c, s', ino);
    assert s'.threads == s.threads[t := s'.threads[t]];
  }

  /** Contents change only through the thread that is writing them; a new writer has a new inode. */
  lemma OpContents(k: Codec, s: State, t: Tid, c: Choice, s': State, ino: Ino)
    requires Next(k, s, Op(t, c), s') && ino < |s.inodes|
    ensures |s.inodes| <= |s'.inodes| && s.saved <= s'.saved
    ensures Saving(s'.threads[t]) && s'.threads[t].ino == ino ==> Saving(s.threads[t]) && s.threads[t].ino == ino
    ensures s'.inodes[ino] == s.inodes[ino] || (s.threads[t].SaveWrite? && s.threads[t].ino == ino)
    ensures s'.threads == s.threads[t := s'.threads[t]]
  {}

  /** The renamed file is complete and its writer is done with it. */
  lemma RenameSeals(k: Codec, s: State, t: Tid, c: Choice, s': State)
    requires FilesOk(k, s) && Next(k, s, Op(t, c), s') && s.threads[t].SaveRename?
    ensures Sealed(k, s', s.threads[t].ino)
  {
    assert PcOk(k, s, s.threads[t]);
    assert s'.inodes[s.threads[t].ino] == k.enc(s.threads[t].v);
  }

  lemma DecodeWhole(k: Codec, saved: set<Record>, content: Bytes)
    requires CodecOk(k) && Whole(k, saved, content)
    ensures k.dec(content).None? || k.dec(content).value in saved
  {
    if content != [] {
      var v :| v in saved && content == k.enc(v);
      assert k.dec(k.enc(v)) == Some(v);
    }
  }

  lemma OwnPcOk(k: Codec, s: State, t: Tid, c: Choice, s': State)
    requires CodecOk(k) && FilesOk(k, s) && Next(k, s, Op(t, c), s')
    ensures PcOk(k, s', s'.threads[t])
  {
    var pc := s.threads[t];
    assert PcOk(k, s, pc);
    if pc.LoadRead? || pc.LoadOpen? { OwnLoadOk(k, s, t, c, s'); } else { OwnSaveOk(k, s, t, c, s'); }
  }

  lemma OwnLoadOk(k: Codec, s: State, t: Tid, c: Choice, s': State)
    requires CodecOk(k) && FilesOk(k, s) && Next(k, s, Op(t, c), s')
    requires s.threads[t].LoadRead? || s.threads[t].LoadOpen?
    ensures PcOk(k, s', s'.threads[t])
  {
    var pc := s.threads[t];
    assert PcOk(k, s, pc);
    if pc.LoadRead? {
      SealedStays(k, s, t, c, s', pc.ino);
      DecodeWhole(k, s.saved, s.inodes[pc.ino]);
      if |pc.buf| == |s.inodes[pc.ino]| { assert pc.buf == s.inodes[pc.ino]; }
    } else if StateJson in s.names {
      SealedStays(k, s, t, c, s', s.names[StateJson]);
    }
  }

  lemma OwnSaveOk(k: Codec, s: State, t: Tid, c: Choice, s': State)
    requires Next(k, s, Op(t, c), s') && PcOk(k, s, s.threads[t])
    requires !s.threads[t].LoadRead? && !s.threads[t].LoadOpen?
    ensures PcOk(k, s', s'.threads[t])
  {}

  lemma OtherPcOk(k: Codec, s: State, t: Tid, c: Choice, s': State, u: Tid)
    requires FilesOk(k, s) && Next(k, s, Op(t, c), s') && u in s.threads && u != t
    ensures PcOk(k, s', s.threads[u])
  {
    var pc := s.threads[u];
    assert PcOk(k, s, pc);
    if pc.LoadRead? {
      SealedStays(k, s, t, c, s', pc.ino);
    } else if Saving(pc) {
      OpContents(k, s, t, c, s', pc.ino);
    } else if |s.inodes| > 0 {
      OpContents(k, s, t, c, s', 0);
    }
  }

  lemma OpTempsOk(k: Codec, s: State, t: Tid, c: Choice, s': State)
    requires FilesOk(k, s) && Next(k, s, Op(t, c), s')
    ensures forall n: nat | Temp(n) in s'.names :: s'.names[Temp(n)] == n < |s'.inodes|
  {}

  lemma OpNamesOk(k: Codec, s: State, t: Tid, c: Choice, s': State)
    requires FilesOk(k, s) && Next(k, s, Op(t, c), s')
    ensures StateJson in s'.names ==> Sealed(k, s', s'.names[StateJson])
  {
    if StateJson in s'.names {
      JsonSource(k, s, t, c, s');
      if StateJson in s.names && s'.names[StateJson] == s.names[StateJson] {
        SealedStays(k, s, t, c, s', s.names[StateJson]);
      } else if s.threads[t].SaveRename? {
        RenameSeals(k, s, t, c, s');
      } else {
        NewFileSealed(k, s, t, c, s');
      }
    }
  }

  /** Where state.json may come from: it was there, it is renamed, or it is new and empty. */
  lemma JsonSource(k: Codec, s: State, t: Tid, c: Choice, s': State)
    requires Next(k, s, Op(t, c), s') && StateJson in s'.names
    requires forall n: nat | Temp(n) in s.names :: s.names[Temp(n)] == n < |s.inodes|
    ensures || (StateJson in s.names && s'.names[StateJson] == s.names[StateJson])
            || (s.threads[t].SaveRename? && s'.names[StateJson] == s.threads[t].ino)
            || (s.threads[t].CreateOpen? && s'.names[StateJson] == |s.inodes|)
  {}

  lemma NewFileSealed(k: Codec, s: State, t: Tid, c: Choice, s': State)
    requires FilesOk(k, s) && Next(k, s, Op(t, c), s') && s.threads[t].CreateOpen?
    requires StateJson in s'.names && s'.names[StateJson] == |s.inodes| && StateJson !in s.names
    ensures Sealed(k, s', |s.inodes|)
  {
    forall u | u in s.threads && Saving(s.threads[u]) ensures s.threads[u].ino < |s.inodes| {
      assert PcOk(k, s, s.threads[u]);
    }
  }

  lemma OpWritersApart(k: Codec, s: State, t: Tid, c: Choice, s': State)
    requires FilesOk(k, s) && Next(k, s, Op(t, c), s')
    ensures Saving(s'.threads[t]) ==>
              forall u | u in s.threads && u != t && Saving(s.threads[u]) :: s.threads[u].ino != s'.threads[t].ino
  {
    forall u | u in s.threads && u != t && Saving(s.threads[u]) && Saving(s'.threads[t])
      ensures s.threads[u].ino != s'.threads[t].ino
    {
      var ino := s.threads[u].ino;
      assert PcOk(k, s, s.threads[u]);
      OpContents(k, s, t, c, s', ino);
    }
  }

  lemma OpFilesOk(k: Codec, s: State, t: Tid, c: Choice, s': State)
    requires CodecOk(k) && FilesOk(k, s) && Next(k, s, Op(t, c), s')
    ensures FilesOk(k, s')
  {
    OwnPcOk(k, s, t, c, s');
    OpNamesOk(k, s, t, c, s');
    OpTempsOk(k, s, t, c, s');
    OpWritersApart(k, s, t, c, s');
    var next := s'.threads[t];
    assert s'.threads == s.threads[t := next];
    forall u | u in s'.threads ensures PcOk(k, s', s'.threads[u]) {
      if u != t { OtherPcOk(k, s, t, c, s', u); }
    }
  }

  lemma {:induction false} RunFilesOk(k: Codec, ss: seq<State>, steps: seq<Step>, n: nat)
    requires CodecOk(k) && IsRun(k, ss, steps) && n < |ss|
    ensures FilesOk(k, ss[n])
  {
    if n > 0 {
      RunFilesOk(k, ss, steps, n - 1);
      assert Next(k, ss[n - 1], steps[n - 1], ss[n]);
      match steps[n - 1]
      case Op(t, c) => OpFilesOk(k, ss[n - 1], t, c, ss[n]);
      case Arrive(t, pc) =>
        forall u | u in ss[n].threads ensures PcOk(k, ss[n], ss[n].threads[u]) {
          if u != t { assert PcOk(k, ss[n - 1], ss[n - 1].threads[u]); }
        }
    }
  }

  /** state.json, whenever it exists, names an empty or a completely written file. */
  lemma StateJsonIsWhole(k: Codec, ss: seq<State>, steps: seq<Step>, n: nat)
    requires CodecOk(k) && IsRun(k, ss, steps) && n < |ss| && StateJson in ss[n].names
    ensures ss[n].names[StateJson] < |ss[n].inodes|
    ensures Whole(k, ss[n].saved, ss[n].inodes[ss[n].names[StateJson]])
  {
    RunFilesOk(k, ss, steps, n);
  }

  /** Load fails or returns a complete state that some Save was given. */
  lemma LoadReturnsASavedState(k: Codec, ss: seq<State>, steps: seq<Step>, n: nat, t: Tid)
    requires CodecOk(k) && IsRun(k, ss, steps) && n < |ss|
    requires t in ss[n].threads && ss[n].threads[t].Loaded?
    ensures ss[n].threads[t].result.None? || ss[n].threads[t].result.value in ss[n].saved
  {
    RunFilesOk(k, ss, steps, n);
    assert PcOk(k, ss[n], ss[n].threads[t]);
  }

  // ----- who owns the id -----

  /** A create that has passed O_EXCL and still runs. */
  predicate Won(pc: Pc) {
    match pc
    case SaveTemp(_, who) => !who.Updating?
    case SaveWrite(_, who, _) => !who.Updating?
    case SaveRename(_, who, _) => !who.Updating?
    case SaveUnlink(who, _) => !who.Updating?
    case CreateBody | CreateRemove => true
    case _ => false
  }

  predicate Racing(pc: Pc) { pc.CreateMkdir? || pc.CreateOpen? }

  ghost predicate OwnerOk(s: State) {
    && (s.owner.Some? ==>
          && StateJson in s.names && s.owner.value in s.threads && !Racing(s.threads[s.owner.value])
          && s.owner.value !in s.ended)
    && (forall t | t in s.ended :: t in s.threads && !Racing(s.threads[t]))
    && (forall t | t in s.threads && Won(s.threads[t]) :: s.owner == Some(t) || t in s.ended)
  }

  /** Every operation but the making and the removing of state.json. */
  lemma OtherOwner(k: Codec, s: State, t: Tid, c: Choice, s': State)
    requires Next(k, s, Op(t, c), s') && !s.threads[t].CreateOpen? && !s.threads[t].CreateRemove?
    requires !s.threads[t].DeleteRemove?
    ensures s'.owner == s.owner && s'.ended == s.ended && (StateJson in s.names ==> StateJson in s'.names)
    ensures Won(s'.threads[t]) ==> Won(s.threads[t])
  {}

  /** What one file operation does to ownership. */
  lemma OpOwner(k: Codec, s: State, t: Tid, c: Choice, s': State)
    requires Next(k, s, Op(t, c), s')
    ensures !Racing(s'.threads[t]) || s.threads[t].CreateMkdir?
    ensures || (s.threads[t].CreateOpen? && StateJson !in s.names && StateJson in s'.names
                && s'.owner == Some(t) && s'.ended == s.ended)
            || ((s.threads[t].CreateRemove? || s.threads[t].DeleteRemove?) && s'.threads[t].Done?
                && s'.owner == None && s'.ended == s.ended + match s.owner case None => {} case Some(u) => {u})
            || (s'.owner == s.owner && s'.ended == s.ended && (StateJson in s.names ==> StateJson in s'.names)
                && (Won(s'.threads[t]) ==> Won(s.threads[t])))
  {
    var pc := s.threads[t];
    if !pc.CreateOpen? && !pc.CreateRemove? && !pc.DeleteRemove? { OtherOwner(k, s, t, c, s'); }
  }

  lemma NextOwnerOk(k: Codec, s: State, step: Step, s': State)
    requires OwnerOk(s) && Next(k, s, step, s')
    ensures OwnerOk(s')
  {
    if step.Op? { OpOwner(k, s, step.t, step.c, s'); }
  }

  lemma {:induction false} RunOwnerOk(k: Codec, ss: seq<State>, steps: seq<Step>, n: nat)
    requires IsRun(k, ss, steps) && n < |ss|
    ensures OwnerOk(ss[n])
  {
    if n > 0 {
      RunOwnerOk(k, ss, steps, n - 1);
      NextOwnerOk(k, ss[n - 1], steps[n - 1], ss[n]);
    }
  }

  /** A create becomes the owner only of an id that nobody owns: the previous owner's
      state was removed before. */
  lemma OneOwnerAtATime(k: Codec, ss: seq<State>, steps: seq<Step>, n: nat, t: Tid)
    requires IsRun(k, ss, steps) && n < |steps|
    requires ss[n + 1].owner == Some(t) && ss[n].owner != Some(t)
    ensures ss[n].owner == None && StateJson !in ss[n].names && ss[n].threads[t].CreateOpen?
  {
    RunOwnerOk(k, ss, steps, n);
    assert Next(k, ss[n], steps[n], ss[n + 1]);
  }

  /** Of the creates that are past O_EXCL and whose state has not been removed, there is at
      most one, and the state file is there for it. */
  lemma OneWinner(k: Codec, ss: seq<State>, steps: seq<Step>, n: nat, t: Tid, u: Tid)
    requires IsRun(k, ss, steps) && n < |ss| && t in ss[n].threads && u in ss[n].threads
    requires Won(ss[n].threads[t]) && t !in ss[n].ended && Won(ss[n].threads[u]) && u !in ss[n].ended
    ensures t == u && StateJson in ss[n].names && ss[n].owner == Some(t)
  {
    RunOwnerOk(k, ss, steps, n);
  }

  /** A create that removes the state directory removes its own state, unless that
      was removed before it; a create that lost never removes anything. */
  lemma CreateRemovesItsOwn(k: Codec, ss: seq<State>, steps: seq<Step>, n: nat, t: Tid)
    requires IsRun(k, ss, steps) && n < |ss|
    requires t in ss[n].threads && ss[n].threads[t].CreateRemove?
    ensures ss[n].owner == Some(t) <==> t !in ss[n].ended
  {
    RunOwnerOk(k, ss, steps, n);
  }

  predicate NoDelete(steps: seq<Step>) {
    forall i | 0 <= i < |steps| && steps[i].Arrive? :: !steps[i].pc.DeleteRemove?
  }

  predicate EndedByItself(s: State) {
    && (forall t | t in s.threads :: !s.threads[t].DeleteRemove?)
    && (forall t | t in s.ended :: t in s.threads && !Won(s.threads[t]) && !Racing(s.threads[t]))
  }

  /** Among creates alone, the one that removes the directory always owns it. */
  lemma {:induction false} OverlappingCreatesKeepTheWinner(k: Codec, ss: seq<State>, steps: seq<Step>, n: nat)
    requires IsRun(k, ss, steps) && n < |ss| && NoDelete(steps)
    ensures EndedByItself(ss[n])
    ensures forall t | t in ss[n].threads && ss[n].threads[t].CreateRemove? :: ss[n].owner == Some(t)
  {
    RunOwnerOk(k, ss, steps, n);
    if n > 0 {
      OverlappingCreatesKeepTheWinner(k, ss, steps, n - 1);
      RunOwnerOk(k, ss, steps, n - 1);
      NextEndedByItself(k, ss[n - 1], steps[n - 1], ss[n]);
    }
  }

  lemma NextEndedByItself(k: Codec, s: State, step: Step, s': State)
    requires OwnerOk(s) && EndedByItself(s) && Next(k, s, step, s')
    requires step.Arrive? ==> !step.pc.DeleteRemove?
    ensures EndedByItself(s')
  {
    if step.Op? {
      OpOwner(k, s, step.t, step.c, s');
      assert !s'.threads[step.t].DeleteRemove?;
    }
  }
}
