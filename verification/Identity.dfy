/** The persisted pod id is always one that the provider has had. */
module Identity {
  import opened Wrappers
  import opened Lifecycle
  import Frames

  /** Between a replacement's create and the write of its id. */
  predicate InReplacementGap(pc: Pc) {
    pc.RepRead? || pc.RepKeygen? || pc.RepUnlink? || pc.RepWriteId?
  }

  /** The id that the body is about to persist. */
  function Writes(pc: Pc): Option<PodId> {
    if pc.SelWriteId? then Some(pc.pod.id)
    else if pc.UpWriteId? then Some(pc.id)
    else if InReplacementGap(pc) then Some(pc.newId)
    else None
  }

  /** The persisted id is one that the provider has had. */
  ghost predicate KnownId(w: World) {
    w.disk.podId.Some? ==> w.disk.podId.value in w.pods
  }

  ghost predicate IdsAt(w: World, pc: Pc) {
    KnownId(w) && (Writes(pc).Some? ==> Writes(pc).value in w.pods)
  }

  /** Ids are only ever persisted that were reported or made before. */
  ghost predicate KeepsIds(w: World, pc: Pc, n: Next) {
    n.Then? ==>
      && (n.w.disk.podId == w.disk.podId || n.w.disk.podId.None? || n.w.disk.podId == Writes(pc))
      && (Writes(n.pc).Some? ==> Writes(n.pc) == Writes(pc) || Writes(n.pc).value in n.w.pods)
  }

  lemma SelectIds(w: World, cmd: Command, pc: Pc, c: Choice)
    requires InSelect(pc)
    ensures KeepsIds(w, pc, SelectStep(w, cmd, pc, c))
  {
  }

  lemma AdoptIds(w: World, cmd: Command, pc: Pc, c: Choice)
    requires InAdopt(pc)
    ensures KeepsIds(w, pc, AdoptStep(w, cmd, pc, c))
  {
  }

  lemma ForgetIds(w: World, cmd: Command, pc: Pc, c: Choice)
    requires InForget(pc)
    ensures KeepsIds(w, pc, ForgetStep(w, cmd, pc, c))
  {
  }

  lemma CreateIds(w: World, cmd: Command, pc: Pc, c: Choice)
    requires InCreate(pc)
    ensures KeepsIds(w, pc, CreateStep(w, cmd, pc, c))
  {
  }

  lemma ReuseIds(w: World, cmd: Command, pc: Pc, c: Choice)
    requires InReuse(pc)
    ensures KeepsIds(w, pc, ReuseStep(w, cmd, pc, c))
  {
  }

  lemma ReplaceIds(w: World, cmd: Command, pc: Pc, c: Choice)
    requires InReplace(pc)
    ensures KeepsIds(w, pc, ReplaceStep(w, cmd, pc, c))
  {
  }

  lemma PrepareIds(w: World, cmd: Command, pc: Pc, c: Choice)
    requires InPrepare(pc)
    ensures KeepsIds(w, pc, PrepareStep(w, cmd, pc, c))
  {
  }

  lemma ConnectIds(w: World, cmd: Command, pc: Pc, c: Choice)
    requires InConnect(pc)
    ensures KeepsIds(w, pc, ConnectStep(w, cmd, pc, c))
  {
  }

  lemma FinishIds(w: World, cmd: Command, pc: Pc, c: Choice)
    requires InFinish(pc)
    ensures KeepsIds(w, pc, FinishStep(w, cmd, pc, c))
  {
  }

  lemma BodyIds(w: World, cmd: Command, pc: Pc, c: Choice)
    ensures KeepsIds(w, pc, BodyStep(w, cmd, pc, c))
  {
    if InSelect(pc) {
      SelectIds(w, cmd, pc, c);
      assert BodyStep(w, cmd, pc, c) == SelectStep(w, cmd, pc, c);
    } else if InAdopt(pc) {
      AdoptIds(w, cmd, pc, c);
      assert BodyStep(w, cmd, pc, c) == AdoptStep(w, cmd, pc, c);
    } else if InForget(pc) {
      ForgetIds(w, cmd, pc, c);
      assert BodyStep(w, cmd, pc, c) == ForgetStep(w, cmd, pc, c);
    } else if InCreate(pc) {
      CreateIds(w, cmd, pc, c);
      assert BodyStep(w, cmd, pc, c) == CreateStep(w, cmd, pc, c);
    } else if InReuse(pc) {
      ReuseIds(w, cmd, pc, c);
      assert BodyStep(w, cmd, pc, c) == ReuseStep(w, cmd, pc, c);
    } else if InReplace(pc) {
      ReplaceIds(w, cmd, pc, c);
      assert BodyStep(w, cmd, pc, c) == ReplaceStep(w, cmd, pc, c);
    } else if InPrepare(pc) {
      PrepareIds(w, cmd, pc, c);
      assert BodyStep(w, cmd, pc, c) == PrepareStep(w, cmd, pc, c);
    } else if InConnect(pc) {
      ConnectIds(w, cmd, pc, c);
      assert BodyStep(w, cmd, pc, c) == ConnectStep(w, cmd, pc, c);
    } else if InFinish(pc) {
      FinishIds(w, cmd, pc, c);
      assert BodyStep(w, cmd, pc, c) == FinishStep(w, cmd, pc, c);
    }
  }

  ghost predicate ForgetsNoPod(w: World, n: Next) {
    n.Then? ==> forall id <- w.pods :: id in n.w.pods
  }

  lemma RequestsForgetNoPod(w: World, cmd: Command, pc: Pc, c: Choice)
    requires Frames.RequestsChange(pc)
    ensures ForgetsNoPod(w, BodyStep(w, cmd, pc, c))
  {
    if pc.UpCreate? {
      assert BodyStep(w, cmd, pc, c) == CreateStep(w, cmd, pc, c);
    } else if pc.DownStop? {
      assert BodyStep(w, cmd, pc, c) == FinishStep(w, cmd, pc, c);
    } else {
      assert BodyStep(w, cmd, pc, c) == ReuseStep(w, cmd, pc, c);
    }
  }

  lemma BodyKeepsIds(w: World, cmd: Command, pc: Pc, c: Choice)
    requires IdsAt(w, pc)
    ensures var n := BodyStep(w, cmd, pc, c); n.Then? ==> IdsAt(n.w, n.pc)
  {
    BodyIds(w, cmd, pc, c);
    if Frames.RequestsChange(pc) {
      RequestsForgetNoPod(w, cmd, pc, c);
    } else {
      Frames.OthersQuiet(w, cmd, pc, c);
    }
  }

  ghost predicate IdsIn(s: SState) {
    if s.cur.Some? then IdsAt(s.world, s.cur.value.pc) else KnownId(s.world)
  }

  lemma {:induction false} RunKeepsIds(s: SState, acts: seq<SAction>)
    requires Fresh(s) && SRun(s, acts).Some?
    ensures IdsIn(SRun(s, acts).value)
  {
    if acts != [] {
      var init, a := acts[..|acts| - 1], acts[|acts| - 1];
      RunKeepsIds(s, init);
      var t := SRun(s, init).value;
      if a.Move? {
        BodyKeepsIds(t.world, t.cur.value.cmd, t.cur.value.pc, a.c);
      }
    }
  }
}
