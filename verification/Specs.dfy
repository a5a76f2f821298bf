/**
 Agreement between the saved specification and the persisted pod: exactly where an interruption breaks
 it, and that a pod `up` reuses otherwise matches the current settings.
 */
module Specs {
  import opened Wrappers
  import opened Lifecycle
  import Binding
  import Identity
  import Numbers

  ghost predicate MadeBy(pods: Pods, id: PodId, f: Fingerprint) {
    id in pods && pods[id].origin == Ours(f)
  }

  /** A saved fingerprint is the one the persisted pod was created with. */
  ghost predicate Agrees(w: World) {
    w.disk.spec.Some? ==> w.disk.podId.Some? && MadeBy(w.pods, w.disk.podId.value, w.disk.spec.value)
  }

  /** The two points at which the id and the specification belong to different pods. */
  ghost predicate InGap(w: World, pc: Pc) {
    pc.RepWriteSpec? || (pc.SelForgetSpec? && w.disk.spec.Some?)
  }

  /** Nothing interrupts the second half of a replacement's two writes, or of the two removals. */
  ghost predicate CompletesPairs(w: World, pc: Pc, a: SAction) {
    && (a.Cut? || a == Move(Fail) ==> !InGap(w, pc))
    && (a == Move(FailAfter) ==> !pc.RepWriteId? && !pc.SelForgetId?)
  }

  /** Nobody else makes a pod of the wanted name between the lookup and the reconcile. */
  ghost predicate NoRival(cmd: Command, pc: Pc, a: SAction) {
    a.Env? && a.e.ForeignCreate? && (pc.UpCreate? || pc.UpReconcile?) ==> a.e.pod.name != cmd.cfg.podName
  }

  ghost predicate Undisturbed(s: SState, a: SAction) {
    s.cur.Some? ==> CompletesPairs(s.world, s.cur.value.pc, a) && NoRival(s.cur.value.cmd, s.cur.value.pc, a)
  }

  ghost predicate Differs(w: World, cmd: Command) {
    w.disk.spec.Some? && w.disk.spec.value != cmd.cfg.fingerprint
  }

  /** The pod this body is bringing up. */
  ghost function Target(pc: Pc): Option<PodId> {
    if pc.UpWriteId? || pc.UpWriteSpec? || pc.UpStart? || pc.UpPoll? || pc.PrepRead? || pc.PrepWrite? || InConnect(pc)
    then Some(pc.id)
    else if InReplace(pc) then Some(pc.newId)
    else if pc.PrepKeygen? then Some(pc.rec.podId)
    else if pc.ConfRead? && pc.ret.ToPoll? then Some(pc.ret.id)
    else None
  }

  ghost predicate SpecAt(w: World, cmd: Command, pc: Pc) {
    && (Agrees(w) <==> !InGap(w, pc))
    && (Target(pc).Some? ==> MadeBy(w.pods, Target(pc).value, cmd.cfg.fingerprint))
    && (InReplace(pc) || pc.RepStop? || pc.RepCreate? ==> Differs(w, cmd))
    && (pc.UpCreate? ==> NoneNamed(w.pods, cmd.cfg.podName))
    && (pc.UpReconcile? ==> forall id :: id in w.pods && Named(w.pods, cmd.cfg.podName, id)
                              ==> MadeBy(w.pods, id, cmd.cfg.fingerprint))
  }

  // ----- facts about single effects -----

  /** The id, the specification and the pods' origins are as they were. */
  ghost predicate SameIdentity(w: World, after: World) {
    after.disk.podId == w.disk.podId && after.disk.spec == w.disk.spec && after.pods == w.pods
  }

  lemma RaisedSpec(w: World, cmd: Command)
    ensures SpecAt(w, cmd, Raise(cmd)) <==> Agrees(w)
  {
  }

  /** The points that carry no obligation but the agreement and the target. */
  predicate Neutral(pc: Pc) {
    !InReplace(pc) && !pc.RepStop? && !pc.RepCreate? && !pc.UpCreate? && !pc.UpReconcile? && !pc.SelForgetSpec?
  }

  /** A step that leaves the identity alone and brings up no other pod. */
  lemma QuietSpec(w: World, after: World, cmd: Command, pc: Pc, next: Pc)
    requires SpecAt(w, cmd, pc) && !InGap(w, pc) && SameIdentity(w, after) && Neutral(next)
    requires Target(next).Some? ==> Target(next) == Target(pc)
    ensures SpecAt(after, cmd, next)
  {
  }

  /** What the steps that only read, or that change trust, lead to. */
  ghost predicate Quietly(w: World, pc: Pc, n: Next) {
    n.Then? ==> SameIdentity(w, n.w) && Neutral(n.pc) && (Target(n.pc).Some? ==> Target(n.pc) == Target(pc))
  }

  lemma SelectQuietly(w: World, cmd: Command, pc: Pc, c: Choice)
    requires InSelect(pc) && Binding.Coherent(w.disk, pc)
    ensures Quietly(w, pc, SelectStep(w, cmd, pc, c))
  {
  }

  lemma ForgetQuietly(w: World, cmd: Command, pc: Pc, c: Choice)
    requires InForget(pc) && Binding.Coherent(w.disk, pc)
    ensures Quietly(w, pc, ForgetStep(w, cmd, pc, c))
  {
  }

  lemma PrepareQuietly(w: World, cmd: Command, pc: Pc, c: Choice)
    requires InPrepare(pc)
    ensures Quietly(w, pc, PrepareStep(w, cmd, pc, c))
  {
  }

  lemma ConnectQuietly(w: World, cmd: Command, pc: Pc, c: Choice)
    requires InConnect(pc)
    ensures Quietly(w, pc, ConnectStep(w, cmd, pc, c))
  {
  }

  lemma ByQuietness(w: World, cmd: Command, pc: Pc, n: Next)
    requires SpecAt(w, cmd, pc) && !InGap(w, pc) && Quietly(w, pc, n)
    ensures n.Then? ==> SpecAt(n.w, cmd, n.pc)
  {
    if n.Then? {
      QuietSpec(w, n.w, cmd, pc, n.pc);
    }
  }

  /** One operation, by what it leads to when it takes effect and when it does not. */
  lemma OperationSpec(w: World, after: World, next: Pc, cmd: Command, c: Choice)
    requires c.Ok? ==> SpecAt(after, cmd, next)
    requires c.Fail? ==> Agrees(w)
    requires c.FailAfter? ==> Agrees(after)
    ensures var n := Operation(w, after, next, cmd, c); n.Then? ==> SpecAt(n.w, cmd, n.pc)
  {
    RaisedSpec(w, cmd);
    RaisedSpec(after, cmd);
  }

  // ----- forgetting and adopting -----

  lemma ForgetIdSpec(w: World, cmd: Command, c: Choice)
    requires SpecAt(w, cmd, SelForgetId) && !c.FailAfter?
    ensures var n := AdoptStep(w, cmd, SelForgetId, c); n.Then? ==> SpecAt(n.w, cmd, n.pc)
  {
    OperationSpec(w, WithId(w, None), SelForgetSpec, cmd, c);
  }

  lemma ForgetSpecSpec(w: World, cmd: Command, c: Choice)
    requires w.disk.podId.None? && (c.Fail? ==> w.disk.spec.None?)
    ensures var n := AdoptStep(w, cmd, SelForgetSpec, c); n.Then? ==> SpecAt(n.w, cmd, n.pc)
  {
    OperationSpec(w, WithSpec(w, None), SelFind, cmd, c);
  }

  lemma FindSpec(w: World, cmd: Command, c: Choice)
    requires Agrees(w)
    ensures var n := AdoptStep(w, cmd, SelFind, c); n.Then? ==> SpecAt(n.w, cmd, n.pc)
  {
    RaisedSpec(w, cmd);
  }

  lemma WriteIdSpec(w: World, cmd: Command, pod: Snapshot, c: Choice)
    requires w.disk.podId.None? && Agrees(w)
    ensures var n := AdoptStep(w, cmd, SelWriteId(pod), c); n.Then? ==> SpecAt(n.w, cmd, n.pc)
  {
    assert w.disk.spec.None?;
    OperationSpec(w, WithId(w, Some(pod.id)), Selected(cmd, Some(pod)), cmd, c);
  }

  lemma AdoptSpec(w: World, cmd: Command, pc: Pc, c: Choice)
    requires InAdopt(pc) && Binding.Coherent(w.disk, pc) && SpecAt(w, cmd, pc) && CompletesPairs(w, pc, Move(c))
    ensures var n := AdoptStep(w, cmd, pc, c); n.Then? ==> SpecAt(n.w, cmd, n.pc)
  {
    match pc
    case SelForgetId => ForgetIdSpec(w, cmd, c);
    case SelForgetSpec => ForgetSpecSpec(w, cmd, c);
    case SelFind => FindSpec(w, cmd, c);
    case SelWriteId(pod) => WriteIdSpec(w, cmd, pod, c);
  }

  // ----- creating -----

  /** A pod made from the settings of `cmd` is the only one of its name. */
  lemma CreateRequestSpec(w: World, cmd: Command, c: Choice)
    requires SpecAt(w, cmd, UpCreate)
    ensures var n := CreateStep(w, cmd, UpCreate, c); n.Then? ==> SpecAt(n.w, cmd, n.pc)
  {
    RaisedSpec(w, cmd);
    if (c.CreateOk? || c.CreateLost?) && c.id !in w.pods {
      var after := WithPod(w, c.id, cmd.cfg, None);
      assert Agrees(after);
      RaisedSpec(after, cmd);
    }
  }

  lemma ReconcileSpec(w: World, cmd: Command, c: Choice)
    requires SpecAt(w, cmd, UpReconcile)
    ensures var n := CreateStep(w, cmd, UpReconcile, c); n.Then? ==> SpecAt(n.w, cmd, n.pc)
  {
    RaisedSpec(w, cmd);
  }

  lemma SaveIdSpec(w: World, cmd: Command, id: PodId, c: Choice)
    requires SpecAt(w, cmd, UpWriteId(id)) && w.disk.podId.None?
    ensures var n := CreateStep(w, cmd, UpWriteId(id), c); n.Then? ==> SpecAt(n.w, cmd, n.pc)
  {
    assert w.disk.spec.None?;
    OperationSpec(w, WithId(w, Some(id)), UpWriteSpec(id), cmd, c);
  }

  lemma SaveSpecSpec(w: World, cmd: Command, id: PodId, c: Choice)
    requires SpecAt(w, cmd, UpWriteSpec(id)) && w.disk.podId == Some(id)
    ensures var n := CreateStep(w, cmd, UpWriteSpec(id), c); n.Then? ==> SpecAt(n.w, cmd, n.pc)
  {
    OperationSpec(w, WithSpec(w, Some(cmd.cfg.fingerprint)), ConfRead(id, ToPoll(id)), cmd, c);
  }

  lemma CreateSpec(w: World, cmd: Command, pc: Pc, c: Choice)
    requires InCreate(pc) && Binding.Coherent(w.disk, pc) && SpecAt(w, cmd, pc)
    ensures var n := CreateStep(w, cmd, pc, c); n.Then? ==> SpecAt(n.w, cmd, n.pc)
  {
    match pc
    case UpCreate => CreateRequestSpec(w, cmd, c);
    case UpReconcile => ReconcileSpec(w, cmd, c);
    case UpWriteId(id) => SaveIdSpec(w, cmd, id, c);
    case UpWriteSpec(id) => SaveSpecSpec(w, cmd, id, c);
  }

  // ----- reusing and replacing -----

  lemma ReadSpecSpec(w: World, cmd: Command, pod: Snapshot, c: Choice)
    requires w.disk.podId == Some(pod.id) && SpecAt(w, cmd, UpReadSpec(pod))
    ensures var n := ReadSpecStep(w, cmd, pod, c); n.Then? ==> SpecAt(n.w, cmd, n.pc)
  {
    RaisedSpec(w, cmd);
  }

  /** Stopping and starting change no pod's origin. */
  lemma StatusSpec(w: World, id: PodId, from: Status, to: Status)
    ensures Agrees(w.(pods := WithStatus(w.pods, id, from, to))) <==> Agrees(w)
    ensures forall p, f :: MadeBy(WithStatus(w.pods, id, from, to), p, f) <==> MadeBy(w.pods, p, f)
  {
  }

  lemma StartSpec(w: World, cmd: Command, id: PodId, c: Choice)
    requires SpecAt(w, cmd, UpStart(id))
    ensures var n := ReuseStep(w, cmd, UpStart(id), c); n.Then? ==> SpecAt(n.w, cmd, n.pc)
  {
    StatusSpec(w, id, Exited, Running);
    OperationSpec(w, w.(pods := WithStatus(w.pods, id, Exited, Running)), ConfRead(id, ToPoll(id)), cmd, c);
  }

  lemma StopSpec(w: World, cmd: Command, id: PodId, c: Choice)
    requires SpecAt(w, cmd, RepStop(id))
    ensures var n := ReuseStep(w, cmd, RepStop(id), c); n.Then? ==> SpecAt(n.w, cmd, n.pc)
  {
    StatusSpec(w, id, Running, Exited);
    OperationSpec(w, w.(pods := WithStatus(w.pods, id, Running, Exited)), RepCreate(id), cmd, c);
  }

  lemma ReplacementSpec(w: World, cmd: Command, id: PodId, c: Choice)
    requires SpecAt(w, cmd, RepCreate(id))
    ensures var n := ReuseStep(w, cmd, RepCreate(id), c); n.Then? ==> SpecAt(n.w, cmd, n.pc)
  {
    RaisedSpec(w, cmd);
    if (c.CreateOk? || c.CreateLost?) && c.id !in w.pods {
      var after := WithPod(w, c.id, cmd.cfg, Some(id));
      assert Agrees(after);
      RaisedSpec(after, cmd);
    }
  }

  lemma ReuseSpec(w: World, cmd: Command, pc: Pc, c: Choice)
    requires InReuse(pc) && Binding.Coherent(w.disk, pc) && SpecAt(w, cmd, pc)
    ensures var n := ReuseStep(w, cmd, pc, c); n.Then? ==> SpecAt(n.w, cmd, n.pc)
  {
    match pc
    case UpReadSpec(pod) => ReadSpecSpec(w, cmd, pod, c);
    case UpStart(id) => StartSpec(w, cmd, id, c);
    case RepStop(id) => StopSpec(w, cmd, id, c);
    case RepCreate(id) => ReplacementSpec(w, cmd, id, c);
  }

  /** Until the new id is written, a replacement leaves the identity alone. */
  lemma BeforeNewIdSpec(w: World, cmd: Command, pc: Pc, c: Choice)
    requires (pc.RepRead? || pc.RepKeygen? || pc.RepUnlink?) && SpecAt(w, cmd, pc)
    ensures var n := ReplaceStep(w, cmd, pc, c); n.Then? ==> SpecAt(n.w, cmd, n.pc)
  {
    RaisedSpec(w, cmd);
    var n := ReplaceStep(w, cmd, pc, c);
    assert n.Then? ==> SameIdentity(w, n.w);
    assert n.Then? ==> n.pc == Raise(cmd) || (InReplace(n.pc) && !n.pc.RepWriteSpec? && n.pc.newId == pc.newId);
  }

  lemma NewIdSpec(w: World, cmd: Command, newId: PodId, c: Choice)
    requires SpecAt(w, cmd, RepWriteId(newId)) && !c.FailAfter?
    ensures var n := ReplaceStep(w, cmd, RepWriteId(newId), c); n.Then? ==> SpecAt(n.w, cmd, n.pc)
  {
    OperationSpec(w, WithId(w, Some(newId)), RepWriteSpec(newId), cmd, c);
  }

  lemma NewSpecSpec(w: World, cmd: Command, newId: PodId, c: Choice)
    requires SpecAt(w, cmd, RepWriteSpec(newId)) && w.disk.podId == Some(newId) && !c.Fail?
    ensures var n := ReplaceStep(w, cmd, RepWriteSpec(newId), c); n.Then? ==> SpecAt(n.w, cmd, n.pc)
  {
    OperationSpec(w, WithSpec(w, Some(cmd.cfg.fingerprint)), ConfRead(newId, ToPoll(newId)), cmd, c);
  }

  lemma ReplaceSpec(w: World, cmd: Command, pc: Pc, c: Choice)
    requires InReplace(pc) && Binding.Coherent(w.disk, pc) && SpecAt(w, cmd, pc) && CompletesPairs(w, pc, Move(c))
    ensures var n := ReplaceStep(w, cmd, pc, c); n.Then? ==> SpecAt(n.w, cmd, n.pc)
  {
    match pc
    case RepWriteId(newId) => NewIdSpec(w, cmd, newId, c);
    case RepWriteSpec(newId) => NewSpecSpec(w, cmd, newId, c);
    case _ => BeforeNewIdSpec(w, cmd, pc, c);
  }

  // ----- `down` -----

  lemma FinishSpec(w: World, cmd: Command, pc: Pc, c: Choice)
    requires InFinish(pc) && SpecAt(w, cmd, pc)
    ensures var n := FinishStep(w, cmd, pc, c); n.Then? ==> SpecAt(n.w, cmd, n.pc)
  {
    match pc
    case DownStop(id) =>
      StatusSpec(w, id, Running, Exited);
      OperationSpec(w, w.(pods := WithStatus(w.pods, id, Running, Exited)), DownClean(false), cmd, c);
    case DownClean(_) =>
  }

  lemma BodySpec(w: World, cmd: Command, pc: Pc, c: Choice)
    requires Binding.InvAt(w, pc) && SpecAt(w, cmd, pc) && CompletesPairs(w, pc, Move(c))
    ensures var n := BodyStep(w, cmd, pc, c); n.Then? ==> SpecAt(n.w, cmd, n.pc)
  {
    if InSelect(pc) {
      SelectQuietly(w, cmd, pc, c);
      ByQuietness(w, cmd, pc, SelectStep(w, cmd, pc, c));
      assert BodyStep(w, cmd, pc, c) == SelectStep(w, cmd, pc, c);
    } else if InAdopt(pc) {
      AdoptSpec(w, cmd, pc, c);
      assert BodyStep(w, cmd, pc, c) == AdoptStep(w, cmd, pc, c);
    } else if InForget(pc) {
      ForgetQuietly(w, cmd, pc, c);
      ByQuietness(w, cmd, pc, ForgetStep(w, cmd, pc, c));
      assert BodyStep(w, cmd, pc, c) == ForgetStep(w, cmd, pc, c);
    } else if InCreate(pc) {
      CreateSpec(w, cmd, pc, c);
      assert BodyStep(w, cmd, pc, c) == CreateStep(w, cmd, pc, c);
    } else if InReuse(pc) {
      ReuseSpec(w, cmd, pc, c);
      assert BodyStep(w, cmd, pc, c) == ReuseStep(w, cmd, pc, c);
    } else if InReplace(pc) {
      ReplaceSpec(w, cmd, pc, c);
      assert BodyStep(w, cmd, pc, c) == ReplaceStep(w, cmd, pc, c);
    } else if InPrepare(pc) {
      PrepareQuietly(w, cmd, pc, c);
      ByQuietness(w, cmd, pc, PrepareStep(w, cmd, pc, c));
      assert BodyStep(w, cmd, pc, c) == PrepareStep(w, cmd, pc, c);
    } else if InConnect(pc) {
      ConnectQuietly(w, cmd, pc, c);
      ByQuietness(w, cmd, pc, ConnectStep(w, cmd, pc, c));
      assert BodyStep(w, cmd, pc, c) == ConnectStep(w, cmd, pc, c);
    } else if InFinish(pc) {
      FinishSpec(w, cmd, pc, c);
      assert BodyStep(w, cmd, pc, c) == FinishStep(w, cmd, pc, c);
    }
  }

  lemma EnvSpec(w: World, cmd: Command, pc: Pc, e: EnvAction)
    requires SpecAt(w, cmd, pc) && EnvEnabled(w.pods, e) && NoRival(cmd, pc, Env(e))
    ensures SpecAt(w.(pods := EnvStep(w.pods, e)), cmd, pc)
  {
    var pods := EnvStep(w.pods, e);
    assert forall id, f :: MadeBy(w.pods, id, f) <==> id in w.pods && MadeBy(pods, id, f);
  }

  ghost predicate SpecIn(s: SState) {
    if s.cur.Some? then SpecAt(s.world, s.cur.value.cmd, s.cur.value.pc) else Agrees(s.world)
  }

  lemma StepKeepsSpec(s: SState, a: SAction)
    requires Binding.Inv(s) && SpecIn(s) && Undisturbed(s, a) && SStep(s, a).Some?
    ensures SpecIn(SStep(s, a).value)
  {
    match a
    case Move(c) => BodySpec(s.world, s.cur.value.cmd, s.cur.value.pc, c);
    case Env(e) => if s.cur.Some? { EnvSpec(s.world, s.cur.value.cmd, s.cur.value.pc, e); }
    case _ =>
  }

  lemma {:induction false} RunKeepsSpec(s: SState, acts: seq<SAction>)
    requires Fresh(s) && SRun(s, acts).Some? && Along(s, acts, Undisturbed)
    ensures SpecIn(SRun(s, acts).value)
  {
    if acts != [] {
      var init, a := acts[..|acts| - 1], acts[|acts| - 1];
      RunKeepsSpec(s, init);
      Binding.RunKeepsInv(s, init);
      StepKeepsSpec(SRun(s, init).value, a);
    }
  }

  /**
   Along an undisturbed run the saved fingerprint is the one of the persisted pod, except exactly
   inside a replacement's two writes and inside the two removals.  So an interruption breaks the
   agreement there and nowhere else.
   */
  lemma AgreesExceptInGap(s: SState, acts: seq<SAction>)
    requires Fresh(s) && SRun(s, acts).Some? && Along(s, acts, Undisturbed)
    ensures var t := SRun(s, acts).value;
            Agrees(t.world) <==> !(t.cur.Some? && InGap(t.world, t.cur.value.pc))
  {
    RunKeepsSpec(s, acts);
  }

  /** A pod that `up` polls, connects to or launches on was created from the current settings. */
  lemma ReusedPodMatchesSettings(s: SState, acts: seq<SAction>, id: PodId)
    requires Fresh(s) && SRun(s, acts).Some? && Along(s, acts, Undisturbed)
    requires SRun(s, acts).value.cur.Some? && Target(SRun(s, acts).value.cur.value.pc) == Some(id)
    ensures var t := SRun(s, acts).value;
            id in t.world.pods && t.world.pods[id].origin == Ours(t.cur.value.cmd.cfg.fingerprint)
  {
    RunKeepsSpec(s, acts);
  }

  // ----- from which states only the process's own pods are brought up -----

  /** The persisted pod is gone, and the next body will find out and forget it. */
  ghost predicate Gone(w: World) {
    Identity.KnownId(w) && w.disk.podId.Some? && !Live(w.pods, w.disk.podId.value)
  }

  /** A body that has not forgotten the gone pod yet, or that failed or ended before it did. */
  ghost predicate GoneAt(w: World, pc: Pc) {
    && Gone(w)
    && (InSelect(pc) || (InForget(pc) && pc.ret.ToForgetId?) || pc.SelForgetId? || pc.DownClean? || pc.Ended?)
  }

  ghost predicate Settled(w: World) {
    Agrees(w) || Gone(w)
  }

  ghost predicate SettledIn(s: SState) {
    if s.cur.Some? then SpecIn(s) || GoneAt(s.world, s.cur.value.pc) else Settled(s.world)
  }

  lemma SelectGone(w: World, cmd: Command, pc: Pc, c: Choice)
    requires InSelect(pc) && GoneAt(w, pc) && Binding.Coherent(w.disk, pc)
    ensures var n := SelectStep(w, cmd, pc, c); n.Then? ==> GoneAt(n.w, n.pc)
  {
  }

  lemma ForgetGone(w: World, cmd: Command, pc: Pc, c: Choice)
    requires InForget(pc) && GoneAt(w, pc) && Binding.Coherent(w.disk, pc)
    ensures var n := ForgetStep(w, cmd, pc, c); n.Then? ==> GoneAt(n.w, n.pc)
  {
    ForgetQuietly(w, cmd, pc, c);
  }

  /** Forgetting the id of a gone pod leaves at most the gap before its specification is forgotten too. */
  lemma ForgetIdGone(w: World, cmd: Command, c: Choice)
    requires GoneAt(w, SelForgetId) && !c.FailAfter?
    ensures var n := AdoptStep(w, cmd, SelForgetId, c);
            n.Then? ==> SpecAt(n.w, cmd, n.pc) || GoneAt(n.w, n.pc)
  {
    if c.Ok? {
      var after := WithId(w, None);
      assert AdoptStep(w, cmd, SelForgetId, c) == Then(after, SelForgetSpec);
      assert Agrees(after) <==> after.disk.spec.None?;
    }
  }

  lemma BodyGone(w: World, cmd: Command, pc: Pc, c: Choice)
    requires GoneAt(w, pc) && Binding.InvAt(w, pc) && CompletesPairs(w, pc, Move(c))
    ensures var n := BodyStep(w, cmd, pc, c); n.Then? ==> SpecAt(n.w, cmd, n.pc) || GoneAt(n.w, n.pc)
  {
    if InSelect(pc) {
      SelectGone(w, cmd, pc, c);
      assert BodyStep(w, cmd, pc, c) == SelectStep(w, cmd, pc, c);
    } else if InForget(pc) {
      ForgetGone(w, cmd, pc, c);
      assert BodyStep(w, cmd, pc, c) == ForgetStep(w, cmd, pc, c);
    } else if pc.SelForgetId? {
      ForgetIdGone(w, cmd, c);
      assert BodyStep(w, cmd, pc, c) == AdoptStep(w, cmd, pc, c);
    } else if pc.DownClean? {
      assert BodyStep(w, cmd, pc, c) == FinishStep(w, cmd, pc, c);
    } else {
      assert BodyStep(w, cmd, pc, c) == Blocked;
    }
  }

  lemma EnvGone(w: World, e: EnvAction)
    requires EnvEnabled(w.pods, e)
    ensures var after := w.(pods := EnvStep(w.pods, e));
            (Gone(w) ==> Gone(after)) && (Agrees(w) ==> Agrees(after))
  {
  }

  lemma StepKeepsSettled(s: SState, a: SAction)
    requires Binding.Inv(s) && SettledIn(s) && Undisturbed(s, a) && SStep(s, a).Some?
    ensures SettledIn(SStep(s, a).value)
  {
    if s.cur.Some? && SpecIn(s) {
      StepKeepsSpec(s, a);
    } else {
      match a
      case Move(c) => BodyGone(s.world, s.cur.value.cmd, s.cur.value.pc, c);
      case Env(e) => EnvGone(s.world, e);
      case _ =>
    }
  }

  lemma {:induction false} RunKeepsSettled(s: SState, acts: seq<SAction>)
    requires Binding.Inv(s) && SettledIn(s) && SRun(s, acts).Some? && Along(s, acts, Undisturbed)
    ensures Binding.Inv(SRun(s, acts).value) && SettledIn(SRun(s, acts).value)
  {
    if acts != [] {
      var init, a := acts[..|acts| - 1], acts[|acts| - 1];
      RunKeepsSettled(s, init);
      StepKeepsSettled(SRun(s, init).value, a);
      Binding.StepKeepsInv(SRun(s, init).value, a);
    }
  }

  /** The pod that the body is bringing up, if any, was made with the body's own settings. */
  ghost predicate BringsUpOwn(t: SState) {
    t.cur.Some? && Target(t.cur.value.pc).Some? ==>
      MadeBy(t.world.pods, Target(t.cur.value.pc).value, t.cur.value.cmd.cfg.fingerprint)
  }

  ghost predicate StaysOwn(s: SState, acts: seq<SAction>) {
    SRun(s, acts).Some? && Along(s, acts, Undisturbed) ==> BringsUpOwn(SRun(s, acts).value)
  }

  // ----- and from which not -----

  ghost predicate ReachesUndisturbed(s: SState, acts: seq<SAction>, t: SState) {
    SRun(s, acts) == Some(t) && Along(s, acts, Undisturbed)
  }

  lemma GoOn(s: SState, acts: seq<SAction>, t: SState, a: SAction) returns (more: seq<SAction>, u: SState)
    requires ReachesUndisturbed(s, acts, t) && Undisturbed(t, a) && SStep(t, a).Some?
    ensures ReachesUndisturbed(s, more, u) && SStep(t, a) == Some(u)
  {
    more, u := acts + [a], SStep(t, a).value;
    assert more[..|more| - 1] == acts;
  }

  /** The saved specification matches the settings, whoever made the running pod. */
  lemma GoReuse(s: SState, acts: seq<SAction>, t: SState, cfg: Settings, id: PodId)
    returns (more: seq<SAction>, u: SState)
    requires ReachesUndisturbed(s, acts, t) && t.cur == Some(Activity(Up(cfg), UpReadSpec(Snapshot(id, Running))))
    requires t.world.disk.spec == Some(cfg.fingerprint)
    ensures ReachesUndisturbed(s, more, u) && u.world.pods == t.world.pods
    ensures u.cur == Some(Activity(Up(cfg), ConfRead(id, ToPoll(id))))
  {
    assert ReadSpecStep(t.world, Up(cfg), Snapshot(id, Running), Ok) == Then(t.world, ConfRead(id, ToPoll(id)));
    more, u := GoOn(s, acts, t, Move(Ok));
  }

  /** A live pod under a specification that is not its own is brought up by whoever has that specification. */
  lemma LiveStrangerIsReused(s: SState, id: PodId, f: Fingerprint) returns (acts: seq<SAction>)
    requires s.cur.None? && s.world.disk.podId == Some(id) && Live(s.world.pods, id)
    requires s.world.disk.spec == Some(f) && !MadeBy(s.world.pods, id, f)
    ensures !StaysOwn(s, acts)
  {
    var cfg, t := Settings(0, f), s;
    acts, t := GoOn(s, [], s, Env(SetStatus(id, Running)));
    acts, t := GoOn(s, acts, t, Begin(Up(cfg)));
    acts, t := GoOn(s, acts, t, Move(Ok));
    acts, t := GoOn(s, acts, t, Move(Ok));
    acts, t := GoReuse(s, acts, t, cfg, id);
  }

  /** Somebody else makes a pod of an unused name, while nobody holds the lock. */
  lemma StrangerAppears(s: SState) returns (acts: seq<SAction>, t: SState, name: Name, id: PodId)
    requires s.cur.None?
    ensures ReachesUndisturbed(s, acts, t) && t.cur.None? && t.world.disk == s.world.disk
    ensures OnlyNamed(t.world.pods, name, id) && t.world.pods[id] == Pod(name, Running, Foreign, None)
  {
    var names := set p | p in s.world.pods :: s.world.pods[p].name;
    name := Numbers.Unused(names);
    id := Numbers.Unused(s.world.pods.Keys);
    assert id !in s.world.pods;
    acts, t := GoOn(s, [], s, Env(ForeignCreate(id, Pod(name, Running, Foreign, None))));
    assert forall p <- s.world.pods :: s.world.pods[p].name in names;
  }

  /** A specification without a pod makes the next adopted pod pass for one's own. */
  lemma AdoptedStrangerIsReused(s: SState, f: Fingerprint) returns (acts: seq<SAction>)
    requires s.cur.None? && s.world.disk.podId.None? && s.world.disk.spec == Some(f)
    ensures !StaysOwn(s, acts)
  {
    var t: SState, name: Name, id: PodId;
    acts, t, name, id := StrangerAppears(s);
    var cfg := Settings(name, f);
    acts, t := GoOn(s, acts, t, Begin(Up(cfg)));
    acts, t := GoOn(s, acts, t, Move(Ok));
    acts, t := GoOn(s, acts, t, Move(FoundOne(id)));
    acts, t := GoOn(s, acts, t, Move(Ok));
    acts, t := GoReuse(s, acts, t, cfg, id);
  }

  lemma IdleStaysOwnIffSettled(s: SState)
    requires s.cur.None? && Binding.Inv(s) && Identity.KnownId(s.world)
    ensures (forall acts :: StaysOwn(s, acts)) <==> Settled(s.world)
  {
    if Settled(s.world) {
      forall acts
        ensures StaysOwn(s, acts)
      {
        if SRun(s, acts).Some? && Along(s, acts, Undisturbed) {
          RunKeepsSettled(s, acts);
        }
      }
    } else if s.world.disk.podId.Some? {
      var acts := LiveStrangerIsReused(s, s.world.disk.podId.value, s.world.disk.spec.value);
    } else {
      var acts := AdoptedStrangerIsReused(s, s.world.disk.spec.value);
    }
  }

  /**
   Whatever was interrupted before, and whoever made pods of which name: from a state without a lock holder
   every undisturbed run brings up only pods made with the settings of the process that does, exactly if
   the saved specification is the one of the persisted pod, or that pod is gone.
   */
  lemma BringsUpOwnIffSettled(s: SState, before: seq<SAction>)
    requires Fresh(s) && SRun(s, before).Some? && SRun(s, before).value.cur.None?
    ensures var t := SRun(s, before).value;
            (forall acts :: StaysOwn(t, acts))
            <==> Agrees(t.world)
                 || (t.world.disk.podId.Some? && !Live(t.world.pods, t.world.disk.podId.value))
  {
    Binding.RunKeepsInv(s, before);
    Identity.RunKeepsIds(s, before);
    IdleStaysOwnIffSettled(SRun(s, before).value);
  }

  /**
   An interruption in one of the two gaps does lasting harm exactly unless it was a replacement whose new pod
   is already gone; anywhere else it does none.
   */
  lemma CutHarmsIffInGap(s: SState, before: seq<SAction>)
    requires Fresh(s) && SRun(s, before).Some? && Along(s, before, Undisturbed) && SRun(s, before).value.cur.Some?
    ensures var t := SRun(s, before).value;
            (forall acts :: StaysOwn(SStep(t, Cut).value, acts))
            <==> !InGap(t.world, t.cur.value.pc)
                 || (t.cur.value.pc.RepWriteSpec? && !Live(t.world.pods, t.cur.value.pc.newId))
  {
    RunKeepsSpec(s, before);
    Binding.RunKeepsInv(s, before);
    Identity.RunKeepsIds(s, before);
    var t := SRun(s, before).value;
    Binding.StepKeepsInv(t, Cut);
    IdleStaysOwnIffSettled(SStep(t, Cut).value);
  }
}
