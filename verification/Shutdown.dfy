/** What one `down` body leaves behind, while the provider does what it likes in between. */
module Shutdown {
  import opened Wrappers
  import opened Lifecycle
  import Binding

  ghost predicate IsRunning(pods: Pods, id: PodId) {
    id in pods && pods[id].status == Running
  }

  /** Only the body moves, and nobody else resumes a pod. */
  ghost predicate NoResume(a: SAction) {
    a.Move? || (a.Env? && !(a.e.SetStatus? && a.e.status == Running))
  }

  ghost predicate StoppedAt(w: World, pc: Pc) {
    && (InSelect(pc) || InAdopt(pc) || InForget(pc) || InFinish(pc) || pc.Ended?)
    && (pc.SelWriteId? ==> pc.pod.id in w.pods && (pc.pod.status != Running ==> !IsRunning(w.pods, pc.pod.id)))
    && (InForget(pc) ==> pc.ret.ToForgetId?)
    && (pc.DownStop? ==> pc.id in w.pods)
    && (pc == DownClean(false) && w.disk.podId.Some? ==>
          w.disk.podId.value in w.pods && !IsRunning(w.pods, w.disk.podId.value))
  }

  lemma SelectStopped(w: World, cfg: Settings, pc: Pc, c: Choice)
    requires (InSelect(pc) || InAdopt(pc)) && StoppedAt(w, pc) && Binding.InvAt(w, pc)
    ensures var n := BodyStep(w, Down(cfg), pc, c); n.Then? ==> StoppedAt(n.w, n.pc)
  {
  }

  lemma ForgetStopped(w: World, cfg: Settings, pc: Pc, c: Choice)
    requires InForget(pc) && StoppedAt(w, pc) && Binding.InvAt(w, pc)
    ensures var n := ForgetStep(w, Down(cfg), pc, c); n.Then? ==> StoppedAt(n.w, n.pc)
  {
  }

  lemma StepStopped(w: World, cfg: Settings, pc: Pc, c: Choice)
    requires StoppedAt(w, pc) && Binding.InvAt(w, pc)
    ensures var n := BodyStep(w, Down(cfg), pc, c); n.Then? ==> StoppedAt(n.w, n.pc)
  {
    if InSelect(pc) || InAdopt(pc) {
      SelectStopped(w, cfg, pc, c);
    } else if InForget(pc) {
      ForgetStopped(w, cfg, pc, c);
    }
  }

  lemma {:induction false} BodyStopped(s: SState, cfg: Settings, acts: seq<SAction>)
    requires Binding.Inv(s) && s.cur == Some(Activity(Down(cfg), SelReadId)) && SRun(s, acts).Some?
    requires forall i :: 0 <= i < |acts| ==> NoResume(acts[i])
    ensures var t := SRun(s, acts).value;
            Binding.Inv(t) && t.cur.Some? && t.cur.value.cmd == Down(cfg) && StoppedAt(t.world, t.cur.value.pc)
  {
    if acts != [] {
      var init, a := acts[..|acts| - 1], acts[|acts| - 1];
      BodyStopped(s, cfg, init);
      var t := SRun(s, init).value;
      assert NoResume(a);
      Binding.StepKeepsInv(t, a);
      match a
      case Move(c) => StepStopped(t.world, cfg, t.cur.value.pc, c);
      case Env(_) =>
    }
  }

  /** When `down` recorded no failure, the pod it persists as selected is not RUNNING. */
  lemma CleanDownStopsSelectedPod(s: SState, cfg: Settings, acts: seq<SAction>)
    requires Binding.Inv(s) && s.cur == Some(Activity(Down(cfg), SelReadId)) && SRun(s, acts).Some?
    requires forall i :: 0 <= i < |acts| ==> NoResume(acts[i])
    requires SRun(s, acts).value.cur.Some? && SRun(s, acts).value.cur.value.pc == DownClean(false)
    ensures var w := SRun(s, acts).value.world;
            w.disk.podId.Some? ==> !IsRunning(w.pods, w.disk.podId.value)
  {
    BodyStopped(s, cfg, acts);
  }

  // ----- `down` while the provider still has the selected pod -----

  ghost predicate Spares(a: SAction, id: PodId) {
    a.Move? || (a.Env? && a.e != Delete(id))
  }

  ghost predicate OnPod(pc: Pc, id: PodId) {
    pc == SelReadId || pc == SelGet(id) || pc == DownStop(id) || pc.DownClean? || pc == Ended
  }

  /** One step of `down` on a pod that the provider has. */
  lemma StepOnPod(w: World, cfg: Settings, pc: Pc, c: Choice, id: PodId)
    requires OnPod(pc, id) && w.disk.podId == Some(id) && Live(w.pods, id)
    ensures var n := BodyStep(w, Down(cfg), pc, c);
            n.Then? ==> && OnPod(n.pc, id) && n.w.disk == w.disk && Live(n.w.pods, id)
                        && (!pc.DownStop? ==> n.w.pods == w.pods)
                        && (n.pc.DownStop? ==> IsRunning(w.pods, id))
  {
    if InSelect(pc) {
      assert BodyStep(w, Down(cfg), pc, c) == SelectStep(w, Down(cfg), pc, c);
    } else if InFinish(pc) {
      assert BodyStep(w, Down(cfg), pc, c) == FinishStep(w, Down(cfg), pc, c);
    } else {
      assert BodyStep(w, Down(cfg), pc, c) == Blocked;
    }
  }

  /** The four files are untouched, whatever fails. */
  lemma {:induction false} DownKeepsState(s: SState, cfg: Settings, acts: seq<SAction>, id: PodId)
    requires s.cur == Some(Activity(Down(cfg), SelReadId)) && SRun(s, acts).Some?
    requires s.world.disk.podId == Some(id) && Live(s.world.pods, id)
    requires forall i :: 0 <= i < |acts| ==> Spares(acts[i], id)
    ensures var t := SRun(s, acts).value;
            && t.world.disk == s.world.disk && Live(t.world.pods, id)
            && t.cur.Some? && t.cur.value.cmd == Down(cfg) && OnPod(t.cur.value.pc, id)
  {
    if acts != [] {
      var init, a := acts[..|acts| - 1], acts[|acts| - 1];
      DownKeepsState(s, cfg, init, id);
      assert Spares(a, id);
      var t := SRun(s, init).value;
      if a.Move? {
        StepOnPod(t.world, cfg, t.cur.value.pc, a.c, id);
      }
    }
  }

  /** The pods as other parties alone leave them. */
  ghost function WithoutUs(pods: Pods, acts: seq<SAction>): Pods {
    if acts == [] then pods
    else
      var before := WithoutUs(pods, acts[..|acts| - 1]);
      var a := acts[|acts| - 1];
      if a.Env? && EnvEnabled(before, a.e) then EnvStep(before, a.e) else before
  }

  /** With the selected pod already stopped, another `down` changes neither the files nor any pod. */
  lemma {:induction false} SecondDownChangesNothing(s: SState, cfg: Settings, acts: seq<SAction>, id: PodId)
    requires s.cur == Some(Activity(Down(cfg), SelReadId)) && SRun(s, acts).Some?
    requires s.world.disk.podId == Some(id) && Live(s.world.pods, id) && !IsRunning(s.world.pods, id)
    requires forall i :: 0 <= i < |acts| ==> Spares(acts[i], id) && NoResume(acts[i])
    ensures var t := SRun(s, acts).value;
            && t.world.disk == s.world.disk && t.world.pods == WithoutUs(s.world.pods, acts)
            && !IsRunning(t.world.pods, id) && t.cur.Some? && !t.cur.value.pc.DownStop?
  {
    DownKeepsState(s, cfg, acts, id);
    if acts != [] {
      var init, a := acts[..|acts| - 1], acts[|acts| - 1];
      SecondDownChangesNothing(s, cfg, init, id);
      DownKeepsState(s, cfg, init, id);
      assert NoResume(a);
      var t := SRun(s, init).value;
      if a.Move? {
        StepOnPod(t.world, cfg, t.cur.value.pc, a.c, id);
      }
    }
  }

  // ----- `down` with nothing to stop -----

  /** Nobody makes a pod of the configured name. */
  ghost predicate LeavesNameFree(a: SAction, name: Name) {
    a.Move? || (a.Env? && !(a.e.ForeignCreate? && a.e.pod.name == name))
  }

  ghost predicate OnNothing(pc: Pc) {
    pc == SelReadId || pc == SelFind || pc.DownClean? || pc == Ended
  }

  lemma StepOnNothing(w: World, cfg: Settings, pc: Pc, c: Choice)
    requires OnNothing(pc) && w.disk.podId.None? && NoneNamed(w.pods, cfg.podName)
    ensures var n := BodyStep(w, Down(cfg), pc, c);
            n.Then? ==> OnNothing(n.pc) && n.w.disk == w.disk && n.w.pods == w.pods
  {
    if InSelect(pc) {
      assert BodyStep(w, Down(cfg), pc, c) == SelectStep(w, Down(cfg), pc, c);
    } else if InAdopt(pc) {
      assert BodyStep(w, Down(cfg), pc, c) == AdoptStep(w, Down(cfg), pc, c);
    } else if InFinish(pc) {
      assert BodyStep(w, Down(cfg), pc, c) == FinishStep(w, Down(cfg), pc, c);
    } else {
      assert BodyStep(w, Down(cfg), pc, c) == Blocked;
    }
  }

  lemma EnvLeavesNameFree(pods: Pods, e: EnvAction, name: Name)
    requires NoneNamed(pods, name) && EnvEnabled(pods, e) && LeavesNameFree(Env(e), name)
    ensures NoneNamed(EnvStep(pods, e), name)
  {
  }

  /** With no pod persisted and none of the name, a `down` changes neither the files nor any pod. */
  lemma {:induction false} IdleDownChangesNothing(s: SState, cfg: Settings, acts: seq<SAction>)
    requires s.cur == Some(Activity(Down(cfg), SelReadId)) && SRun(s, acts).Some?
    requires s.world.disk.podId.None? && NoneNamed(s.world.pods, cfg.podName)
    requires forall i :: 0 <= i < |acts| ==> LeavesNameFree(acts[i], cfg.podName)
    ensures var t := SRun(s, acts).value;
            && t.world.disk == s.world.disk && t.world.pods == WithoutUs(s.world.pods, acts)
            && NoneNamed(t.world.pods, cfg.podName)
            && t.cur.Some? && t.cur.value.cmd == Down(cfg) && OnNothing(t.cur.value.pc)
  {
    if acts != [] {
      var init, a := acts[..|acts| - 1], acts[|acts| - 1];
      IdleDownChangesNothing(s, cfg, init);
      assert LeavesNameFree(a, cfg.podName);
      var t := SRun(s, init).value;
      match a
      case Move(c) => StepOnNothing(t.world, cfg, t.cur.value.pc, c);
      case Env(e) => EnvLeavesNameFree(t.world.pods, e, cfg.podName);
    }
  }
}
