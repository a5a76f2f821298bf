/** How many of the controller's pods run at a time, and exactly from which states that stays so. */
module RunningPods {
  import opened Wrappers
  import opened Lifecycle
  import Binding
  import Frames
  import opened Identity
  import Numbers

  ghost predicate OursRunning(pods: Pods, id: PodId) {
    id in pods && pods[id].origin.Ours? && pods[id].status == Running
  }

  ghost predicate NoneRunning(pods: Pods) {
    forall id :: !OursRunning(pods, id)
  }

  ghost predicate OnlyRunning(pods: Pods, id: PodId) {
    forall other :: OursRunning(pods, other) ==> other == id
  }

  ghost predicate AtMostOne(pods: Pods) {
    forall id, other :: OursRunning(pods, id) && OursRunning(pods, other) ==> id == other
  }

  /** One pod name; only the controller resumes its pods; a replacement's create and id write complete. */
  ghost predicate Orderly(s: SState, a: SAction, name: Name) {
    && (a.Begin? ==> a.cmd.cfg.podName == name)
    && (a.Env? && a.e.SetStatus? && a.e.status == Running ==>
          a.e.id in s.world.pods ==> !s.world.pods[a.e.id].origin.Ours?)
    && (s.cur.Some? && InReplacementGap(s.cur.value.pc) ==>
          !a.Cut? && a != Move(Fail) && (a == Move(FailAfter) ==> s.cur.value.pc.RepWriteId?))
    && (s.cur.Some? && s.cur.value.pc.RepCreate? ==> !(a.Move? && a.c.CreateLost?))
  }

  ghost predicate CompletesReplacement(pc: Pc, c: Choice) {
    && (InReplacementGap(pc) ==> !c.Fail? && (c.FailAfter? ==> pc.RepWriteId?))
    && (pc.RepCreate? ==> !c.CreateLost?)
  }

  ghost predicate SharedName(pods: Pods, name: Name) {
    forall id :: id in pods && pods[id].origin.Ours? ==> pods[id].name == name
  }

  /** The persisted pod, if it still exists and has a saved specification, is the only one that may run. */
  ghost predicate Anchored(w: World) {
    w.disk.podId.Some? && Live(w.pods, w.disk.podId.value) && w.disk.spec.Some? ==>
      OnlyRunning(w.pods, w.disk.podId.value)
  }

  /** In the gap two pods are in play: the persisted one and its replacement. */
  ghost predicate GapAt(w: World, pc: Pc) {
    InReplacementGap(pc) ==>
      && OnlyRunning(w.pods, pc.newId) && pc.newId in w.pods
      && w.disk.podId.Some? && w.disk.podId.value != pc.newId && w.disk.spec.Some?
  }

  ghost predicate RunningAt(w: World, cmd: Command, pc: Pc) {
    && SharedName(w.pods, cmd.cfg.podName)
    && AtMostOne(w.pods)
    && KnownId(w)
    && (InReplacementGap(pc) || Anchored(w))
    && PointFacts(w, pc)
  }

  /** What is known about the running pods at the points that go on to create, start or stop one. */
  ghost predicate PointFacts(w: World, pc: Pc) {
    && GapAt(w, pc)
    && (pc.UpCreate? || pc.RepCreate? ==> NoneRunning(w.pods))
    && (pc.RepCreate? ==> w.disk.spec.Some?)
    && (pc.SelWriteId? ==> OnlyRunning(w.pods, pc.pod.id) && pc.pod.id in w.pods)
    && (pc.UpReadSpec? && w.disk.spec.Some? ==> OnlyRunning(w.pods, pc.pod.id))
    && (pc.SelWriteId? || pc.UpReadSpec? ==> pc.pod.status != Running ==> !OursRunning(w.pods, pc.pod.id))
    && (pc.UpWriteId? ==> pc.id in w.pods)
    && (pc.UpWriteId? || pc.UpWriteSpec? || pc.UpStart? || pc.RepStop? ==> OnlyRunning(w.pods, pc.id))
    && (pc.RepStop? ==> w.disk.spec.Some?)
    && (pc.RepWriteSpec? ==> OnlyRunning(w.pods, pc.newId))
  }

  // ----- facts about single effects -----

  lemma CreationRunning(w: World, id: PodId, cfg: Settings, replaced: Option<PodId>)
    requires NoneRunning(w.pods) && SharedName(w.pods, cfg.podName) && id !in w.pods
    ensures var pods := WithPod(w, id, cfg, replaced).pods;
            OnlyRunning(pods, id) && AtMostOne(pods) && SharedName(pods, cfg.podName)
  {
    var pods := WithPod(w, id, cfg, replaced).pods;
    assert forall other :: other != id ==> (OursRunning(pods, other) <==> OursRunning(w.pods, other));
  }

  lemma StartRunning(w: World, id: PodId)
    requires OnlyRunning(w.pods, id)
    ensures var pods := WithStatus(w.pods, id, Exited, Running);
            && OnlyRunning(pods, id) && AtMostOne(pods)
            && forall name :: SharedName(w.pods, name) ==> SharedName(pods, name)
  {
    var pods := WithStatus(w.pods, id, Exited, Running);
    assert forall other :: other != id ==> (OursRunning(pods, other) <==> OursRunning(w.pods, other));
  }

  /** Stopping one pod only takes it from the running ones. */
  lemma StopRunning(w: World, id: PodId)
    ensures var pods := WithStatus(w.pods, id, Running, Exited);
            && (forall other :: OursRunning(pods, other) ==> OursRunning(w.pods, other) && other != id)
            && forall name :: SharedName(w.pods, name) ==> SharedName(pods, name)
  {
  }

  // ----- the steps -----

  lemma SelectRunning(w: World, cmd: Command, pc: Pc, c: Choice)
    requires InSelect(pc) && RunningAt(w, cmd, pc) && Binding.Coherent(w.disk, pc)
    ensures var n := SelectStep(w, cmd, pc, c); n.Then? ==> RunningAt(n.w, cmd, n.pc)
  {
  }

  lemma AdoptRunning(w: World, cmd: Command, pc: Pc, c: Choice)
    requires InAdopt(pc) && RunningAt(w, cmd, pc) && Binding.Coherent(w.disk, pc)
    ensures var n := AdoptStep(w, cmd, pc, c); n.Then? ==> RunningAt(n.w, cmd, n.pc)
  {
  }

  lemma ForgetRunning(w: World, cmd: Command, pc: Pc, c: Choice)
    requires InForget(pc) && RunningAt(w, cmd, pc) && Binding.Coherent(w.disk, pc)
    ensures var n := ForgetStep(w, cmd, pc, c); n.Then? ==> RunningAt(n.w, cmd, n.pc)
  {
    Frames.ForgetQuiet(w, cmd, pc, c);
  }

  lemma CreateRequestRunning(w: World, cmd: Command, c: Choice)
    requires RunningAt(w, cmd, UpCreate) && w.disk.podId.None?
    ensures var n := CreateStep(w, cmd, UpCreate, c); n.Then? ==> RunningAt(n.w, cmd, n.pc)
  {
    if (c.CreateOk? || c.CreateLost?) && c.id !in w.pods {
      CreationRunning(w, c.id, cmd.cfg, None);
    }
  }

  lemma CreateRunning(w: World, cmd: Command, pc: Pc, c: Choice)
    requires InCreate(pc) && RunningAt(w, cmd, pc) && Binding.Coherent(w.disk, pc)
    ensures var n := CreateStep(w, cmd, pc, c); n.Then? ==> RunningAt(n.w, cmd, n.pc)
  {
    if pc.UpCreate? {
      CreateRequestRunning(w, cmd, c);
    }
  }

  lemma ReadSpecRunning(w: World, cmd: Command, pod: Snapshot, c: Choice)
    requires w.disk.podId == Some(pod.id) && RunningAt(w, cmd, UpReadSpec(pod))
    ensures var n := ReadSpecStep(w, cmd, pod, c); n.Then? ==> RunningAt(n.w, cmd, n.pc)
  {
  }

  lemma ReplacementRunning(w: World, cmd: Command, id: PodId, c: Choice)
    requires w.disk.podId == Some(id) && RunningAt(w, cmd, RepCreate(id)) && !c.CreateLost?
    ensures var n := ReuseStep(w, cmd, RepCreate(id), c); n.Then? ==> RunningAt(n.w, cmd, n.pc)
  {
    if c.CreateOk? && c.id !in w.pods {
      CreationRunning(w, c.id, cmd.cfg, Some(id));
    }
  }

  lemma StartStepRunning(w: World, cmd: Command, id: PodId, c: Choice)
    requires w.disk.podId == Some(id) && RunningAt(w, cmd, UpStart(id))
    ensures var n := ReuseStep(w, cmd, UpStart(id), c); n.Then? ==> RunningAt(n.w, cmd, n.pc)
  {
    StartRunning(w, id);
  }

  lemma StopStepRunning(w: World, cmd: Command, id: PodId, c: Choice)
    requires w.disk.podId == Some(id) && RunningAt(w, cmd, RepStop(id))
    ensures var n := ReuseStep(w, cmd, RepStop(id), c); n.Then? ==> RunningAt(n.w, cmd, n.pc)
  {
    StopRunning(w, id);
  }

  lemma ReuseRunning(w: World, cmd: Command, pc: Pc, c: Choice)
    requires InReuse(pc) && RunningAt(w, cmd, pc) && Binding.Coherent(w.disk, pc) && CompletesReplacement(pc, c)
    ensures var n := ReuseStep(w, cmd, pc, c); n.Then? ==> RunningAt(n.w, cmd, n.pc)
  {
    match pc
    case UpReadSpec(pod) => ReadSpecRunning(w, cmd, pod, c);
    case RepCreate(id) => ReplacementRunning(w, cmd, id, c);
    case UpStart(id) => StartStepRunning(w, cmd, id, c);
    case RepStop(id) => StopStepRunning(w, cmd, id, c);
  }

  lemma ReplaceRunning(w: World, cmd: Command, pc: Pc, c: Choice)
    requires InReplace(pc) && RunningAt(w, cmd, pc) && Binding.Coherent(w.disk, pc) && Binding.Bound(w.disk)
    requires CompletesReplacement(pc, c)
    ensures var n := ReplaceStep(w, cmd, pc, c); n.Then? ==> RunningAt(n.w, cmd, n.pc)
  {
  }

  /** What reads, or changes trust, keeps what is known about the pods. */
  lemma QuietRunning(w: World, after: World, cmd: Command, pc: Pc, next: Pc)
    requires RunningAt(w, cmd, pc) && !InReplacementGap(pc)
    requires after.pods == w.pods && after.disk.podId == w.disk.podId && after.disk.spec == w.disk.spec
    requires InPrepare(next) || InConnect(next) || InFinish(next) || next.Ended?
    ensures RunningAt(after, cmd, next)
  {
    NoPointFacts(after, next);
  }

  lemma NoPointFacts(w: World, pc: Pc)
    requires InPrepare(pc) || InConnect(pc) || InFinish(pc) || pc.Ended?
    ensures PointFacts(w, pc)
  {
  }

  lemma PrepareRunning(w: World, cmd: Command, pc: Pc, c: Choice)
    requires InPrepare(pc) && RunningAt(w, cmd, pc)
    ensures var n := PrepareStep(w, cmd, pc, c); n.Then? ==> RunningAt(n.w, cmd, n.pc)
  {
    var n := PrepareStep(w, cmd, pc, c);
    if n.Then? {
      QuietRunning(w, n.w, cmd, pc, n.pc);
    }
  }

  lemma ConnectRunning(w: World, cmd: Command, pc: Pc, c: Choice)
    requires InConnect(pc) && RunningAt(w, cmd, pc)
    ensures var n := ConnectStep(w, cmd, pc, c); n.Then? ==> RunningAt(n.w, cmd, n.pc)
  {
    var n := ConnectStep(w, cmd, pc, c);
    if n.Then? {
      QuietRunning(w, n.w, cmd, pc, n.pc);
    }
  }

  lemma FinishRunning(w: World, cmd: Command, pc: Pc, c: Choice)
    requires InFinish(pc) && RunningAt(w, cmd, pc)
    ensures var n := FinishStep(w, cmd, pc, c); n.Then? ==> RunningAt(n.w, cmd, n.pc)
  {
    match pc
    case DownStop(id) => StopRunning(w, id);
    case _ =>
  }

  lemma BodyRunning(w: World, cmd: Command, pc: Pc, c: Choice)
    requires RunningAt(w, cmd, pc) && Binding.InvAt(w, pc) && CompletesReplacement(pc, c)
    ensures var n := BodyStep(w, cmd, pc, c); n.Then? ==> RunningAt(n.w, cmd, n.pc)
  {
    if InSelect(pc) {
      SelectRunning(w, cmd, pc, c);
      assert BodyStep(w, cmd, pc, c) == SelectStep(w, cmd, pc, c);
    } else if InAdopt(pc) {
      AdoptRunning(w, cmd, pc, c);
      assert BodyStep(w, cmd, pc, c) == AdoptStep(w, cmd, pc, c);
    } else if InForget(pc) {
      ForgetRunning(w, cmd, pc, c);
      assert BodyStep(w, cmd, pc, c) == ForgetStep(w, cmd, pc, c);
    } else if InCreate(pc) {
      CreateRunning(w, cmd, pc, c);
      assert BodyStep(w, cmd, pc, c) == CreateStep(w, cmd, pc, c);
    } else if InReuse(pc) {
      ReuseRunning(w, cmd, pc, c);
      assert BodyStep(w, cmd, pc, c) == ReuseStep(w, cmd, pc, c);
    } else if InReplace(pc) {
      ReplaceRunning(w, cmd, pc, c);
      assert BodyStep(w, cmd, pc, c) == ReplaceStep(w, cmd, pc, c);
    } else if InPrepare(pc) {
      PrepareRunning(w, cmd, pc, c);
      assert BodyStep(w, cmd, pc, c) == PrepareStep(w, cmd, pc, c);
    } else if InConnect(pc) {
      ConnectRunning(w, cmd, pc, c);
      assert BodyStep(w, cmd, pc, c) == ConnectStep(w, cmd, pc, c);
    } else if InFinish(pc) {
      FinishRunning(w, cmd, pc, c);
      assert BodyStep(w, cmd, pc, c) == FinishStep(w, cmd, pc, c);
    }
  }

  lemma EnvRunning(pods: Pods, e: EnvAction)
    requires EnvEnabled(pods, e)
    requires e.SetStatus? && e.status == Running ==> !pods[e.id].origin.Ours?
    ensures forall id :: OursRunning(EnvStep(pods, e), id) ==> OursRunning(pods, id)
    ensures forall id :: id in pods && Live(EnvStep(pods, e), id) ==> Live(pods, id)
    ensures forall name :: SharedName(pods, name) ==> SharedName(EnvStep(pods, e), name)
  {
  }

  // ----- runs -----

  ghost predicate RunningIn(s: SState, name: Name) {
    && Binding.Inv(s)
    && SharedName(s.world.pods, name)
    && AtMostOne(s.world.pods)
    && KnownId(s.world)
    && if s.cur.Some? then s.cur.value.cmd.cfg.podName == name && RunningAt(s.world, s.cur.value.cmd, s.cur.value.pc)
       else Anchored(s.world)
  }

  ghost function OrderlyFor(name: Name): (SState, SAction) -> bool {
    (s, a) => Orderly(s, a, name)
  }

  lemma StepKeepsRunning(s: SState, a: SAction, name: Name)
    requires RunningIn(s, name) && Orderly(s, a, name) && SStep(s, a).Some?
    ensures RunningIn(SStep(s, a).value, name)
  {
    Binding.StepKeepsInv(s, a);
    match a
    case Move(c) => BodyRunning(s.world, s.cur.value.cmd, s.cur.value.pc, c);
    case Env(e) => EnvRunning(s.world.pods, e);
    case _ =>
  }

  lemma {:induction false} RunKeepsRunning(s: SState, acts: seq<SAction>, name: Name)
    requires RunningIn(s, name) && SRun(s, acts).Some? && Along(s, acts, OrderlyFor(name))
    ensures RunningIn(SRun(s, acts).value, name)
  {
    if acts != [] {
      var init, a := acts[..|acts| - 1], acts[|acts| - 1];
      RunKeepsRunning(s, init, name);
      StepKeepsRunning(SRun(s, init).value, a, name);
    }
  }

  /** Over an orderly run at most one pod of the controller is RUNNING at any moment. */
  lemma AtMostOneRunning(s: SState, acts: seq<SAction>, name: Name, id: PodId, other: PodId)
    requires Fresh(s) && SRun(s, acts).Some? && Along(s, acts, OrderlyFor(name))
    requires OursRunning(SRun(s, acts).value.world.pods, id) && OursRunning(SRun(s, acts).value.world.pods, other)
    ensures id == other
  {
    RunKeepsRunning(s, acts, name);
  }

  // ----- runs with interrupted and lost replacements -----

  /** All that is asked of such a run: every process has the same pod name. */
  ghost predicate OneName(acts: seq<SAction>, name: Name) {
    forall a <- acts :: a.Begin? ==> a.cmd.cfg.podName == name
  }

  ghost predicate KnownAt(w: World, cmd: Command, pc: Pc) {
    SharedName(w.pods, cmd.cfg.podName) && IdsAt(w, pc)
  }

  /** A step makes pods under the configured name only. */
  ghost predicate KeepsName(w: World, cmd: Command, n: Next) {
    n.Then? && SharedName(w.pods, cmd.cfg.podName) ==> SharedName(n.w.pods, cmd.cfg.podName)
  }

  lemma RequestName(w: World, cmd: Command, pc: Pc, c: Choice)
    requires Frames.RequestsChange(pc)
    ensures KeepsName(w, cmd, BodyStep(w, cmd, pc, c))
  {
    if pc.UpCreate? {
      assert BodyStep(w, cmd, pc, c) == CreateStep(w, cmd, pc, c);
    } else if pc.DownStop? {
      assert BodyStep(w, cmd, pc, c) == FinishStep(w, cmd, pc, c);
    } else {
      assert BodyStep(w, cmd, pc, c) == ReuseStep(w, cmd, pc, c);
    }
  }

  lemma BodyKnown(w: World, cmd: Command, pc: Pc, c: Choice)
    requires KnownAt(w, cmd, pc)
    ensures var n := BodyStep(w, cmd, pc, c); n.Then? ==> KnownAt(n.w, cmd, n.pc)
  {
    BodyKeepsIds(w, cmd, pc, c);
    if Frames.RequestsChange(pc) {
      RequestName(w, cmd, pc, c);
    } else {
      Frames.OthersQuiet(w, cmd, pc, c);
    }
  }

  ghost predicate KnownIn(s: SState, name: Name) {
    && Binding.Inv(s) && SharedName(s.world.pods, name) && KnownId(s.world)
    && (s.cur.Some? ==> s.cur.value.cmd.cfg.podName == name && KnownAt(s.world, s.cur.value.cmd, s.cur.value.pc))
  }

  lemma StepKeepsKnown(s: SState, a: SAction, name: Name)
    requires KnownIn(s, name) && (a.Begin? ==> a.cmd.cfg.podName == name) && SStep(s, a).Some?
    ensures KnownIn(SStep(s, a).value, name)
  {
    Binding.StepKeepsInv(s, a);
    if a.Move? {
      BodyKnown(s.world, s.cur.value.cmd, s.cur.value.pc, a.c);
    }
  }

  lemma {:induction false} RunKeepsKnown(s: SState, acts: seq<SAction>, name: Name)
    requires Fresh(s) && SRun(s, acts).Some? && OneName(acts, name)
    ensures KnownIn(SRun(s, acts).value, name)
  {
    if acts != [] {
      var init, a := acts[..|acts| - 1], acts[|acts| - 1];
      assert a in acts && forall b <- init :: b in acts;
      RunKeepsKnown(s, init, name);
      StepKeepsKnown(SRun(s, init).value, a, name);
    }
  }

  // ----- exactly from which states at most one pod keeps running -----

  ghost predicate ReachesOrderly(s: SState, acts: seq<SAction>, t: SState, name: Name) {
    SRun(s, acts) == Some(t) && Along(s, acts, OrderlyFor(name))
  }

  lemma ReachMore(s: SState, acts: seq<SAction>, t: SState, a: SAction, name: Name)
    returns (more: seq<SAction>, u: SState)
    requires ReachesOrderly(s, acts, t, name) && Orderly(t, a, name) && SStep(t, a).Some?
    ensures ReachesOrderly(s, more, u, name) && SStep(t, a) == Some(u)
  {
    more, u := acts + [a], SStep(t, a).value;
    assert more[..|more| - 1] == acts;
  }

  /** An `up` with another specification stops the persisted pod and asks for a new one. */
  lemma ReachReplacement(s: SState, name: Name, id: PodId) returns (acts: seq<SAction>, t: SState)
    requires s.cur.None? && s.world.disk.podId == Some(id) && Live(s.world.pods, id) && s.world.disk.spec.Some?
    ensures var cfg := Settings(name, s.world.disk.spec.value + 1);
            ReachesOrderly(s, acts, t, name) && t.cur == Some(Activity(Up(cfg), RepCreate(id)))
    ensures t.world.pods == WithStatus(s.world.pods, id, Running, Exited)
  {
    var cfg := Settings(name, s.world.disk.spec.value + 1);
    acts, t := ReachMore(s, [], s, Begin(Up(cfg)), name);
    acts, t := ReachMore(s, acts, t, Move(Ok), name);
    acts, t := ReachMore(s, acts, t, Move(Ok), name);
    acts, t := ReachMore(s, acts, t, Move(Ok), name);
    if t.cur.value.pc.RepStop? {
      acts, t := ReachMore(s, acts, t, Move(Ok), name);
    }
  }

  ghost predicate KeepsAtMostOne(s: SState, acts: seq<SAction>, name: Name) {
    SRun(s, acts).Some? && Along(s, acts, OrderlyFor(name)) ==> AtMostOne(SRun(s, acts).value.world.pods)
  }

  /** Beside a lost pod, the next replacement makes a second running one. */
  lemma LostPodIsJoined(s: SState, name: Name, lost: PodId) returns (acts: seq<SAction>)
    requires s.cur.None? && s.world.disk.podId.Some? && s.world.disk.spec.Some?
    requires Live(s.world.pods, s.world.disk.podId.value)
    requires OursRunning(s.world.pods, lost) && lost != s.world.disk.podId.value
    ensures !KeepsAtMostOne(s, acts, name)
  {
    var id := s.world.disk.podId.value;
    var t: SState;
    acts, t := ReachReplacement(s, name, id);
    var third := Numbers.Unused(t.world.pods.Keys);
    assert third !in t.world.pods.Keys;
    var before := t.world.pods;
    assert OursRunning(before, lost);
    acts, t := ReachMore(s, acts, t, Move(CreateOk(third)), name);
    assert OursRunning(t.world.pods, lost) && OursRunning(t.world.pods, third);
  }

  lemma IdleKeepsIffAnchored(s: SState, name: Name)
    requires s.cur.None? && KnownIn(s, name)
    ensures (forall acts :: KeepsAtMostOne(s, acts, name)) <==> AtMostOne(s.world.pods) && Anchored(s.world)
  {
    if AtMostOne(s.world.pods) && Anchored(s.world) {
      forall acts
        ensures KeepsAtMostOne(s, acts, name)
      {
        if SRun(s, acts).Some? && Along(s, acts, OrderlyFor(name)) {
          RunKeepsRunning(s, acts, name);
        }
      }
    } else if !AtMostOne(s.world.pods) {
      assert !KeepsAtMostOne(s, [], name);
    } else {
      var lost :| OursRunning(s.world.pods, lost) && lost != s.world.disk.podId.value;
      var acts := LostPodIsJoined(s, name, lost);
    }
  }

  /**
   However replacements were interrupted or lost before: from a state without a lock holder every orderly
   run keeps at most one pod running, exactly if at most one runs now and, when the persisted pod still
   exists and has a saved specification, none runs but that one.
   */
  lemma KeepsAtMostOneIffAnchored(s: SState, before: seq<SAction>, name: Name)
    requires Fresh(s) && SRun(s, before).Some? && OneName(before, name) && SRun(s, before).value.cur.None?
    ensures var t := SRun(s, before).value;
            (forall acts :: KeepsAtMostOne(t, acts, name)) <==> AtMostOne(t.world.pods) && Anchored(t.world)
  {
    RunKeepsKnown(s, before, name);
    IdleKeepsIffAnchored(SRun(s, before).value, name);
  }

  lemma {:induction false} OrderlyIsNamed(s: SState, acts: seq<SAction>, name: Name)
    requires SRun(s, acts).Some? && Along(s, acts, OrderlyFor(name))
    ensures OneName(acts, name)
  {
    if acts != [] {
      var init := acts[..|acts| - 1];
      OrderlyIsNamed(s, init, name);
      assert acts == init + [acts[|acts| - 1]];
    }
  }

  /**
   Cutting a replacement between its create and the write of its id does lasting harm exactly if the
   replaced pod still exists and the new one runs at that moment.
   */
  lemma CutInGapHarmsIff(s: SState, before: seq<SAction>, name: Name)
    requires Fresh(s) && SRun(s, before).Some? && Along(s, before, OrderlyFor(name))
    requires var t := SRun(s, before).value; t.cur.Some? && InReplacementGap(t.cur.value.pc)
    ensures var t := SRun(s, before).value;
            && t.world.disk.podId.Some?
            && ((forall acts :: KeepsAtMostOne(SStep(t, Cut).value, acts, name))
                <==> !(Live(t.world.pods, t.world.disk.podId.value)
                       && OursRunning(t.world.pods, t.cur.value.pc.newId)))
  {
    var t := SRun(s, before).value;
    RunKeepsRunning(s, before, name);
    OrderlyIsNamed(s, before, name);
    RunKeepsKnown(s, before, name);
    StepKeepsKnown(t, Cut, name);
    IdleKeepsIffAnchored(SStep(t, Cut).value, name);
  }
}
