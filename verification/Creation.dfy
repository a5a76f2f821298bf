/** How many pods the controller creates over a run with one configuration. */
module Creation {
  import opened Wrappers
  import opened Lifecycle
  import Frames

  function Creations(log: seq<Event>): nat {
    if log == [] then 0
    else Creations(log[..|log| - 1]) + if log[|log| - 1].Created? then 1 else 0
  }

  lemma Append(log: seq<Event>, e: Event)
    ensures Creations(log + [e]) == Creations(log) + if e.Created? then 1 else 0
  {
    assert (log + [e])[..|log|] == log;
  }

  ghost predicate Taken(pods: Pods, name: Name) {
    exists id :: Named(pods, name, id)
  }

  /** One configuration for every process, and nobody deletes pods. */
  ghost predicate Steady(cfg: Settings, a: SAction) {
    (a.Begin? ==> a.cmd.cfg == cfg) && !(a.Env? && a.e.Delete?)
  }

  ghost predicate OneConfiguration(w: World, cfg: Settings) {
    && (w.disk.spec.Some? ==> w.disk.spec.value == cfg.fingerprint)
    && Creations(w.log) <= 1
    && (Creations(w.log) == 1 ==> Taken(w.pods, cfg.podName))
  }

  /** A replacement is never begun, and a create request is only reached while nothing was created. */
  ghost predicate CreationAt(w: World, cmd: Command, pc: Pc) {
    && OneConfiguration(w, cmd.cfg)
    && (pc.UpCreate? ==> Creations(w.log) == 0)
    && !InReplace(pc) && !pc.RepStop? && !pc.RepCreate?
  }

  lemma StatusKeepsTaken(pods: Pods, id: PodId, name: Name, from: Status, to: Status)
    requires Taken(pods, name) && from != Gone && to != Gone
    ensures Taken(WithStatus(pods, id, from, to), name)
  {
    var some :| Named(pods, name, some);
    assert Named(WithStatus(pods, id, from, to), name, some);
  }

  /** What one step does to the specification and where it leads, with one configuration. */
  ghost predicate StaysConfigured(w: World, cmd: Command, pc: Pc, n: Next) {
    n.Then? ==>
      && (n.w.disk.spec.Some? ==> n.w.disk.spec.value == cmd.cfg.fingerprint)
      && !InReplace(n.pc) && !n.pc.RepStop? && !n.pc.RepCreate?
      && (n.pc.UpCreate? ==> pc.SelFind? && NoneNamed(w.pods, cmd.cfg.podName))
  }

  lemma SelectConfigured(w: World, cmd: Command, pc: Pc, c: Choice)
    requires InSelect(pc) && !pc.RepStop? && !pc.RepCreate?
    requires w.disk.spec.Some? ==> w.disk.spec.value == cmd.cfg.fingerprint
    ensures StaysConfigured(w, cmd, pc, SelectStep(w, cmd, pc, c))
  {
  }

  lemma AdoptConfigured(w: World, cmd: Command, pc: Pc, c: Choice)
    requires InAdopt(pc) && !pc.RepStop? && !pc.RepCreate?
    requires w.disk.spec.Some? ==> w.disk.spec.value == cmd.cfg.fingerprint
    ensures StaysConfigured(w, cmd, pc, AdoptStep(w, cmd, pc, c))
  {
  }

  lemma ForgetConfigured(w: World, cmd: Command, pc: Pc, c: Choice)
    requires InForget(pc) && !pc.RepStop? && !pc.RepCreate?
    requires w.disk.spec.Some? ==> w.disk.spec.value == cmd.cfg.fingerprint
    ensures StaysConfigured(w, cmd, pc, ForgetStep(w, cmd, pc, c))
  {
  }

  lemma CreateConfigured(w: World, cmd: Command, pc: Pc, c: Choice)
    requires InCreate(pc) && !pc.RepStop? && !pc.RepCreate?
    requires w.disk.spec.Some? ==> w.disk.spec.value == cmd.cfg.fingerprint
    ensures StaysConfigured(w, cmd, pc, CreateStep(w, cmd, pc, c))
  {
  }

  lemma ReuseConfigured(w: World, cmd: Command, pc: Pc, c: Choice)
    requires InReuse(pc) && !pc.RepStop? && !pc.RepCreate?
    requires w.disk.spec.Some? ==> w.disk.spec.value == cmd.cfg.fingerprint
    ensures StaysConfigured(w, cmd, pc, ReuseStep(w, cmd, pc, c))
  {
  }

  lemma PrepareConfigured(w: World, cmd: Command, pc: Pc, c: Choice)
    requires InPrepare(pc) && !pc.RepStop? && !pc.RepCreate?
    requires w.disk.spec.Some? ==> w.disk.spec.value == cmd.cfg.fingerprint
    ensures StaysConfigured(w, cmd, pc, PrepareStep(w, cmd, pc, c))
  {
  }

  lemma ConnectConfigured(w: World, cmd: Command, pc: Pc, c: Choice)
    requires InConnect(pc) && !pc.RepStop? && !pc.RepCreate?
    requires w.disk.spec.Some? ==> w.disk.spec.value == cmd.cfg.fingerprint
    ensures StaysConfigured(w, cmd, pc, ConnectStep(w, cmd, pc, c))
  {
  }

  lemma FinishConfigured(w: World, cmd: Command, pc: Pc, c: Choice)
    requires InFinish(pc) && !pc.RepStop? && !pc.RepCreate?
    requires w.disk.spec.Some? ==> w.disk.spec.value == cmd.cfg.fingerprint
    ensures StaysConfigured(w, cmd, pc, FinishStep(w, cmd, pc, c))
  {
  }

  lemma BodyConfigured(w: World, cmd: Command, pc: Pc, c: Choice)
    requires !InReplace(pc) && !pc.RepStop? && !pc.RepCreate?
    requires w.disk.spec.Some? ==> w.disk.spec.value == cmd.cfg.fingerprint
    ensures StaysConfigured(w, cmd, pc, BodyStep(w, cmd, pc, c))
  {
    if InSelect(pc) {
      SelectConfigured(w, cmd, pc, c);
      assert BodyStep(w, cmd, pc, c) == SelectStep(w, cmd, pc, c);
    } else if InAdopt(pc) {
      AdoptConfigured(w, cmd, pc, c);
      assert BodyStep(w, cmd, pc, c) == AdoptStep(w, cmd, pc, c);
    } else if InForget(pc) {
      ForgetConfigured(w, cmd, pc, c);
      assert BodyStep(w, cmd, pc, c) == ForgetStep(w, cmd, pc, c);
    } else if InCreate(pc) {
      CreateConfigured(w, cmd, pc, c);
      assert BodyStep(w, cmd, pc, c) == CreateStep(w, cmd, pc, c);
    } else if InReuse(pc) {
      ReuseConfigured(w, cmd, pc, c);
      assert BodyStep(w, cmd, pc, c) == ReuseStep(w, cmd, pc, c);
    } else if InPrepare(pc) {
      PrepareConfigured(w, cmd, pc, c);
      assert BodyStep(w, cmd, pc, c) == PrepareStep(w, cmd, pc, c);
    } else if InConnect(pc) {
      ConnectConfigured(w, cmd, pc, c);
      assert BodyStep(w, cmd, pc, c) == ConnectStep(w, cmd, pc, c);
    } else if InFinish(pc) {
      FinishConfigured(w, cmd, pc, c);
      assert BodyStep(w, cmd, pc, c) == FinishStep(w, cmd, pc, c);
    }
  }

  lemma QuietCreation(w: World, after: World)
    requires Frames.Quiet(w, after)
    ensures Creations(after.log) == Creations(w.log)
  {
    if after.log != w.log {
      var e :| after.log == Extend(w.log, e) && !e.Created?;
      Append(w.log, e);
    }
  }

  lemma BodyCreation(w: World, cmd: Command, pc: Pc, c: Choice)
    requires CreationAt(w, cmd, pc)
    ensures var n := BodyStep(w, cmd, pc, c); n.Then? ==> CreationAt(n.w, cmd, n.pc)
  {
    var n := BodyStep(w, cmd, pc, c);
    if n.Then? {
      BodyConfigured(w, cmd, pc, c);
      if !Frames.RequestsChange(pc) {
        Frames.OthersQuiet(w, cmd, pc, c);
        QuietCreation(w, n.w);
      } else {
        RequestCreation(w, cmd, pc, c);
      }
    }
  }

  lemma RequestCreation(w: World, cmd: Command, pc: Pc, c: Choice)
    requires CreationAt(w, cmd, pc) && Frames.RequestsChange(pc) && BodyStep(w, cmd, pc, c).Then?
    ensures var n := BodyStep(w, cmd, pc, c);
            Creations(n.w.log) <= 1 && (Creations(n.w.log) == 1 ==> Taken(n.w.pods, cmd.cfg.podName))
  {
    match pc
    case UpCreate => CreateRequest(w, cmd, c);
    case UpStart(id) =>
      if Taken(w.pods, cmd.cfg.podName) {
        StatusKeepsTaken(w.pods, id, cmd.cfg.podName, Exited, Running);
      }
    case DownStop(id) =>
      if Taken(w.pods, cmd.cfg.podName) {
        StatusKeepsTaken(w.pods, id, cmd.cfg.podName, Running, Exited);
      }
  }

  lemma CreateRequest(w: World, cmd: Command, c: Choice)
    requires Creations(w.log) == 0
    ensures var n := CreateStep(w, cmd, UpCreate, c);
            n.Then? ==> Creations(n.w.log) <= 1 && (Creations(n.w.log) == 1 ==> Taken(n.w.pods, cmd.cfg.podName))
  {
    if c.CreateOk? || c.CreateLost? {
      Append(w.log, Created(c.id, cmd.cfg.fingerprint, None));
      assert Named(WithPod(w, c.id, cmd.cfg, None).pods, cmd.cfg.podName, c.id);
    }
  }

  lemma EnvCreation(pods: Pods, e: EnvAction, name: Name)
    requires EnvEnabled(pods, e) && !e.Delete? && Taken(pods, name)
    ensures Taken(EnvStep(pods, e), name)
  {
    var some :| Named(pods, name, some);
    assert Named(EnvStep(pods, e), name, some);
  }

  ghost predicate CreationIn(s: SState, cfg: Settings) {
    OneConfiguration(s.world, cfg)
    && (s.cur.Some? ==> s.cur.value.cmd.cfg == cfg && CreationAt(s.world, s.cur.value.cmd, s.cur.value.pc))
  }

  lemma {:induction false} RunKeepsCreation(s: SState, acts: seq<SAction>, cfg: Settings)
    requires Fresh(s) && SRun(s, acts).Some?
    requires forall i :: 0 <= i < |acts| ==> Steady(cfg, acts[i])
    ensures CreationIn(SRun(s, acts).value, cfg)
  {
    if acts != [] {
      var init, a := acts[..|acts| - 1], acts[|acts| - 1];
      RunKeepsCreation(s, init, cfg);
      var t := SRun(s, init).value;
      assert Steady(cfg, a);
      match a
      case Begin(_) => Append(t.world.log, Began);
      case Move(c) => BodyCreation(t.world, t.cur.value.cmd, t.cur.value.pc, c);
      case Env(e) => if Taken(t.world.pods, cfg.podName) { EnvCreation(t.world.pods, e, cfg.podName); }
      case Cut =>
    }
  }

  /** Any number of runs, cut anywhere, make at most one pod, and never begin a replacement. */
  lemma AtMostOneCreation(s: SState, acts: seq<SAction>, cfg: Settings)
    requires Fresh(s) && SRun(s, acts).Some?
    requires forall i :: 0 <= i < |acts| ==> Steady(cfg, acts[i])
    ensures Creations(SRun(s, acts).value.world.log) <= 1
  {
    RunKeepsCreation(s, acts, cfg);
  }

  /**
   A create request whose answer is lost makes no second pod: if no pod had the name, the reconcile finds exactly
   the new one, and the body goes on with it.
   */
  lemma LostAnswerIsRecovered(w: World, cmd: Command, id: PodId, c: Choice)
    requires cmd.Up? && id !in w.pods && NoneNamed(w.pods, cmd.cfg.podName)
    ensures var lost := BodyStep(w, cmd, UpCreate, CreateLost(id, true));
            && lost.Then? && lost.pc == UpReconcile
            && BodyStep(lost.w, cmd, UpReconcile, FoundOne(id)) == Then(lost.w, UpWriteId(id))
            && (BodyStep(lost.w, cmd, UpReconcile, c).Then? ==> c == FoundOne(id) || c == Fail)
  {
    var lost := BodyStep(w, cmd, UpCreate, CreateLost(id, true));
    assert forall other :: other != id && Named(lost.w.pods, cmd.cfg.podName, other) ==>
        Named(w.pods, cmd.cfg.podName, other);
    assert OnlyNamed(lost.w.pods, cmd.cfg.podName, id);
  }
}
