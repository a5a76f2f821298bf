/** From which states `up` can still come up when nothing more goes wrong, and from which it never will. */
module Recovery {
  import opened Wrappers
  import opened Lifecycle
  import Binding
  import Frames
  import Numbers
  import Refusals

  /** `up` goes on with a selected pod: it reuses, starts or replaces it. */
  predicate Usable(status: Status, spec: Option<Fingerprint>, cfg: Settings) {
    spec.Some? && (spec.value != cfg.fingerprint || status != Terminated)
  }

  ghost predicate UsableNamed(pods: Pods, spec: Option<Fingerprint>, cfg: Settings, id: PodId) {
    OnlyNamed(pods, cfg.podName, id) && Usable(pods[id].status, spec, cfg)
  }

  /**
   The persisted pod exists and is usable; or it is gone and no pod has the configured name; or none is
   persisted, and no pod or only a usable one has the name.
   */
  ghost predicate Recoverable(w: World, cfg: Settings) {
    if w.disk.podId.Some? && Live(w.pods, w.disk.podId.value)
    then Usable(w.pods[w.disk.podId.value].status, w.disk.spec, cfg)
    else
      || NoneNamed(w.pods, cfg.podName)
      || (w.disk.podId.None? && exists id :: UsableNamed(w.pods, w.disk.spec, cfg, id))
  }

  /**
   Any number of `up` and `down` bodies with these settings, which may fail and be cut anywhere but between
   the two removals of an identity; of the provider only addresses change.
   */
  ghost predicate Calm(s: SState, a: SAction, cfg: Settings) {
    && (a.Begin? ==> a.cmd.cfg == cfg)
    && (a.Env? ==> a.e.SetAddr?)
    && (s.cur.Some? && s.cur.value.pc.SelForgetSpec? ==> !a.Cut? && a != Move(Fail))
    && (s.cur.Some? && s.cur.value.pc.SelForgetId? ==> a != Move(FailAfter))
  }

  ghost function CalmFor(cfg: Settings): (SState, SAction) -> bool {
    (s, a) => Calm(s, a, cfg)
  }

  /** An `up` is about to launch vLLM over a connection that is accepted. */
  ghost predicate Launches(t: SState, a: SAction, cfg: Settings) {
    && t.cur.Some? && t.cur.value.cmd == Up(cfg)
    && a.Move? && Refusals.Launches(t.world, t.cur.value.pc, a.c)
  }

  /** The last action of a calm run is a successful launch. */
  ghost predicate ComesUp(s: SState, acts: seq<SAction>, cfg: Settings) {
    && acts != [] && SRun(s, acts).Some? && Along(s, acts, CalmFor(cfg))
    && Launches(SRun(s, acts[..|acts| - 1]).value, acts[|acts| - 1], cfg)
  }

  // ----- never again -----

  /** The persisted pod is gone, but its name is taken. */
  ghost predicate GoneButTaken(w: World, cfg: Settings) {
    && w.disk.podId.Some? && !Live(w.pods, w.disk.podId.value)
    && !NoneNamed(w.pods, cfg.podName)
  }

  ghost predicate Refused(w: World, cfg: Settings, pod: Snapshot) {
    Live(w.pods, pod.id) && w.pods[pod.id].status == pod.status && !Usable(pod.status, w.disk.spec, cfg)
  }

  /** What keeps a state unrecoverable inside a body. */
  ghost predicate LostAt(w: World, cfg: Settings, pc: Pc) {
    && (InSelect(pc) || InAdopt(pc) || InForget(pc) || InFinish(pc) || pc.UpReadSpec? || pc.Ended?)
    && (pc.SelForgetSpec? || !Recoverable(w, cfg))
    && (pc.SelCompare? || pc.SelForgetId? || InForget(pc) ==> GoneButTaken(w, cfg))
    && (InForget(pc) ==> pc.ret.ToForgetId?)
    && (pc.SelForgetSpec? ==> w.disk.podId.None? && !NoneNamed(w.pods, cfg.podName))
    && (pc.SelWriteId? ==> w.disk.podId.None? && Refused(w, cfg, pc.pod))
    && (pc.UpReadSpec? ==> w.disk.podId == Some(pc.pod.id) && Refused(w, cfg, pc.pod))
  }

  lemma SelectLost(w: World, cmd: Command, pc: Pc, c: Choice)
    requires InSelect(pc) && LostAt(w, cmd.cfg, pc) && Binding.Coherent(w.disk, pc)
    ensures var n := SelectStep(w, cmd, pc, c); n.Then? ==> LostAt(n.w, cmd.cfg, n.pc)
  {
  }

  lemma FindLost(w: World, cmd: Command, c: Choice)
    requires LostAt(w, cmd.cfg, SelFind) && w.disk.podId.None?
    ensures var n := AdoptStep(w, cmd, SelFind, c); n.Then? ==> LostAt(n.w, cmd.cfg, n.pc)
  {
    if c.FoundOne? && OnlyNamed(w.pods, cmd.cfg.podName, c.id) {
      assert !UsableNamed(w.pods, w.disk.spec, cmd.cfg, c.id);
    }
  }

  lemma AdoptLost(w: World, cmd: Command, pc: Pc, c: Choice)
    requires InAdopt(pc) && LostAt(w, cmd.cfg, pc) && Binding.Coherent(w.disk, pc)
    requires (pc.SelForgetSpec? ==> !c.Fail?) && (pc.SelForgetId? ==> !c.FailAfter?)
    ensures var n := AdoptStep(w, cmd, pc, c); n.Then? ==> LostAt(n.w, cmd.cfg, n.pc)
  {
    if pc.SelFind? {
      FindLost(w, cmd, c);
    }
  }

  lemma ForgetLost(w: World, cmd: Command, pc: Pc, c: Choice)
    requires InForget(pc) && LostAt(w, cmd.cfg, pc) && Binding.Coherent(w.disk, pc)
    ensures var n := ForgetStep(w, cmd, pc, c); n.Then? ==> LostAt(n.w, cmd.cfg, n.pc)
  {
    Frames.ForgetQuiet(w, cmd, pc, c);
  }

  lemma ReadSpecLost(w: World, cmd: Command, pod: Snapshot, c: Choice)
    requires LostAt(w, cmd.cfg, UpReadSpec(pod))
    ensures var n := ReadSpecStep(w, cmd, pod, c); n.Then? ==> LostAt(n.w, cmd.cfg, n.pc)
  {
  }

  lemma FinishLost(w: World, cmd: Command, pc: Pc, c: Choice)
    requires InFinish(pc) && LostAt(w, cmd.cfg, pc) && Binding.Coherent(w.disk, pc)
    ensures var n := FinishStep(w, cmd, pc, c); n.Then? ==> LostAt(n.w, cmd.cfg, n.pc)
  {
    if pc.DownStop? {
      var after := w.(pods := WithStatus(w.pods, pc.id, Running, Exited));
      assert forall id :: Named(after.pods, cmd.cfg.podName, id) <==> Named(w.pods, cmd.cfg.podName, id);
      assert w.disk.podId == Some(pc.id);
    }
  }

  lemma BodyLost(w: World, cmd: Command, pc: Pc, c: Choice)
    requires LostAt(w, cmd.cfg, pc) && Binding.InvAt(w, pc)
    requires (pc.SelForgetSpec? ==> !c.Fail?) && (pc.SelForgetId? ==> !c.FailAfter?)
    ensures var n := BodyStep(w, cmd, pc, c); n.Then? ==> LostAt(n.w, cmd.cfg, n.pc)
  {
    if InSelect(pc) {
      SelectLost(w, cmd, pc, c);
      assert BodyStep(w, cmd, pc, c) == SelectStep(w, cmd, pc, c);
    } else if InAdopt(pc) {
      AdoptLost(w, cmd, pc, c);
      assert BodyStep(w, cmd, pc, c) == AdoptStep(w, cmd, pc, c);
    } else if InForget(pc) {
      ForgetLost(w, cmd, pc, c);
      assert BodyStep(w, cmd, pc, c) == ForgetStep(w, cmd, pc, c);
    } else if pc.UpReadSpec? {
      ReadSpecLost(w, cmd, pc.pod, c);
      assert BodyStep(w, cmd, pc, c) == ReadSpecStep(w, cmd, pc.pod, c);
    } else if InFinish(pc) {
      FinishLost(w, cmd, pc, c);
      assert BodyStep(w, cmd, pc, c) == FinishStep(w, cmd, pc, c);
    } else {
      assert BodyStep(w, cmd, pc, c) == Blocked;
    }
  }

  ghost predicate LostIn(s: SState, cfg: Settings) {
    && Binding.Inv(s)
    && if s.cur.Some? then s.cur.value.cmd.cfg == cfg && LostAt(s.world, cfg, s.cur.value.pc)
       else !Recoverable(s.world, cfg)
  }

  /** A new address changes nothing that matters here. */
  lemma AddressLost(w: World, cfg: Settings, id: PodId, addr: Option<Address>)
    requires Live(w.pods, id)
    ensures var after := w.(pods := w.pods[id := w.pods[id].(addr := addr)]);
            && (Recoverable(after, cfg) <==> Recoverable(w, cfg))
            && (NoneNamed(after.pods, cfg.podName) <==> NoneNamed(w.pods, cfg.podName))
            && forall p :: Live(after.pods, p) <==> Live(w.pods, p)
  {
    var after := w.(pods := w.pods[id := w.pods[id].(addr := addr)]);
    assert forall p :: Named(after.pods, cfg.podName, p) <==> Named(w.pods, cfg.podName, p);
    assert forall p :: UsableNamed(after.pods, w.disk.spec, cfg, p) <==> UsableNamed(w.pods, w.disk.spec, cfg, p);
  }

  lemma StepKeepsLost(s: SState, a: SAction, cfg: Settings)
    requires LostIn(s, cfg) && Calm(s, a, cfg) && SStep(s, a).Some?
    ensures LostIn(SStep(s, a).value, cfg)
  {
    Binding.StepKeepsInv(s, a);
    match a
    case Move(c) => BodyLost(s.world, s.cur.value.cmd, s.cur.value.pc, c);
    case Env(e) => AddressLost(s.world, cfg, e.id, e.addr);
    case _ =>
  }

  lemma {:induction false} RunKeepsLost(s: SState, acts: seq<SAction>, cfg: Settings)
    requires LostIn(s, cfg) && SRun(s, acts).Some? && Along(s, acts, CalmFor(cfg))
    ensures LostIn(SRun(s, acts).value, cfg)
  {
    if acts != [] {
      var init, a := acts[..|acts| - 1], acts[|acts| - 1];
      RunKeepsLost(s, init, cfg);
      StepKeepsLost(SRun(s, init).value, a, cfg);
    }
  }

  // ----- once more -----

  ghost predicate Goes(s: SState, acts: seq<SAction>, t: SState, cfg: Settings) {
    SRun(s, acts) == Some(t) && Along(s, acts, CalmFor(cfg)) && Binding.Inv(t)
  }

  ghost predicate At(t: SState, cfg: Settings, pc: Pc) {
    t.cur == Some(Activity(Up(cfg), pc))
  }

  lemma Go(s: SState, acts: seq<SAction>, t: SState, a: SAction, cfg: Settings)
    returns (more: seq<SAction>, u: SState)
    requires Goes(s, acts, t, cfg) && Calm(t, a, cfg) && SStep(t, a).Some?
    ensures Goes(s, more, u, cfg) && SStep(t, a) == Some(u) && more == acts + [a]
  {
    more, u := acts + [a], SStep(t, a).value;
    assert more[..|more| - 1] == acts;
    Binding.StepKeepsInv(t, a);
  }

  /** After the persisted pod turned out to be gone: record, key, id and specification are forgotten. */
  lemma GoForget(s: SState, acts: seq<SAction>, t: SState, cfg: Settings, id: PodId)
    returns (more: seq<SAction>, u: SState)
    requires Goes(s, acts, t, cfg) && At(t, cfg, SelCompare(id))
    ensures Goes(s, more, u, cfg) && At(u, cfg, SelForgetId) && u.world.pods == t.world.pods
  {
    more, u := Go(s, acts, t, Move(Ok), cfg);
    if u.cur.value.pc.DelRead? {
      more, u := Go(s, more, u, Move(Ok), cfg);
      more, u := Go(s, more, u, Move(Ok), cfg);
      more, u := Go(s, more, u, Move(Ok), cfg);
    } else {
      more, u := Go(s, more, u, Move(Ok), cfg);
    }
  }

  lemma GoFind(s: SState, acts: seq<SAction>, t: SState, cfg: Settings) returns (more: seq<SAction>, u: SState)
    requires Goes(s, acts, t, cfg) && At(t, cfg, SelForgetId)
    ensures Goes(s, more, u, cfg) && At(u, cfg, SelFind) && u.world.pods == t.world.pods
  {
    more, u := Go(s, acts, t, Move(Ok), cfg);
    more, u := Go(s, more, u, Move(Ok), cfg);
  }

  /** A body up to the provider's answer about the persisted pod, or to the lookup by name. */
  lemma GoSelect(s: SState, cfg: Settings) returns (acts: seq<SAction>, t: SState)
    requires Binding.Inv(s) && s.cur.None?
    ensures Goes(s, acts, t, cfg) && t.world.pods == s.world.pods
    ensures var d := s.world.disk;
            if d.podId.Some? && Live(s.world.pods, d.podId.value)
            then At(t, cfg, UpReadSpec(Snapshot(d.podId.value, s.world.pods[d.podId.value].status)))
                 && t.world.disk == d
            else At(t, cfg, SelFind) && (d.podId.None? ==> t.world.disk == d)
  {
    acts, t := Go(s, [], s, Begin(Up(cfg)), cfg);
    acts, t := Go(s, acts, t, Move(Ok), cfg);
    if s.world.disk.podId.Some? {
      acts, t := Go(s, acts, t, Move(Ok), cfg);
      if !Live(s.world.pods, s.world.disk.podId.value) {
        acts, t := GoForget(s, acts, t, cfg, s.world.disk.podId.value);
        acts, t := GoFind(s, acts, t, cfg);
      }
    }
  }

  /** Nothing has the configured name: a pod is created and saved. */
  lemma GoCreate(s: SState, acts: seq<SAction>, t: SState, cfg: Settings)
    returns (more: seq<SAction>, u: SState, id: PodId)
    requires Goes(s, acts, t, cfg) && At(t, cfg, SelFind) && NoneNamed(t.world.pods, cfg.podName)
    ensures Goes(s, more, u, cfg) && At(u, cfg, UpWriteId(id)) && Pollable(u, id)
  {
    id := Numbers.Unused(t.world.pods.Keys);
    assert id !in t.world.pods.Keys;
    more, u := Go(s, acts, t, Move(FoundNone), cfg);
    more, u := Go(s, more, u, Move(CreateOk(id)), cfg);
  }

  ghost predicate Pollable(t: SState, id: PodId) {
    Live(t.world.pods, id) && t.world.pods[id].status != Exited && t.world.pods[id].status != Terminated
  }

  lemma GoSave(s: SState, acts: seq<SAction>, t: SState, cfg: Settings, id: PodId)
    returns (more: seq<SAction>, u: SState)
    requires Goes(s, acts, t, cfg) && At(t, cfg, UpWriteId(id)) && Pollable(t, id)
    ensures Goes(s, more, u, cfg) && At(u, cfg, UpPoll(id)) && Pollable(u, id)
  {
    more, u := Go(s, acts, t, Move(Ok), cfg);
    more, u := Go(s, more, u, Move(Ok), cfg);
    more, u := Go(s, more, u, Move(Ok), cfg);
  }

  lemma GoAdopt(s: SState, acts: seq<SAction>, t: SState, cfg: Settings, id: PodId)
    returns (more: seq<SAction>, u: SState)
    requires Goes(s, acts, t, cfg) && At(t, cfg, SelFind) && OnlyNamed(t.world.pods, cfg.podName, id)
    ensures Goes(s, more, u, cfg) && At(u, cfg, UpReadSpec(Snapshot(id, t.world.pods[id].status)))
    ensures u.world.pods == t.world.pods && u.world.disk.spec == t.world.disk.spec
  {
    more, u := Go(s, acts, t, Move(FoundOne(id)), cfg);
    more, u := Go(s, more, u, Move(Ok), cfg);
  }

  /** The specification matches: the pod is started if it is stopped. */
  lemma GoStart(s: SState, acts: seq<SAction>, t: SState, cfg: Settings, pod: Snapshot)
    returns (more: seq<SAction>, u: SState)
    requires Goes(s, acts, t, cfg) && At(t, cfg, UpReadSpec(pod)) && t.world.disk.spec == Some(cfg.fingerprint)
    requires Live(t.world.pods, pod.id) && t.world.pods[pod.id].status == pod.status && pod.status != Terminated
    ensures Goes(s, more, u, cfg) && At(u, cfg, ConfRead(pod.id, ToPoll(pod.id))) && Pollable(u, pod.id)
  {
    assert ReadSpecStep(t.world, Up(cfg), pod, Ok) ==
           Then(t.world, if pod.status == Exited then UpStart(pod.id) else ConfRead(pod.id, ToPoll(pod.id)));
    more, u := Go(s, acts, t, Move(Ok), cfg);
    if pod.status == Exited {
      more, u := Go(s, more, u, Move(Ok), cfg);
    }
  }

  lemma GoReuse(s: SState, acts: seq<SAction>, t: SState, cfg: Settings, pod: Snapshot)
    returns (more: seq<SAction>, u: SState)
    requires Goes(s, acts, t, cfg) && At(t, cfg, UpReadSpec(pod)) && t.world.disk.spec == Some(cfg.fingerprint)
    requires Live(t.world.pods, pod.id) && t.world.pods[pod.id].status == pod.status && pod.status != Terminated
    ensures Goes(s, more, u, cfg) && At(u, cfg, UpPoll(pod.id)) && Pollable(u, pod.id)
  {
    more, u := GoStart(s, acts, t, cfg, pod);
    more, u := Go(s, more, u, Move(Ok), cfg);
  }

  /** The specification differs: the pod is stopped if it runs. */
  lemma GoStop(s: SState, acts: seq<SAction>, t: SState, cfg: Settings, pod: Snapshot)
    returns (more: seq<SAction>, u: SState)
    requires Goes(s, acts, t, cfg) && At(t, cfg, UpReadSpec(pod)) && Live(t.world.pods, pod.id)
    requires t.world.disk.spec.Some? && t.world.disk.spec.value != cfg.fingerprint
    ensures Goes(s, more, u, cfg) && At(u, cfg, RepCreate(pod.id))
  {
    more, u := Go(s, acts, t, Move(Ok), cfg);
    if pod.status == Running {
      more, u := Go(s, more, u, Move(Ok), cfg);
    }
  }

  /** ... and another one created. */
  lemma GoReplace(s: SState, acts: seq<SAction>, t: SState, cfg: Settings, pod: Snapshot)
    returns (more: seq<SAction>, u: SState, id: PodId)
    requires Goes(s, acts, t, cfg) && At(t, cfg, UpReadSpec(pod)) && Live(t.world.pods, pod.id)
    requires t.world.disk.spec.Some? && t.world.disk.spec.value != cfg.fingerprint
    ensures Goes(s, more, u, cfg) && At(u, cfg, RepRead(pod.id, id)) && Pollable(u, id)
  {
    more, u := GoStop(s, acts, t, cfg, pod);
    id := Numbers.Unused(u.world.pods.Keys);
    assert id !in u.world.pods.Keys;
    more, u := Go(s, more, u, Move(CreateOk(id)), cfg);
  }

  lemma GoForgetOld(s: SState, acts: seq<SAction>, t: SState, cfg: Settings, former: PodId, id: PodId)
    returns (more: seq<SAction>, u: SState)
    requires Goes(s, acts, t, cfg) && At(t, cfg, RepRead(former, id))
    ensures Goes(s, more, u, cfg) && At(u, cfg, RepWriteId(id)) && u.world.pods == t.world.pods
  {
    more, u := Go(s, acts, t, Move(Ok), cfg);
    if u.cur.value.pc.RepKeygen? {
      more, u := Go(s, more, u, Move(Ok), cfg);
      more, u := Go(s, more, u, Move(Ok), cfg);
    }
  }

  lemma GoSaveNew(s: SState, acts: seq<SAction>, t: SState, cfg: Settings, id: PodId)
    returns (more: seq<SAction>, u: SState)
    requires Goes(s, acts, t, cfg) && At(t, cfg, RepWriteId(id)) && Pollable(t, id)
    ensures Goes(s, more, u, cfg) && At(u, cfg, UpPoll(id)) && Pollable(u, id)
  {
    more, u := Go(s, acts, t, Move(Ok), cfg);
    more, u := Go(s, more, u, Move(Ok), cfg);
    more, u := Go(s, more, u, Move(Ok), cfg);
  }

  /** The provider reports the recorded address, or any if there is no record. */
  lemma GoPoll(s: SState, acts: seq<SAction>, t: SState, cfg: Settings, id: PodId)
    returns (more: seq<SAction>, u: SState, addr: Address)
    requires Goes(s, acts, t, cfg) && At(t, cfg, UpPoll(id)) && Pollable(t, id)
    ensures Goes(s, more, u, cfg) && At(u, cfg, PrepRead(id, addr))
    ensures u.world.disk.endpoint.Some? ==> u.world.disk.endpoint.value.addr == addr
  {
    addr := if t.world.disk.endpoint.Some? then t.world.disk.endpoint.value.addr else Address(0, 0);
    more, u := Go(s, acts, t, Env(SetAddr(id, Some(addr))), cfg);
    more, u := Go(s, more, u, Move(Ok), cfg);
  }

  lemma GoPrepare(s: SState, acts: seq<SAction>, t: SState, cfg: Settings, id: PodId, addr: Address)
    returns (more: seq<SAction>, u: SState)
    requires Goes(s, acts, t, cfg) && At(t, cfg, PrepRead(id, addr))
    requires t.world.disk.endpoint.Some? ==> t.world.disk.endpoint.value.addr == addr
    ensures Goes(s, more, u, cfg) && At(u, cfg, Probe(id, addr))
  {
    more, u := Go(s, acts, t, Move(Ok), cfg);
    if u.cur.value.pc.PrepWrite? {
      more, u := Go(s, more, u, Move(Ok), cfg);
    }
  }

  lemma GoLaunch(s: SState, acts: seq<SAction>, t: SState, cfg: Settings, id: PodId, addr: Address)
    returns (more: seq<SAction>)
    requires Goes(s, acts, t, cfg) && At(t, cfg, Probe(id, addr))
    ensures ComesUp(s, more, cfg)
  {
    var known := t.world.disk.knownHosts;
    var key := if addr in known then known[addr] else 0;
    var launching, u := Go(s, acts, t, Move(SshOk(key)), cfg);
    var v: SState;
    more, v := Go(s, launching, u, Move(SshOk(key)), cfg);
    assert more[..|more| - 1] == launching;
  }

  lemma GoUp(s: SState, acts: seq<SAction>, t: SState, cfg: Settings, pod: Snapshot) returns (more: seq<SAction>)
    requires Goes(s, acts, t, cfg) && At(t, cfg, UpReadSpec(pod)) && Live(t.world.pods, pod.id)
    requires t.world.pods[pod.id].status == pod.status && Usable(pod.status, t.world.disk.spec, cfg)
    ensures ComesUp(s, more, cfg)
  {
    var u: SState, id: PodId, addr: Address;
    if t.world.disk.spec.value == cfg.fingerprint {
      more, u := GoReuse(s, acts, t, cfg, pod);
      id := pod.id;
    } else {
      more, u, id := GoReplace(s, acts, t, cfg, pod);
      more, u := GoForgetOld(s, more, u, cfg, pod.id, id);
      more, u := GoSaveNew(s, more, u, cfg, id);
    }
    more, u, addr := GoPoll(s, more, u, cfg, id);
    more, u := GoPrepare(s, more, u, cfg, id, addr);
    more := GoLaunch(s, more, u, cfg, id, addr);
  }

  /** From a recoverable state the very next `up` can come up. */
  lemma NextUpComesUp(s: SState, cfg: Settings) returns (acts: seq<SAction>)
    requires Binding.Inv(s) && s.cur.None? && Recoverable(s.world, cfg)
    ensures ComesUp(s, acts, cfg)
  {
    var t: SState, id: PodId, addr: Address;
    acts, t := GoSelect(s, cfg);
    var d := s.world.disk;
    if d.podId.Some? && Live(s.world.pods, d.podId.value) {
      acts := GoUp(s, acts, t, cfg, Snapshot(d.podId.value, s.world.pods[d.podId.value].status));
    } else if NoneNamed(s.world.pods, cfg.podName) {
      acts, t, id := GoCreate(s, acts, t, cfg);
      acts, t := GoSave(s, acts, t, cfg, id);
      acts, t, addr := GoPoll(s, acts, t, cfg, id);
      acts, t := GoPrepare(s, acts, t, cfg, id, addr);
      acts := GoLaunch(s, acts, t, cfg, id, addr);
    } else {
      id :| UsableNamed(s.world.pods, s.world.disk.spec, cfg, id);
      acts, t := GoAdopt(s, acts, t, cfg, id);
      acts := GoUp(s, acts, t, cfg, Snapshot(id, s.world.pods[id].status));
    }
  }

  /**
   Over all calm continuations, of any number of bodies: one of them comes up exactly if the state is
   recoverable.
   */
  lemma ComesUpIffRecoverable(s: SState, cfg: Settings)
    requires Binding.Inv(s) && s.cur.None?
    ensures (exists acts :: ComesUp(s, acts, cfg)) <==> Recoverable(s.world, cfg)
  {
    if Recoverable(s.world, cfg) {
      var acts := NextUpComesUp(s, cfg);
    } else {
      forall acts
        ensures !ComesUp(s, acts, cfg)
      {
        if acts != [] && SRun(s, acts).Some? && Along(s, acts, CalmFor(cfg)) {
          RunKeepsLost(s, acts[..|acts| - 1], cfg);
        }
      }
    }
  }

  /**
   Cutting a first create between its two writes is final: until somebody else deletes the pod, no `up`
   with any settings comes up again.
   */
  lemma CutBeforeSpecIsFinal(s: SState, before: seq<SAction>, cfg: Settings)
    requires Fresh(s) && SRun(s, before).Some?
    requires var t := SRun(s, before).value;
             && t.cur.Some? && t.cur.value.pc.UpWriteSpec? && t.world.disk.spec.None?
             && Live(t.world.pods, t.cur.value.pc.id)
    ensures forall acts :: !ComesUp(SStep(SRun(s, before).value, Cut).value, acts, cfg)
  {
    Binding.RunKeepsInv(s, before);
    var t := SRun(s, before).value;
    Binding.StepKeepsInv(t, Cut);
    ComesUpIffRecoverable(SStep(t, Cut).value, cfg);
  }
}
