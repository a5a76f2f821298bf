/**
 Host key continuity: when two connections made while the endpoint record stays the same are sure
 to have met the same host key, and the one way in which they are not.
 */
module HostKeys {
  import opened Wrappers
  import opened Lifecycle
  import Binding

  /**
   Whether the entry of the recorded endpoint is still the one that the last connection left.
   `OpenHere`: this lock-held run removed it and has not changed the record yet.
   `Torn`: an earlier lock-held run removed it and ended without changing the record.
   */
  datatype Tear = Whole | OpenHere | Torn

  /** `key` is the key of the last accepted key exchange since the record last changed. */
  datatype Pin = Pin(key: Option<Key>, tear: Tear)

  function Advance(p: Pin, e: Event): Pin {
    match e
    case Began => if p.tear == OpenHere then p.(tear := Torn) else p
    case RemovedKey(_) => p.(tear := OpenHere)
    case RecordSet(_) => Pin(None, Whole)
    case RecordCleared => Pin(None, Whole)
    case Trusted(_, key) => Pin(Some(key), Whole)
    case _ => p
  }

  function Pinned(log: seq<Event>): Pin {
    if log == [] then Pin(None, Whole) else Advance(Pinned(log[..|log| - 1]), log[|log| - 1])
  }

  lemma Append(log: seq<Event>, e: Event)
    ensures Pinned(log + [e]) == Advance(Pinned(log), e)
  {
    assert (log + [e])[..|log|] == log;
  }

  // ----- key changes in a log -----

  /** At position `i` a connection met another key than the one before it, and no record change in between. */
  ghost predicate KeyChanged(log: seq<Event>, i: nat)
    requires i < |log|
  {
    log[i].Trusted? && Pinned(log[..i]).key.Some? && Pinned(log[..i]).key.value != log[i].key
  }

  ghost predicate ChangesOnlyTorn(log: seq<Event>) {
    forall i: nat :: i < |log| && KeyChanged(log, i) ==> Pinned(log[..i]).tear == Torn
  }

  lemma AppendChange(log: seq<Event>, e: Event)
    requires ChangesOnlyTorn(log)
    requires e.Trusted? && Pinned(log).key.Some? && Pinned(log).key.value != e.key ==> Pinned(log).tear == Torn
    ensures ChangesOnlyTorn(log + [e])
  {
    var longer := log + [e];
    assert longer[..|log|] == log;
    forall i: nat | i < |longer| && KeyChanged(longer, i)
      ensures Pinned(longer[..i]).tear == Torn
    {
      if i < |log| {
        assert longer[..i] == log[..i];
        assert KeyChanged(log, i);
      }
    }
  }

  /** `known_hosts`, exactly, as a function of the log and the record. */
  ghost predicate KnownHostsFollowLog(w: World) {
    var p := Pinned(w.log);
    && (p.key.Some? ==> w.disk.endpoint.Some?)
    && w.disk.knownHosts ==
       if p.key.Some? && p.tear == Whole then map[w.disk.endpoint.value.addr := p.key.value] else map[]
  }

  ghost predicate Continuous(w: World) {
    KnownHostsFollowLog(w) && ChangesOnlyTorn(w.log)
  }

  /** Between a removal and the record change that belongs to it, or after a failure there. */
  ghost predicate MayBeOpen(pc: Pc) {
    pc.DelUnlink? || pc.RepUnlink? || pc.PrepWrite? || pc.DownClean? || pc.Ended?
  }

  ghost predicate PinAt(w: World, cmd: Command, pc: Pc) {
    Continuous(w) && (Pinned(w.log).tear == OpenHere ==> MayBeOpen(pc))
  }

  lemma NeutralPin(w: World, e: Event)
    requires Continuous(w) && (e.Answered404? || e.Reported? || e.Mismatch? || e.Created?)
    ensures Pinned(Logged(w, e).log) == Pinned(w.log) && ChangesOnlyTorn(Logged(w, e).log)
  {
    Append(w.log, e);
    AppendChange(w.log, e);
  }

  lemma QuietPin(w: World, after: World)
    requires Continuous(w) && after.disk.endpoint == w.disk.endpoint && after.disk.knownHosts == w.disk.knownHosts
    requires Pinned(after.log) == Pinned(w.log) && ChangesOnlyTorn(after.log)
    ensures Continuous(after)
  {
  }

  lemma RecordPin(w: World, rec: Option<Record>)
    requires ChangesOnlyTorn(w.log) && w.disk.knownHosts == map[]
    ensures Continuous(WithRecord(w, rec)) && Pinned(WithRecord(w, rec).log).tear == Whole
  {
    var e := if rec.Some? then RecordSet(rec.value) else RecordCleared;
    Append(w.log, e);
    AppendChange(w.log, e);
  }

  lemma RemovalPin(w: World, rec: Record)
    requires Continuous(w) && Binding.Contained(w.disk) && w.disk.endpoint == Some(rec)
    ensures Continuous(WithoutKey(w, rec))
  {
    Append(w.log, RemovedKey(rec));
    AppendChange(w.log, RemovedKey(rec));
    Binding.OnlyEntryRemoved(w.disk, rec);
  }

  lemma TrustPin(w: World, addr: Address, key: Key)
    requires Continuous(w) && Binding.Contained(w.disk) && Pinned(w.log).tear != OpenHere
    requires w.disk.endpoint.Some? && w.disk.endpoint.value.addr == addr && Accepts(w.disk.knownHosts, addr, key)
    ensures Continuous(WithTrust(w, addr, key)) && Pinned(WithTrust(w, addr, key).log).tear == Whole
  {
    Append(w.log, Trusted(addr, key));
    AppendChange(w.log, Trusted(addr, key));
    assert w.disk.knownHosts[addr := key] == map[addr := key];
  }

  lemma ReadSpecPin(w: World, cmd: Command, pod: Snapshot, c: Choice)
    requires PinAt(w, cmd, UpReadSpec(pod))
    ensures var n := ReadSpecStep(w, cmd, pod, c); n.Then? ==> PinAt(n.w, cmd, n.pc)
  {
    if w.disk.spec.Some? && w.disk.spec.value != cmd.cfg.fingerprint && c.Ok? {
      var e := Mismatch(pod.id, w.disk.spec.value, cmd.cfg.fingerprint);
      NeutralPin(w, e);
      QuietPin(w, Logged(w, e));
    }
  }

  lemma SelectPin(w: World, cmd: Command, pc: Pc, c: Choice)
    requires InSelect(pc) && PinAt(w, cmd, pc)
    ensures var n := SelectStep(w, cmd, pc, c); n.Then? ==> PinAt(n.w, cmd, n.pc)
  {
    if pc.SelGet? && !Live(w.pods, pc.id) {
      NeutralPin(w, Answered404(pc.id));
      QuietPin(w, Logged(w, Answered404(pc.id)));
    }
  }

  lemma AdoptPin(w: World, cmd: Command, pc: Pc, c: Choice)
    requires InAdopt(pc) && PinAt(w, cmd, pc)
    ensures var n := AdoptStep(w, cmd, pc, c); n.Then? ==> PinAt(n.w, cmd, n.pc)
  {
  }

  lemma ForgetPin(w: World, cmd: Command, pc: Pc, c: Choice)
    requires InForget(pc) && Binding.InvAt(w, pc) && PinAt(w, cmd, pc)
    ensures var n := ForgetStep(w, cmd, pc, c); n.Then? ==> PinAt(n.w, cmd, n.pc)
  {
    match pc
    case DelKeygen(rec, _) => RemovalPin(w, rec);
    case DelUnlink(_, _) => RecordPin(w, None);
    case ConfRead(_, _) =>
    case DelRead(_, _) =>
  }

  lemma CreatePin(w: World, cmd: Command, pc: Pc, c: Choice)
    requires InCreate(pc) && PinAt(w, cmd, pc)
    ensures var n := CreateStep(w, cmd, pc, c); n.Then? ==> PinAt(n.w, cmd, n.pc)
  {
    if pc.UpCreate? && (c.CreateOk? || c.CreateLost?) {
      NeutralPin(w, Created(c.id, cmd.cfg.fingerprint, None));
      QuietPin(w, WithPod(w, c.id, cmd.cfg, None));
    }
  }

  lemma ReplacementPin(w: World, cmd: Command, id: PodId, c: Choice)
    requires PinAt(w, cmd, RepCreate(id))
    ensures var n := ReuseStep(w, cmd, RepCreate(id), c); n.Then? ==> PinAt(n.w, cmd, n.pc)
  {
    if c.CreateOk? || c.CreateLost? {
      NeutralPin(w, Created(c.id, cmd.cfg.fingerprint, Some(id)));
      QuietPin(w, WithPod(w, c.id, cmd.cfg, Some(id)));
    }
  }

  lemma ReusePin(w: World, cmd: Command, pc: Pc, c: Choice)
    requires InReuse(pc) && PinAt(w, cmd, pc)
    ensures var n := ReuseStep(w, cmd, pc, c); n.Then? ==> PinAt(n.w, cmd, n.pc)
  {
    match pc
    case UpReadSpec(pod) => ReadSpecPin(w, cmd, pod, c);
    case UpStart(id) =>
      QuietPin(w, w.(pods := WithStatus(w.pods, id, Exited, Running)));
    case RepStop(id) =>
      QuietPin(w, w.(pods := WithStatus(w.pods, id, Running, Exited)));
    case RepCreate(id) => ReplacementPin(w, cmd, id, c);
  }

  lemma ReplacePin(w: World, cmd: Command, pc: Pc, c: Choice)
    requires InReplace(pc) && Binding.InvAt(w, pc) && PinAt(w, cmd, pc)
    ensures var n := ReplaceStep(w, cmd, pc, c); n.Then? ==> PinAt(n.w, cmd, n.pc)
  {
    match pc
    case RepKeygen(rec, _) => RemovalPin(w, rec);
    case RepUnlink(_, _) => RecordPin(w, None);
    case _ =>
  }

  lemma PreparePin(w: World, cmd: Command, pc: Pc, c: Choice)
    requires InPrepare(pc) && Binding.InvAt(w, pc) && PinAt(w, cmd, pc)
    ensures var n := PrepareStep(w, cmd, pc, c); n.Then? ==> PinAt(n.w, cmd, n.pc)
  {
    match pc
    case PrepKeygen(rec, _) => RemovalPin(w, rec);
    case PrepWrite(id, addr) => RecordPin(w, Some(Record(id, addr)));
    case UpPoll(id) =>
      if Live(w.pods, id) && w.pods[id].addr.Some? {
        NeutralPin(w, Reported(id, w.pods[id].addr.value));
      }
    case _ =>
  }

  lemma ConnectPin(w: World, cmd: Command, pc: Pc, c: Choice)
    requires InConnect(pc) && Binding.InvAt(w, pc) && PinAt(w, cmd, pc)
    ensures var n := ConnectStep(w, cmd, pc, c); n.Then? ==> PinAt(n.w, cmd, n.pc)
  {
    var n := ConnectStep(w, cmd, pc, c);
    if n.Then? && n.w.log != w.log {
      if pc.RePoll? {
        NeutralPin(w, Reported(pc.id, w.pods[pc.id].addr.value));
      } else {
        TrustPin(w, pc.addr, if c.SshOk? then c.key else c.seen.value);
      }
    }
  }

  lemma FinishPin(w: World, cmd: Command, pc: Pc, c: Choice)
    requires InFinish(pc) && PinAt(w, cmd, pc)
    ensures var n := FinishStep(w, cmd, pc, c); n.Then? ==> PinAt(n.w, cmd, n.pc)
  {
  }

  lemma BodyPin(w: World, cmd: Command, pc: Pc, c: Choice)
    requires Binding.InvAt(w, pc) && PinAt(w, cmd, pc)
    ensures var n := BodyStep(w, cmd, pc, c); n.Then? ==> PinAt(n.w, cmd, n.pc)
  {
    if InSelect(pc) {
      SelectPin(w, cmd, pc, c);
      assert BodyStep(w, cmd, pc, c) == SelectStep(w, cmd, pc, c);
    } else if InAdopt(pc) {
      AdoptPin(w, cmd, pc, c);
      assert BodyStep(w, cmd, pc, c) == AdoptStep(w, cmd, pc, c);
    } else if InForget(pc) {
      ForgetPin(w, cmd, pc, c);
      assert BodyStep(w, cmd, pc, c) == ForgetStep(w, cmd, pc, c);
    } else if InCreate(pc) {
      CreatePin(w, cmd, pc, c);
      assert BodyStep(w, cmd, pc, c) == CreateStep(w, cmd, pc, c);
    } else if InReuse(pc) {
      ReusePin(w, cmd, pc, c);
      assert BodyStep(w, cmd, pc, c) == ReuseStep(w, cmd, pc, c);
    } else if InReplace(pc) {
      ReplacePin(w, cmd, pc, c);
      assert BodyStep(w, cmd, pc, c) == ReplaceStep(w, cmd, pc, c);
    } else if InPrepare(pc) {
      PreparePin(w, cmd, pc, c);
      assert BodyStep(w, cmd, pc, c) == PrepareStep(w, cmd, pc, c);
    } else if InConnect(pc) {
      ConnectPin(w, cmd, pc, c);
      assert BodyStep(w, cmd, pc, c) == ConnectStep(w, cmd, pc, c);
    } else if InFinish(pc) {
      FinishPin(w, cmd, pc, c);
      assert BodyStep(w, cmd, pc, c) == FinishStep(w, cmd, pc, c);
    }
  }

  ghost predicate PinIn(s: SState) {
    Continuous(s.world) && (s.cur.Some? ==> PinAt(s.world, s.cur.value.cmd, s.cur.value.pc))
  }

  lemma {:induction false} RunKeepsPin(s: SState, acts: seq<SAction>)
    requires Fresh(s) && SRun(s, acts).Some?
    ensures PinIn(SRun(s, acts).value)
  {
    if acts != [] {
      var init, a := acts[..|acts| - 1], acts[|acts| - 1];
      RunKeepsPin(s, init);
      Binding.RunKeepsInv(s, init);
      var t := SRun(s, init).value;
      match a
      case Begin(_) => Append(t.world.log, Began); AppendChange(t.world.log, Began);
      case Move(c) => BodyPin(t.world, t.cur.value.cmd, t.cur.value.pc, c);
      case _ =>
    }
  }

  // ----- what a run guarantees -----

  predicate Resets(e: Event) {
    e.RecordSet? || e.RecordCleared? || e.Trusted?
  }

  /** The entry was removed at `removal` and the record has not changed since, nor has anything been enrolled. */
  predicate LastRemoval(log: seq<Event>, removal: nat) {
    removal < |log| && log[removal].RemovedKey?
    && forall i :: removal < i < |log| ==> !Resets(log[i]) && !log[i].RemovedKey?
  }

  /** ... and another lock-held run began after it. */
  predicate TornAt(log: seq<Event>, removal: nat, later: nat) {
    LastRemoval(log, removal) && removal < later < |log| && log[later].Began?
  }

  lemma {:induction false} OpenMeans(log: seq<Event>, removal: nat)
    requires LastRemoval(log, removal)
    ensures Pinned(log).tear == if exists later :: TornAt(log, removal, later) then Torn else OpenHere
  {
    var n := |log| - 1;
    if removal < n {
      OpenMeans(log[..n], removal);
      if log[n].Began? {
        assert TornAt(log, removal, n);
      } else {
        assert forall later :: TornAt(log, removal, later) <==> TornAt(log[..n], removal, later);
      }
    }
  }

  lemma {:induction false} NotWholeMeans(log: seq<Event>) returns (removal: nat)
    requires Pinned(log).tear != Whole
    ensures LastRemoval(log, removal)
  {
    var n := |log| - 1;
    if log[n].RemovedKey? {
      removal := n;
    } else {
      removal := NotWholeMeans(log[..n]);
    }
  }

  /** `Torn` means, exactly, a removal and a later lock-held run with no record change, connection or removal since. */
  lemma TornMeans(log: seq<Event>)
    ensures Pinned(log).tear == Torn <==> exists removal, later :: TornAt(log, removal, later)
  {
    if Pinned(log).tear != Whole {
      var removal := NotWholeMeans(log);
      OpenMeans(log, removal);
    }
    if removal, later :| TornAt(log, removal, later) {
      OpenMeans(log, removal);
    }
  }

  /** Two connections with no record change and no removal between them met the same key. */
  lemma {:induction false} SameKeyWithoutRemoval(s: SState, acts: seq<SAction>, i: nat, j: nat)
    requires Fresh(s) && SRun(s, acts).Some?
    requires i < j < |SRun(s, acts).value.world.log|
    requires var log := SRun(s, acts).value.world.log;
             && log[i].Trusted? && log[j].Trusted?
             && forall m :: i < m < j ==> !log[m].RecordSet? && !log[m].RecordCleared? && !log[m].RemovedKey?
    ensures SRun(s, acts).value.world.log[i].key == SRun(s, acts).value.world.log[j].key
  {
    var log := SRun(s, acts).value.world.log;
    RunKeepsPin(s, acts);
    WholeFrom(log, i, j);
    assert !KeyChanged(log, j);
  }

  lemma {:induction false} WholeFrom(log: seq<Event>, i: nat, j: nat)
    requires i < j <= |log| && log[i].Trusted? && ChangesOnlyTorn(log)
    requires forall m :: i < m < j ==> !log[m].RecordSet? && !log[m].RecordCleared? && !log[m].RemovedKey?
    ensures Pinned(log[..j]) == Pin(Some(log[i].key), Whole)
  {
    assert log[..j][..j - 1] == log[..j - 1];
    if i < j - 1 {
      WholeFrom(log, i, j - 1);
      assert !KeyChanged(log, j - 1);
    }
  }

  /**
   At a point that is about to connect, a key was pinned since the record last changed.  SSH accepts
   that key only, exactly when no earlier lock-held run removed the entry and ended before its
   record change.
   */
  lemma PinnedKeyIsExclusiveUnlessTorn(s: SState, acts: seq<SAction>)
    requires Fresh(s) && SRun(s, acts).Some? && SRun(s, acts).value.cur.Some?
    requires var t := SRun(s, acts).value;
             (t.cur.value.pc.Probe? || t.cur.value.pc.Remote?) && Pinned(t.world.log).key.Some?
    ensures var t := SRun(s, acts).value;
            (forall key :: Accepts(t.world.disk.knownHosts, t.cur.value.pc.addr, key)
               ==> key == Pinned(t.world.log).key.value)
            <==> Pinned(t.world.log).tear != Torn
  {
    RunKeepsPin(s, acts);
    Binding.RunKeepsInv(s, acts);
    var t := SRun(s, acts).value;
    if Pinned(t.world.log).tear == Torn {
      assert Accepts(t.world.disk.knownHosts, t.cur.value.pc.addr, Pinned(t.world.log).key.value + 1);
    }
  }
}
