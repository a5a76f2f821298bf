/**
 What every step keeps about the four files: the endpoint record names the persisted pod, and
 `known_hosts` holds no address but the recorded one.  The per-point facts in `Coherent` say that
 what a lock holder has read is still what the disk says.
 */
module Binding {
  import opened Wrappers
  import opened Lifecycle

  ghost predicate Bound(d: Disk) {
    d.endpoint.Some? ==> d.podId == Some(d.endpoint.value.podId)
  }

  ghost predicate Contained(d: Disk) {
    forall a :: a in d.knownHosts ==> d.endpoint.Some? && a == d.endpoint.value.addr
  }

  /** The locals of a lock holder agree with the disk.  The recovery `ConfGet` is never reached. */
  ghost predicate Coherent(d: Disk, pc: Pc) {
    && (pc.SelGet? ==> d.podId == Some(pc.id))
    && (pc.SelCompare? ==> d.podId == Some(pc.id))
    && (pc.SelForgetId? ==> d.podId.Some? && d.endpoint.None?)
    && (pc.SelForgetSpec? ==> d.podId.None?)
    && (pc.SelFind? ==> d.podId.None?)
    && (pc.SelWriteId? ==> d.podId.None?)
    && (pc.ConfRead? ==> d.podId == Some(pc.id)
                         && (pc.ret == ToPoll(pc.id) || (pc.ret.ToForgetId? && d.endpoint.None?)))
    && !pc.ConfGet?
    && (pc.DelRead? ==> pc.ret.ToForgetId? && d.endpoint.Some? && d.endpoint.value.podId == pc.id)
    && (pc.DelKeygen? ==> pc.ret.ToForgetId? && d.endpoint == Some(pc.rec))
    && (pc.DelUnlink? ==> pc.ret.ToForgetId? && d.endpoint == Some(pc.rec) && d.knownHosts == map[])
    && (pc.UpCreate? ==> d.podId.None?)
    && (pc.UpReconcile? ==> d.podId.None?)
    && (pc.UpWriteId? ==> d.podId.None?)
    && (pc.UpWriteSpec? ==> d.podId == Some(pc.id) && d.endpoint.None?)
    && (pc.UpReadSpec? ==> d.podId == Some(pc.pod.id))
    && (pc.UpStart? ==> d.podId == Some(pc.id))
    && (pc.RepStop? ==> d.podId == Some(pc.id))
    && (pc.RepCreate? ==> d.podId == Some(pc.id))
    && (pc.RepRead? ==> d.podId == Some(pc.id))
    && (pc.RepKeygen? ==> d.endpoint == Some(pc.rec))
    && (pc.RepUnlink? ==> d.endpoint == Some(pc.rec) && d.knownHosts == map[])
    && (pc.RepWriteId? ==> d.podId.Some? && d.endpoint.None?)
    && (pc.RepWriteSpec? ==> d.podId == Some(pc.newId) && d.endpoint.None?)
    && (pc.UpPoll? ==> d.podId == Some(pc.id))
    && (pc.PrepRead? ==> d.podId == Some(pc.id))
    && (pc.PrepKeygen? ==> d.endpoint == Some(pc.rec) && pc.rec.addr != pc.addr)
    && (pc.PrepWrite? ==> d.podId == Some(pc.id) && d.knownHosts == map[])
    && (pc.Probe? ==> d.podId == Some(pc.id) && d.endpoint == Some(Record(pc.id, pc.addr)))
    && (pc.RePoll? ==> d.podId == Some(pc.id) && d.endpoint == Some(Record(pc.id, pc.addr)))
    && (pc.Remote? ==> d.podId == Some(pc.id) && d.endpoint == Some(Record(pc.id, pc.addr)))
    && (pc.DownStop? ==> d.podId == Some(pc.id))
  }

  ghost predicate InvAt(w: World, pc: Pc) {
    Bound(w.disk) && Contained(w.disk) && Coherent(w.disk, pc)
  }

  ghost predicate Inv(s: SState) {
    Bound(s.world.disk) && Contained(s.world.disk) && (s.cur.Some? ==> Coherent(s.world.disk, s.cur.value.pc))
  }

  lemma OnlyEntryRemoved(d: Disk, rec: Record)
    requires Contained(d) && d.endpoint == Some(rec)
    ensures d.knownHosts - {rec.addr} == map[]
  {
  }

  lemma SelectKeepsInv(w: World, cmd: Command, pc: Pc, c: Choice)
    requires InSelect(pc) && InvAt(w, pc)
    ensures var n := SelectStep(w, cmd, pc, c); n.Then? ==> InvAt(n.w, n.pc)
  {
  }

  lemma AdoptKeepsInv(w: World, cmd: Command, pc: Pc, c: Choice)
    requires InAdopt(pc) && InvAt(w, pc)
    ensures var n := AdoptStep(w, cmd, pc, c); n.Then? ==> InvAt(n.w, n.pc)
  {
  }

  lemma ForgetKeepsInv(w: World, cmd: Command, pc: Pc, c: Choice)
    requires InForget(pc) && InvAt(w, pc)
    ensures var n := ForgetStep(w, cmd, pc, c); n.Then? ==> InvAt(n.w, n.pc)
  {
    if pc.DelKeygen? {
      OnlyEntryRemoved(w.disk, pc.rec);
    }
  }

  lemma CreateKeepsInv(w: World, cmd: Command, pc: Pc, c: Choice)
    requires InCreate(pc) && InvAt(w, pc)
    ensures var n := CreateStep(w, cmd, pc, c); n.Then? ==> InvAt(n.w, n.pc)
  {
  }

  lemma ReadSpecKeepsInv(w: World, cmd: Command, pod: Snapshot, c: Choice)
    requires InvAt(w, UpReadSpec(pod))
    ensures var n := ReadSpecStep(w, cmd, pod, c); n.Then? ==> InvAt(n.w, n.pc)
  {
    var n := ReadSpecStep(w, cmd, pod, c);
    assert n.Then? ==> n.w.disk == w.disk;
    assert n.Then? ==>
        n.pc == Raise(cmd) || n.pc == RepStop(pod.id) || n.pc == RepCreate(pod.id) || n.pc == UpStart(pod.id)
        || n.pc == ConfRead(pod.id, ToPoll(pod.id));
  }

  lemma ReuseKeepsInv(w: World, cmd: Command, pc: Pc, c: Choice)
    requires InReuse(pc) && InvAt(w, pc)
    ensures var n := ReuseStep(w, cmd, pc, c); n.Then? ==> InvAt(n.w, n.pc)
  {
    if pc.UpReadSpec? {
      ReadSpecKeepsInv(w, cmd, pc.pod, c);
    }
  }

  lemma ReplaceKeepsInv(w: World, cmd: Command, pc: Pc, c: Choice)
    requires InReplace(pc) && InvAt(w, pc)
    ensures var n := ReplaceStep(w, cmd, pc, c); n.Then? ==> InvAt(n.w, n.pc)
  {
    if pc.RepKeygen? {
      OnlyEntryRemoved(w.disk, pc.rec);
    }
  }

  lemma PrepareKeepsInv(w: World, cmd: Command, pc: Pc, c: Choice)
    requires InPrepare(pc) && InvAt(w, pc)
    ensures var n := PrepareStep(w, cmd, pc, c); n.Then? ==> InvAt(n.w, n.pc)
  {
    if pc.PrepKeygen? {
      OnlyEntryRemoved(w.disk, pc.rec);
    }
  }

  lemma SshKeepsInv(w: World, cmd: Command, pc: Pc, c: Choice)
    requires (pc.Probe? || pc.Remote?) && InvAt(w, pc)
    ensures var n := ConnectStep(w, cmd, pc, c); n.Then? ==> InvAt(n.w, n.pc)
  {
  }

  lemma ConnectKeepsInv(w: World, cmd: Command, pc: Pc, c: Choice)
    requires InConnect(pc) && InvAt(w, pc)
    ensures var n := ConnectStep(w, cmd, pc, c); n.Then? ==> InvAt(n.w, n.pc)
  {
    if !pc.RePoll? {
      SshKeepsInv(w, cmd, pc, c);
    }
  }

  lemma FinishKeepsInv(w: World, cmd: Command, pc: Pc, c: Choice)
    requires InFinish(pc) && InvAt(w, pc)
    ensures var n := FinishStep(w, cmd, pc, c); n.Then? ==> InvAt(n.w, n.pc)
  {
  }

  lemma BodyKeepsInv(w: World, cmd: Command, pc: Pc, c: Choice)
    requires InvAt(w, pc)
    ensures var n := BodyStep(w, cmd, pc, c); n.Then? ==> InvAt(n.w, n.pc)
  {
    if InSelect(pc) {
      SelectKeepsInv(w, cmd, pc, c);
      assert BodyStep(w, cmd, pc, c) == SelectStep(w, cmd, pc, c);
    } else if InAdopt(pc) {
      AdoptKeepsInv(w, cmd, pc, c);
      assert BodyStep(w, cmd, pc, c) == AdoptStep(w, cmd, pc, c);
    } else if InForget(pc) {
      ForgetKeepsInv(w, cmd, pc, c);
      assert BodyStep(w, cmd, pc, c) == ForgetStep(w, cmd, pc, c);
    } else if InCreate(pc) {
      CreateKeepsInv(w, cmd, pc, c);
      assert BodyStep(w, cmd, pc, c) == CreateStep(w, cmd, pc, c);
    } else if InReuse(pc) {
      ReuseKeepsInv(w, cmd, pc, c);
      assert BodyStep(w, cmd, pc, c) == ReuseStep(w, cmd, pc, c);
    } else if InReplace(pc) {
      ReplaceKeepsInv(w, cmd, pc, c);
      assert BodyStep(w, cmd, pc, c) == ReplaceStep(w, cmd, pc, c);
    } else if InPrepare(pc) {
      PrepareKeepsInv(w, cmd, pc, c);
      assert BodyStep(w, cmd, pc, c) == PrepareStep(w, cmd, pc, c);
    } else if InConnect(pc) {
      ConnectKeepsInv(w, cmd, pc, c);
      assert BodyStep(w, cmd, pc, c) == ConnectStep(w, cmd, pc, c);
    } else if InFinish(pc) {
      FinishKeepsInv(w, cmd, pc, c);
      assert BodyStep(w, cmd, pc, c) == FinishStep(w, cmd, pc, c);
    }
  }

  lemma StepKeepsInv(s: SState, a: SAction)
    requires Inv(s) && SStep(s, a).Some?
    ensures Inv(SStep(s, a).value)
  {
    if a.Move? {
      BodyKeepsInv(s.world, s.cur.value.cmd, s.cur.value.pc, a.c);
    }
  }

  lemma {:induction false} RunKeepsInv(s: SState, acts: seq<SAction>)
    requires Fresh(s) && SRun(s, acts).Some?
    ensures Inv(SRun(s, acts).value)
  {
    if acts != [] {
      RunKeepsInv(s, acts[..|acts| - 1]);
      StepKeepsInv(SRun(s, acts[..|acts| - 1]).value, acts[|acts| - 1]);
    }
  }

  /** The steps that refuse because the record belongs to another pod. */
  ghost predicate Refuses(w: World, pc: Pc) {
    match pc
    case DelRead(id, _) => w.disk.endpoint.Some? && w.disk.endpoint.value.podId != id
    case RepRead(id, _) => w.disk.endpoint.Some? && w.disk.endpoint.value.podId != id
    case PrepRead(id, _) => w.disk.endpoint.Some? && w.disk.endpoint.value.podId != id
    case _ => false
  }

  /** The recovery from a record left behind by an interrupted replacement. */
  ghost predicate RecoversStaleRecord(pc: Pc) {
    pc.ConfGet? || (pc.DelRead? && pc.ret.ToPoll?) || (pc.DelKeygen? && pc.ret.ToPoll?)
    || (pc.DelUnlink? && pc.ret.ToPoll?)
  }

  /** From a fresh directory no run refuses a foreign record, and none needs the stale recovery. */
  lemma RefusalsUnreachable(s: SState, acts: seq<SAction>)
    requires Fresh(s) && SRun(s, acts).Some? && SRun(s, acts).value.cur.Some?
    ensures var t := SRun(s, acts).value;
            !Refuses(t.world, t.cur.value.pc) && !RecoversStaleRecord(t.cur.value.pc)
  {
    RunKeepsInv(s, acts);
  }
}
