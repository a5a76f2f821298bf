/**
 What the log of a run says about trust: every removal from `known_hosts` has its evidence in the
 same lock-held run.
 */
module Evidence {
  import opened Wrappers
  import opened Lifecycle
  import Binding

  /** The events of the current lock-held run. */
  ghost function Section(log: seq<Event>): seq<Event> {
    if log == [] || log[|log| - 1].Began? then []
    else Section(log[..|log| - 1]) + [log[|log| - 1]]
  }

  /** The provider reported another address for the recorded pod. */
  ghost predicate ReportedElsewhere(section: seq<Event>, rec: Record) {
    exists a :: a != rec.addr && Reported(rec.podId, a) in section
  }

  ghost predicate Mismatched(section: seq<Event>, id: PodId, expected: Fingerprint) {
    exists saved :: saved != expected && Mismatch(id, saved, expected) in section
  }

  /** The controller saw that the specification of pod `id` differs, and then created its replacement. */
  ghost predicate Replaced(section: seq<Event>, id: PodId) {
    exists j :: 0 <= j < |section| && ReplacedAt(section, id, j)
  }

  ghost predicate ReplacedAt(section: seq<Event>, id: PodId, j: nat)
    requires j < |section|
  {
    && section[j].Created?
    && section[j].replaced == Some(id)
    && Mismatched(section[..j], id, section[j].fingerprint)
  }

  ghost predicate Justifies(section: seq<Event>, rec: Record) {
    Answered404(rec.podId) in section || ReportedElsewhere(section, rec) || Replaced(section, rec.podId)
  }

  ghost predicate AllJustified(log: seq<Event>) {
    forall i :: 0 <= i < |log| && log[i].RemovedKey? ==> Justifies(Section(log[..i]), log[i].rec)
  }

  /** What a lock holder has seen by the time it reaches `pc`. */
  ghost predicate Seen(section: seq<Event>, cmd: Command, pc: Pc) {
    && (pc.SelCompare? || pc.DelRead? ==> Answered404(pc.id) in section)
    && (pc.DelKeygen? ==> Answered404(pc.rec.podId) in section)
    && (pc.RepStop? || pc.RepCreate? ==> Mismatched(section, pc.id, cmd.cfg.fingerprint))
    && (pc.RepRead? ==> Replaced(section, pc.id))
    && (pc.RepKeygen? ==> Replaced(section, pc.rec.podId))
    && (pc.PrepRead? ==> Reported(pc.id, pc.addr) in section)
    && (pc.PrepKeygen? ==> pc.addr != pc.rec.addr && Reported(pc.rec.podId, pc.addr) in section)
  }

  ghost predicate EvidenceAt(w: World, cmd: Command, pc: Pc) {
    AllJustified(w.log) && Seen(Section(w.log), cmd, pc)
  }

  lemma Append(log: seq<Event>, e: Event)
    requires AllJustified(log) && (e.RemovedKey? ==> Justifies(Section(log), e.rec))
    ensures AllJustified(log + [e])
    ensures Section(log + [e]) == if e.Began? then [] else Section(log) + [e]
  {
    var longer := log + [e];
    assert longer[..|log|] == log;
    forall i | 0 <= i < |longer| && longer[i].RemovedKey?
      ensures Justifies(Section(longer[..i]), longer[i].rec)
    {
      if i < |log| {
        assert longer[..i] == log[..i];
      }
    }
  }

  lemma CreationReplaces(section: seq<Event>, e: Event, id: PodId)
    requires e.Created? && e.replaced == Some(id) && Mismatched(section, id, e.fingerprint)
    ensures Replaced(section + [e], id)
  {
    assert (section + [e])[..|section|] == section;
    assert ReplacedAt(section + [e], id, |section|);
  }

  lemma SelectEvidence(w: World, cmd: Command, pc: Pc, c: Choice)
    requires InSelect(pc) && EvidenceAt(w, cmd, pc)
    ensures var n := SelectStep(w, cmd, pc, c); n.Then? ==> EvidenceAt(n.w, cmd, n.pc)
  {
    var n := SelectStep(w, cmd, pc, c);
    if n.Then? && n.w.log != w.log {
      Append(w.log, n.w.log[|w.log|]);
    }
  }

  lemma AdoptEvidence(w: World, cmd: Command, pc: Pc, c: Choice)
    requires InAdopt(pc) && EvidenceAt(w, cmd, pc)
    ensures var n := AdoptStep(w, cmd, pc, c); n.Then? ==> EvidenceAt(n.w, cmd, n.pc)
  {
  }

  lemma ForgetEvidence(w: World, cmd: Command, pc: Pc, c: Choice)
    requires InForget(pc) && EvidenceAt(w, cmd, pc)
    ensures var n := ForgetStep(w, cmd, pc, c); n.Then? ==> EvidenceAt(n.w, cmd, n.pc)
  {
    var n := ForgetStep(w, cmd, pc, c);
    if n.Then? && n.w.log != w.log {
      Append(w.log, n.w.log[|w.log|]);
    }
  }

  lemma CreateEvidence(w: World, cmd: Command, pc: Pc, c: Choice)
    requires InCreate(pc) && EvidenceAt(w, cmd, pc)
    ensures var n := CreateStep(w, cmd, pc, c); n.Then? ==> EvidenceAt(n.w, cmd, n.pc)
  {
    var n := CreateStep(w, cmd, pc, c);
    if n.Then? && n.w.log != w.log {
      Append(w.log, n.w.log[|w.log|]);
    }
  }

  lemma ReadSpecEvidence(w: World, cmd: Command, pod: Snapshot, c: Choice)
    requires AllJustified(w.log)
    ensures var n := ReadSpecStep(w, cmd, pod, c); n.Then? ==> EvidenceAt(n.w, cmd, n.pc)
  {
    if w.disk.spec.Some? && w.disk.spec.value != cmd.cfg.fingerprint && c.Ok? {
      var e := Mismatch(pod.id, w.disk.spec.value, cmd.cfg.fingerprint);
      Append(w.log, e);
      assert (Section(w.log) + [e])[|Section(w.log)|] == e;
    }
  }

  lemma ReplacementEvidence(w: World, cmd: Command, id: PodId, c: Choice)
    requires AllJustified(w.log) && Mismatched(Section(w.log), id, cmd.cfg.fingerprint)
    ensures var n := ReuseStep(w, cmd, RepCreate(id), c); n.Then? ==> EvidenceAt(n.w, cmd, n.pc)
  {
    if c.CreateOk? || c.CreateLost? {
      var e := Created(c.id, cmd.cfg.fingerprint, Some(id));
      Append(w.log, e);
      CreationReplaces(Section(w.log), e, id);
    }
  }

  lemma ReuseEvidence(w: World, cmd: Command, pc: Pc, c: Choice)
    requires InReuse(pc) && EvidenceAt(w, cmd, pc)
    ensures var n := ReuseStep(w, cmd, pc, c); n.Then? ==> EvidenceAt(n.w, cmd, n.pc)
  {
    match pc
    case UpReadSpec(pod) => ReadSpecEvidence(w, cmd, pod, c);
    case RepCreate(id) => ReplacementEvidence(w, cmd, id, c);
    case _ =>
  }

  lemma ReplaceEvidence(w: World, cmd: Command, pc: Pc, c: Choice)
    requires InReplace(pc) && EvidenceAt(w, cmd, pc)
    ensures var n := ReplaceStep(w, cmd, pc, c); n.Then? ==> EvidenceAt(n.w, cmd, n.pc)
  {
    var n := ReplaceStep(w, cmd, pc, c);
    if n.Then? && n.w.log != w.log {
      Append(w.log, n.w.log[|w.log|]);
    }
  }

  lemma PrepareEvidence(w: World, cmd: Command, pc: Pc, c: Choice)
    requires InPrepare(pc) && EvidenceAt(w, cmd, pc)
    ensures var n := PrepareStep(w, cmd, pc, c); n.Then? ==> EvidenceAt(n.w, cmd, n.pc)
  {
    var n := PrepareStep(w, cmd, pc, c);
    if n.Then? && n.w.log != w.log {
      Append(w.log, n.w.log[|w.log|]);
    }
  }

  lemma ConnectEvidence(w: World, cmd: Command, pc: Pc, c: Choice)
    requires InConnect(pc) && EvidenceAt(w, cmd, pc)
    ensures var n := ConnectStep(w, cmd, pc, c); n.Then? ==> EvidenceAt(n.w, cmd, n.pc)
  {
    var n := ConnectStep(w, cmd, pc, c);
    if n.Then? && n.w.log != w.log {
      var e := if pc.RePoll? then Reported(pc.id, w.pods[pc.id].addr.value)
               else Trusted(pc.addr, if c.SshOk? then c.key else c.seen.value);
      Append(w.log, e);
      assert (Section(w.log) + [e])[|Section(w.log)|] == e;
    }
  }

  lemma FinishEvidence(w: World, cmd: Command, pc: Pc, c: Choice)
    requires InFinish(pc) && EvidenceAt(w, cmd, pc)
    ensures var n := FinishStep(w, cmd, pc, c); n.Then? ==> EvidenceAt(n.w, cmd, n.pc)
  {
  }

  lemma BodyEvidence(w: World, cmd: Command, pc: Pc, c: Choice)
    requires EvidenceAt(w, cmd, pc)
    ensures var n := BodyStep(w, cmd, pc, c); n.Then? ==> EvidenceAt(n.w, cmd, n.pc)
  {
    if InSelect(pc) {
      SelectEvidence(w, cmd, pc, c);
      assert BodyStep(w, cmd, pc, c) == SelectStep(w, cmd, pc, c);
    } else if InAdopt(pc) {
      AdoptEvidence(w, cmd, pc, c);
      assert BodyStep(w, cmd, pc, c) == AdoptStep(w, cmd, pc, c);
    } else if InForget(pc) {
      ForgetEvidence(w, cmd, pc, c);
      assert BodyStep(w, cmd, pc, c) == ForgetStep(w, cmd, pc, c);
    } else if InCreate(pc) {
      CreateEvidence(w, cmd, pc, c);
      assert BodyStep(w, cmd, pc, c) == CreateStep(w, cmd, pc, c);
    } else if InReuse(pc) {
      ReuseEvidence(w, cmd, pc, c);
      assert BodyStep(w, cmd, pc, c) == ReuseStep(w, cmd, pc, c);
    } else if InReplace(pc) {
      ReplaceEvidence(w, cmd, pc, c);
      assert BodyStep(w, cmd, pc, c) == ReplaceStep(w, cmd, pc, c);
    } else if InPrepare(pc) {
      PrepareEvidence(w, cmd, pc, c);
      assert BodyStep(w, cmd, pc, c) == PrepareStep(w, cmd, pc, c);
    } else if InConnect(pc) {
      ConnectEvidence(w, cmd, pc, c);
      assert BodyStep(w, cmd, pc, c) == ConnectStep(w, cmd, pc, c);
    } else if InFinish(pc) {
      FinishEvidence(w, cmd, pc, c);
      assert BodyStep(w, cmd, pc, c) == FinishStep(w, cmd, pc, c);
    }
  }

  /**
   A step that takes an address out of `known_hosts` takes out the recorded one and nothing else, and
   the log says so.
   */
  lemma RemovalHitsRecordedAddress(s: SState, a: SAction, addr: Address)
    requires Binding.Inv(s) && SStep(s, a).Some?
    requires addr in s.world.disk.knownHosts && addr !in SStep(s, a).value.world.disk.knownHosts
    ensures var t := SStep(s, a).value;
            && s.world.disk.endpoint.Some? && addr == s.world.disk.endpoint.value.addr
            && t.world.disk == s.world.disk.(knownHosts := s.world.disk.knownHosts - {addr})
            && t.world.log == s.world.log + [RemovedKey(s.world.disk.endpoint.value)]
  {
    var pc := s.cur.value.pc;
    assert pc.DelKeygen? || pc.RepKeygen? || pc.PrepKeygen?;
  }

  ghost predicate EvidenceIn(s: SState) {
    AllJustified(s.world.log) && (s.cur.Some? ==> EvidenceAt(s.world, s.cur.value.cmd, s.cur.value.pc))
  }

  lemma {:induction false} RunKeepsEvidence(s: SState, acts: seq<SAction>)
    requires Fresh(s) && SRun(s, acts).Some?
    ensures EvidenceIn(SRun(s, acts).value)
  {
    if acts != [] {
      var init, a := acts[..|acts| - 1], acts[|acts| - 1];
      RunKeepsEvidence(s, init);
      var t := SRun(s, init).value;
      match a
      case Begin(_) => Append(t.world.log, Began);
      case Move(c) => BodyEvidence(t.world, t.cur.value.cmd, t.cur.value.pc, c);
      case _ =>
    }
  }
}
