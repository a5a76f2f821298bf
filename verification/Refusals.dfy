/**
 Why a lock-held body raises: a failed operation, a passed deadline, or one of the conditions below, which the
 code tests itself.
 */
module Refusals {
  import opened Wrappers
  import opened Lifecycle

  /** An operation failed, or its answer was lost, or an SSH command did not succeed. */
  predicate Faulty(c: Choice) {
    c.Fail? || c.FailAfter? || c.CreateFail? || c.CreateLost? || c.SshFail?
  }

  /** The remote script ran to its end on a host whose key is accepted. */
  predicate Launches(w: World, pc: Pc, c: Choice) {
    pc.Remote? && c.SshOk? && Accepts(w.disk.knownHosts, pc.addr, c.key)
  }

  /** The record names another pod than the one whose trust is to be changed. */
  predicate RecordOfAnother(w: World, id: PodId) {
    w.disk.endpoint.Some? && w.disk.endpoint.value.podId != id
  }

  /** The pod whose endpoint is asked for is deleted or stopped. */
  predicate WillNotRun(w: World, id: PodId) {
    !Live(w.pods, id) || w.pods[id].status == Exited || w.pods[id].status == Terminated
  }

  /** What the code refuses in `w` at the program point, no operation having failed. */
  predicate Refuses(w: World, cmd: Command, pc: Pc, c: Choice) {
    match pc
    // the selected pod has no saved specification, or is terminated
    case UpReadSpec(pod) =>
      w.disk.spec.None? || (w.disk.spec.value == cmd.cfg.fingerprint && pod.status == Terminated)
    // more than one pod has the name; or none has it after a create request that failed
    case SelFind => c.FoundMany?
    case UpReconcile => c.FoundMany? || c.FoundNone?
    case DelRead(id, _) => RecordOfAnother(w, id)
    case RepRead(id, _) => RecordOfAnother(w, id)
    case PrepRead(id, _) => RecordOfAnother(w, id)
    case UpPoll(id) => c.Ok? && WillNotRun(w, id)
    case RePoll(id, _) => c.Ok? && WillNotRun(w, id)
    // the provider answers 404
    case UpStart(id) => !Live(w.pods, id)
    case RepStop(id) => !Live(w.pods, id)
    case DownStop(id) => !Live(w.pods, id)
    // the host key is another one
    case Probe(_, addr) => c.SshOk? && !Accepts(w.disk.knownHosts, addr, c.key)
    case Remote(_, addr) => c.SshOk? && !Accepts(w.disk.knownHosts, addr, c.key)
    case _ => false
  }

  /** The step ends the body with an exception. */
  predicate Raises(w: World, cmd: Command, pc: Pc, c: Choice) {
    var n := BodyStep(w, cmd, pc, c);
    n.Then? && n.pc == Raise(cmd) && !(cmd.Up? && Launches(w, pc, c))
  }

  /** The choice is one that the step can answer, without a failure. */
  predicate Proceeds(w: World, cmd: Command, pc: Pc, c: Choice) {
    BodyStep(w, cmd, pc, c).Then? && !Faulty(c) && (InFinish(pc) ==> cmd.Down?)
  }

  lemma ForgettingRaisesIff(w: World, cmd: Command, pc: Pc, c: Choice)
    requires Proceeds(w, cmd, pc, c) && (InSelect(pc) || InForget(pc))
    ensures Raises(w, cmd, pc, c) <==> Refuses(w, cmd, pc, c)
  {
  }

  lemma CreatingRaisesIff(w: World, cmd: Command, pc: Pc, c: Choice)
    requires Proceeds(w, cmd, pc, c) && (InAdopt(pc) || InCreate(pc))
    ensures Raises(w, cmd, pc, c) <==> Refuses(w, cmd, pc, c)
  {
  }

  lemma ReusingRaisesIff(w: World, cmd: Command, pc: Pc, c: Choice)
    requires Proceeds(w, cmd, pc, c) && (InReuse(pc) || InFinish(pc))
    ensures Raises(w, cmd, pc, c) <==> Refuses(w, cmd, pc, c)
  {
  }

  lemma ReplacingRaisesIff(w: World, cmd: Command, pc: Pc, c: Choice)
    requires Proceeds(w, cmd, pc, c) && InReplace(pc)
    ensures Raises(w, cmd, pc, c) <==> Refuses(w, cmd, pc, c)
  {
  }

  lemma ConnectingRaisesIff(w: World, cmd: Command, pc: Pc, c: Choice)
    requires Proceeds(w, cmd, pc, c) && (InPrepare(pc) || InConnect(pc))
    ensures Raises(w, cmd, pc, c) <==> Refuses(w, cmd, pc, c) || c.Timeout?
  {
  }

  /** A body raises without a failed operation exactly for one of those reasons, or because time is up. */
  lemma RaisesIff(w: World, cmd: Command, pc: Pc, c: Choice)
    requires Proceeds(w, cmd, pc, c)
    ensures Raises(w, cmd, pc, c) <==> Refuses(w, cmd, pc, c) || c.Timeout?
  {
    if InSelect(pc) || InForget(pc) {
      ForgettingRaisesIff(w, cmd, pc, c);
    } else if InAdopt(pc) || InCreate(pc) {
      CreatingRaisesIff(w, cmd, pc, c);
    } else if InReuse(pc) || InFinish(pc) {
      ReusingRaisesIff(w, cmd, pc, c);
    } else if InReplace(pc) {
      ReplacingRaisesIff(w, cmd, pc, c);
    } else {
      ConnectingRaisesIff(w, cmd, pc, c);
    }
  }
}
