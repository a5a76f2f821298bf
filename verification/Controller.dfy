/**
 The controller as the imperative code it is: methods that read and change the state directory and the
 provider one operation at a time, with other parties changing the provider before every operation
 and every operation free to fail.

 `Valid` ties each object to a run of `Lifecycle`: the ghost `acts` lead from `start` to exactly the
 fields' values and the program point `pc`.  So every execution of these methods, and every prefix of
 one, is a run that the theorems about `Lifecycle` speak of.
 */
module ControllerCode {
  import opened Wrappers
  import opened Lifecycle
  import Binding
  import Numbers
  import Refusals
  import Shutdown
  import Text

  /** The classes of exceptions that the operations raise; `down` catches the first three. */
  datatype Error = RuntimeError | ValueError | RequestException | OSError

  /** A call's value or exception. */
  datatype Result<+T> = Value(value: T) | Exception(error: Error) {
    predicate IsFailure() {
      Exception?
    }

    function PropagateFailure<U>(): Result<U>
      requires Exception?
    {
      Exception(error)
    }

    function Extract(): T
      requires Value?
    {
      value
    }
  }

  datatype Fault = NoFault | Before | After

  function ChoiceOf(fault: Fault): Choice {
    match fault
    case NoFault => Ok
    case Before => Fail
    case After => FailAfter
  }

  function Outcome(fault: Fault, error: Error): Result<()> {
    if fault.NoFault? then Value(()) else Exception(error)
  }

  datatype Answer = Found(pod: Snapshot) | NotFound | Failed(error: Error)

  datatype Creation = Made(id: PodId) | ApiError | OtherError(error: Error)

  datatype Connection = Connected | Unreachable | HostKeyMismatch | NotRun(error: Error)

  /** The files that `down` removes after its pod step. */
  datatype File = RuntimeEnv | ActivationFailure | ActivationStatus

  /** A step of the machine: the world before it, the program point and the choice. */
  datatype Taken = Taken(before: World, from: Pc, choice: Choice)

  /** Where an exception was raised, of which class, and in which step. */
  datatype Failing = Failing(at: Pc, error: Error, step: Taken)

  /** The steps that run `ssh-keygen` or `ssh`. */
  predicate RunsCommand(at: Pc) {
    at.DelKeygen? || at.RepKeygen? || at.PrepKeygen? || at.Probe? || at.Remote?
  }

  /** The steps that ask the provider. */
  predicate AsksProvider(at: Pc) {
    at.SelGet? || at.SelFind? || at.ConfGet? || at.UpCreate? || at.UpReconcile? || at.UpStart? || at.RepStop?
    || at.RepCreate? || at.UpPoll? || at.RePoll? || at.DownStop?
  }

  predicate ReadsFile(at: Pc) {
    at.SelReadId? || at.UpReadSpec? || ReadsRecord(at)
  }

  /** The steps that write the pod id, which need not have an encoding. */
  predicate WritesId(at: Pc) {
    at.SelWriteId? || at.UpWriteId? || at.RepWriteId?
  }

  /**
   What the steps can raise.  The state store and the record turn the errors of reading, writing and
   unlinking into a RuntimeError, but not those of the existence test before a read; the errors of starting
   a command and of touching `known_hosts` before it pass through.
   */
  predicate CanRaise(at: Pc, e: Error) {
    match e
    case RuntimeError => true
    case RequestException => AsksProvider(at)
    case OSError => ReadsFile(at) || RunsCommand(at)
    case ValueError => AsksProvider(at) || RunsCommand(at) || WritesId(at) || (ReadsFile(at) && !ReadsRecord(at))
  }

  /** The steps that `down` takes. */
  predicate InDown(at: Pc) {
    InSelect(at) || InAdopt(at) || InForget(at) || InFinish(at) || at.Ended?
  }

  /** What can be raised where in the pod step of `down`. */
  predicate FailsInDown(f: Failing) {
    CanRaise(f.at, f.error) && InDown(f.at)
  }

  /** The exceptions that `down` does not catch, by the step that raises them. */
  predicate EscapesPodStep(f: Failing) {
    f.error.OSError? && (f.at.SelReadId? || f.at.SelCompare? || f.at.ConfRead? || f.at.DelRead? || f.at.DelKeygen?)
  }

  /** Only the existence tests of its two files, and `ssh-keygen`, make `down` escape from its pod step. */
  lemma EscapesAreOSErrors(f: Failing)
    requires FailsInDown(f)
    ensures f.error.OSError? <==> EscapesPodStep(f)
  {
  }

  /** `systemctl stop`: its exit status and output, output that is no text, or an OSError. */
  datatype TunnelStop = Stopped | ExitedWith(stderr: string, stdout: string) | Undecodable | CouldNotRun

  datatype Failure = TunnelFailed | PodStepFailed | RemovalFailed(file: File)

  datatype DownResult = Clean | Incomplete(errors: seq<Failure>) | Escaped

  function Output(t: TunnelStop): string
    requires t.ExitedWith?
  {
    if t.stderr != "" then t.stderr else if t.stdout != "" then t.stdout else "unknown systemd error"
  }

  /** Taking the last line of blank output raises IndexError; neither that nor a decoding error is caught. */
  predicate EscapesTunnelStep(t: TunnelStop) {
    t.Undecodable? || (t.ExitedWith? && Text.Blank(Output(t)))
  }

  /** A failed stop escapes exactly if what it prints, on stderr or else on stdout, is only white space. */
  lemma BlankOutputEscapes(tunnel: TunnelStop)
    ensures EscapesTunnelStep(tunnel) <==>
            || tunnel.Undecodable?
            || (&& tunnel.ExitedWith?
                && if tunnel.stderr != "" then forall c <- tunnel.stderr :: Text.IsSpace(c)
                   else tunnel.stdout != "" && forall c <- tunnel.stdout :: Text.IsSpace(c))
  {
    assert 'u' in "unknown systemd error" by {
      assert "unknown systemd error"[0] == 'u';
    }
  }

  const TRANSIENT_FILES := [RuntimeEnv, ActivationFailure, ActivationStatus]

  lemma AllTransient()
    ensures forall f: File :: f in TRANSIENT_FILES
  {
    forall f: File
      ensures f in TRANSIENT_FILES
    {
      match f
      case RuntimeEnv => assert TRANSIENT_FILES[0] == f;
      case ActivationFailure => assert TRANSIENT_FILES[1] == f;
      case ActivationStatus => assert TRANSIENT_FILES[2] == f;
    }
  }

  function RemovalFailures(files: seq<File>, stuck: set<File>): seq<Failure> {
    if files == [] then []
    else RemovalFailures(files[..|files| - 1], stuck)
         + if files[|files| - 1] in stuck then [RemovalFailed(files[|files| - 1])] else []
  }

  /** The failed steps of `down`, in the order in which it takes them. */
  function Failures(tunnel: TunnelStop, podStepFails: bool, stuck: set<File>): seq<Failure> {
    (if tunnel.Stopped? then [] else [TunnelFailed])
    + (if podStepFails then [PodStepFailed] else [])
    + RemovalFailures(TRANSIENT_FILES, stuck)
  }

  function Errors(r: DownResult): seq<Failure>
    requires !r.Escaped?
  {
    if r.Clean? then [] else r.errors
  }

  predicate ReadsRecord(at: Pc) {
    at.SelCompare? || at.ConfRead? || at.DelRead? || at.RepRead? || at.PrepRead?
  }

  /** What follows from the record read at each of the five places that read it. */
  ghost function AfterRecord(cmd: Command, at: Pc, rec: Option<Record>): Pc
    requires ReadsRecord(at)
  {
    match at
    case SelCompare(id) =>
      if rec.Some? && rec.value.podId == id then DelRead(id, ToForgetId) else ConfRead(id, ToForgetId)
    case ConfRead(id, ret) =>
      if rec.None? || rec.value.podId == id then Resume(ret) else ConfGet(rec.value.podId, ret)
    case DelRead(id, ret) =>
      if rec.None? then Resume(ret)
      else if rec.value.podId != id then Raise(cmd)
      else DelKeygen(rec.value, ret)
    case RepRead(id, newId) =>
      if rec.None? then RepWriteId(newId)
      else if rec.value.podId != id then Raise(cmd)
      else RepKeygen(rec.value, newId)
    case PrepRead(id, addr) =>
      if rec.None? then PrepWrite(id, addr)
      else if rec.value.podId != id then Raise(cmd)
      else if rec.value.addr == addr then Probe(id, addr)
      else PrepKeygen(rec.value, addr)
  }

  lemma RecordIsRead(w: World, cmd: Command, pc: Pc)
    requires ReadsRecord(pc)
    ensures BodyStep(w, cmd, pc, Ok) == Then(w, AfterRecord(cmd, pc, w.disk.endpoint))
    ensures BodyStep(w, cmd, pc, Fail) == Then(w, Raise(cmd))
  {
  }

  /** What `up` does next with a selected pod and its saved specification. */
  ghost function AfterReadSpec(cmd: Command, pod: Snapshot, saved: Option<Fingerprint>): Pc {
    if saved.None? then Raise(cmd)
    else if saved.value != cmd.cfg.fingerprint then
      if pod.status == Running then RepStop(pod.id) else RepCreate(pod.id)
    else if pod.status == Terminated then Raise(cmd)
    else if pod.status == Exited then UpStart(pod.id)
    else ConfRead(pod.id, ToPoll(pod.id))
  }

  lemma SpecIsRead(w: World, cmd: Command, pod: Snapshot)
    ensures var n := BodyStep(w, cmd, UpReadSpec(pod), Ok);
            n.Then? && n.w.disk == w.disk && n.w.pods == w.pods && n.pc == AfterReadSpec(cmd, pod, w.disk.spec)
    ensures BodyStep(w, cmd, UpReadSpec(pod), Fail) == Then(w, Raise(cmd))
  {
  }

  /** What the two callers of `find_pod_by_name` do next. */
  ghost function AfterFind(cmd: Command, at: Pc, found: Option<Snapshot>): Pc {
    match (at, found)
    case (SelFind, None) => Selected(cmd, None)
    case (SelFind, Some(pod)) => SelWriteId(pod)
    case (_, None) => Raise(cmd)
    case (_, Some(pod)) => UpWriteId(pod.id)
  }

  lemma NameIsFound(w: World, cmd: Command, pc: Pc, id: PodId, other: PodId)
    requires pc.SelFind? || pc.UpReconcile?
    ensures NoneNamed(w.pods, cmd.cfg.podName) ==> BodyStep(w, cmd, pc, FoundNone) == Then(w, AfterFind(cmd, pc, None))
    ensures OnlyNamed(w.pods, cmd.cfg.podName, id) ==>
              BodyStep(w, cmd, pc, FoundOne(id)) == Then(w, AfterFind(cmd, pc, Some(Snapshot(id, w.pods[id].status))))
    ensures id != other && Named(w.pods, cmd.cfg.podName, id) && Named(w.pods, cmd.cfg.podName, other) ==>
              BodyStep(w, cmd, pc, FoundMany(id, other)) == Then(w, Raise(cmd))
              && Refusals.Refuses(w, cmd, pc, FoundMany(id, other))
    ensures BodyStep(w, cmd, pc, Fail) == Then(w, Raise(cmd))
  {
    forall c: Choice
      ensures BodyStep(w, cmd, pc, c) == FindStep(w, cmd, c, AfterFind(cmd, pc, None), pc.UpReconcile?)
    {
    }
  }

  function Matches(pods: Pods, name: Name): set<PodId> {
    set id | id in pods && Named(pods, name, id)
  }

  lemma MatchesMean(pods: Pods, name: Name)
    ensures Matches(pods, name) == {} <==> NoneNamed(pods, name)
    ensures forall id :: Matches(pods, name) == {id} ==> OnlyNamed(pods, name, id)
    ensures forall id <- Matches(pods, name) :: Named(pods, name, id)
  {
    forall id | id in pods && Named(pods, name, id)
      ensures id in Matches(pods, name)
    {
    }
    forall id | Matches(pods, name) == {id}
      ensures OnlyNamed(pods, name, id)
    {
      assert id in Matches(pods, name);
    }
  }

  /** The steps that change one thing or fail. */
  predicate IsOperation(pc: Pc) {
    WritesId(pc) || pc.SelForgetId? || pc.SelForgetSpec? || pc.UpWriteSpec? || pc.RepWriteSpec?
    || pc.DelKeygen? || pc.RepKeygen? || pc.PrepKeygen? || pc.DelUnlink? || pc.RepUnlink? || pc.PrepWrite?
    || pc.UpStart? || pc.RepStop? || pc.DownStop?
  }

  /** The world after it. */
  function Effect(w: World, cmd: Command, pc: Pc): World {
    match pc
    case SelForgetId => WithId(w, None)
    case SelForgetSpec => WithSpec(w, None)
    case SelWriteId(pod) => WithId(w, Some(pod.id))
    case UpWriteId(id) => WithId(w, Some(id))
    case RepWriteId(newId) => WithId(w, Some(newId))
    case UpWriteSpec(_) => WithSpec(w, Some(cmd.cfg.fingerprint))
    case RepWriteSpec(_) => WithSpec(w, Some(cmd.cfg.fingerprint))
    case DelKeygen(rec, _) => WithoutKey(w, rec)
    case RepKeygen(rec, _) => WithoutKey(w, rec)
    case PrepKeygen(rec, _) => WithoutKey(w, rec)
    case DelUnlink(_, _) => WithRecord(w, None)
    case RepUnlink(_, _) => WithRecord(w, None)
    case PrepWrite(id, addr) => WithRecord(w, Some(Record(id, addr)))
    case UpStart(id) => w.(pods := WithStatus(w.pods, id, Exited, Running))
    case RepStop(id) => w.(pods := WithStatus(w.pods, id, Running, Exited))
    case DownStop(id) => w.(pods := WithStatus(w.pods, id, Running, Exited))
    case _ => w
  }

  /** What comes next. */
  function Following(cmd: Command, pc: Pc): Pc {
    match pc
    case SelForgetId => SelForgetSpec
    case SelForgetSpec => SelFind
    case SelWriteId(pod) => Selected(cmd, Some(pod))
    case UpWriteId(id) => UpWriteSpec(id)
    case RepWriteId(newId) => RepWriteSpec(newId)
    case UpWriteSpec(id) => ConfRead(id, ToPoll(id))
    case RepWriteSpec(newId) => ConfRead(newId, ToPoll(newId))
    case DelKeygen(rec, ret) => DelUnlink(rec, ret)
    case RepKeygen(rec, newId) => RepUnlink(rec, newId)
    case PrepKeygen(rec, addr) => PrepWrite(rec.podId, addr)
    case DelUnlink(_, ret) => Resume(ret)
    case RepUnlink(_, newId) => RepWriteId(newId)
    case PrepWrite(id, addr) => Probe(id, addr)
    case UpStart(id) => ConfRead(id, ToPoll(id))
    case RepStop(id) => RepCreate(id)
    case DownStop(_) => DownClean(false)
    case _ => pc
  }

  lemma OperationIs(w: World, cmd: Command, pc: Pc, c: Choice)
    requires IsOperation(pc) && (c.Ok? && (pc.UpStart? || pc.RepStop? || pc.DownStop?) ==> Live(w.pods, pc.id))
    ensures BodyStep(w, cmd, pc, c) == Operation(w, Effect(w, cmd, pc), Following(cmd, pc), cmd, c)
  {
    hide FindStep, EndpointStep, SshStep;
  }

  /** What `up` does next with the endpoint that the provider reports, if it reports one. */
  function AfterEndpoint(at: Pc, found: Option<Address>): Pc
    requires at.UpPoll? || at.RePoll?
  {
    match (at, found)
    case (UpPoll(id), None) => at
    case (UpPoll(id), Some(addr)) => PrepRead(id, addr)
    case (RePoll(id, addr), None) => Probe(id, addr)
    case (RePoll(id, addr), Some(now)) => if now == addr then Probe(id, addr) else PrepRead(id, now)
  }

  lemma EndpointIsAsked(w: World, cmd: Command, pc: Pc)
    requires pc.UpPoll? || pc.RePoll?
    ensures BodyStep(w, cmd, pc, Fail) == Then(w, Raise(cmd))
    ensures var n := BodyStep(w, cmd, pc, Ok);
            && n.Then? && n.w.disk == w.disk && n.w.pods == w.pods
            && n.pc == if Refusals.WillNotRun(w, pc.id) then Raise(cmd) else AfterEndpoint(pc, w.pods[pc.id].addr)
    ensures Refusals.WillNotRun(w, pc.id) ==> Refusals.Refuses(w, cmd, pc, Ok)
  {
    assert BodyStep(w, cmd, pc, Ok) ==
           EndpointStep(w, cmd, Ok, pc.id, if pc.UpPoll? then pc else Probe(pc.id, pc.addr),
                        if pc.UpPoll? then None else Some(pc.addr));
  }

  lemma CommandIsRun(w: World, cmd: Command, pc: Pc, c: Choice)
    requires pc.Probe? || pc.Remote?
    ensures BodyStep(w, cmd, pc, Fail) == Then(w, Raise(cmd))
    ensures BodyStep(w, cmd, pc, SshFail(None)) == Then(w, if pc.Probe? then RePoll(pc.id, pc.addr) else Raise(cmd))
    ensures !c.Timeout? ==>
              BodyStep(w, cmd, pc, c) ==
              if pc.Probe? then SshStep(w, cmd, c, pc.addr, Remote(pc.id, pc.addr), RePoll(pc.id, pc.addr))
              else SshStep(w, cmd, c, pc.addr, Ended, Raise(cmd))
  {
  }

  lemma PodIsRequested(w: World, cmd: Command, pc: Pc, c: Choice)
    requires (pc.UpCreate? || pc.RepCreate?) && (c.CreateOk? || c.CreateLost? ==> c.id !in w.pods)
    ensures var n := BodyStep(w, cmd, pc, c);
            && (c.CreateFail? ==> n == Then(w, if c.api && pc.UpCreate? then UpReconcile else Raise(cmd)))
            && (c.CreateOk? || c.CreateLost? ==>
                  && n.Then? && n.w.disk == w.disk
                  && n.w.pods == w.pods[c.id := Pod(cmd.cfg.podName, Running, Ours(cmd.cfg.fingerprint), None)])
            && (c.CreateOk? ==> n.pc == if pc.UpCreate? then UpWriteId(c.id) else RepRead(pc.id, c.id))
            && (c.CreateLost? ==> n.pc == if c.api && pc.UpCreate? then UpReconcile else Raise(cmd))
  {
  }

  /** After `begun` the process has just taken the lock. */
  ghost predicate HasEntered(start: SState, begun: seq<SAction>, cmd: Command) {
    SRun(start, begun).Some? && SRun(start, begun).value.cur == Some(Activity(cmd, SelReadId))
  }

  /** The process has only moved since, and the provider with it. */
  ghost predicate Grown(begun: seq<SAction>, acts: seq<SAction>) {
    begun <= acts && forall i :: |begun| <= i < |acts| ==> acts[i].Move? || acts[i].Env?
  }

  lemma RunGrows(
    start: SState, begun: seq<SAction>, acts: seq<SAction>, w: World, cmd: Command, pc: Pc, c: Choice)
    requires SRun(start, acts) == Some(SState(w, Some(Activity(cmd, pc)))) && Grown(begun, acts)
    requires BodyStep(w, cmd, pc, c).Then?
    ensures var n, more := BodyStep(w, cmd, pc, c), acts + [Move(c)];
            && SRun(start, more) == Some(SState(n.w, Some(Activity(cmd, n.pc))))
            && more[..|more| - 1] == acts && Grown(begun, more)
  {
    hide BodyStep;
    MoveStep(w, cmd, pc, c, BodyStep(w, cmd, pc, c));
    RunMore(start, acts, SState(w, Some(Activity(cmd, pc))), Move(c));
  }

  /** Nobody else has resumed a pod since. */
  ghost predicate NoResumeSince(begun: seq<SAction>, acts: seq<SAction>) {
    forall i :: |begun| <= i < |acts| && acts[i].Env? && acts[i].e.SetStatus? ==> acts[i].e.status != Running
  }

  lemma {:induction false} RunInTwo(s: SState, first: seq<SAction>, more: seq<SAction>)
    requires SRun(s, first).Some?
    ensures SRun(s, first + more) == SRun(SRun(s, first).value, more)
  {
    if more == [] {
      assert first + more == first;
    } else {
      var n := |more| - 1;
      assert (first + more)[..|first + more| - 1] == first + more[..n];
      RunInTwo(s, first, more[..n]);
    }
  }

  /** From a fresh directory, a `down` that has come to its clean-up without a failure has stopped its pod. */
  lemma StoppedWithoutResume(start: SState, begun: seq<SAction>, acts: seq<SAction>, w: World, cfg: Settings)
    requires Fresh(start) && HasEntered(start, begun, Down(cfg)) && Grown(begun, acts) && NoResumeSince(begun, acts)
    requires SRun(start, acts) == Some(SState(w, Some(Activity(Down(cfg), DownClean(false)))))
    ensures w.disk.podId.Some? ==> !Shutdown.IsRunning(w.pods, w.disk.podId.value)
  {
    var more := acts[|begun|..];
    assert begun + more == acts;
    RunInTwo(start, begun, more);
    Binding.RunKeepsInv(start, begun);
    assert forall i :: 0 <= i < |more| ==> more[i] == acts[|begun| + i];
    Shutdown.CleanDownStopsSelectedPod(SRun(start, begun).value, cfg, more);
  }

  class Controller {
    // the state directory
    var podId: Option<PodId>
    var spec: Option<Fingerprint>
    var endpoint: Option<Record>
    var knownHosts: map<Address, Key>
    var transient: set<File>
    // the provider
    var pods: Pods
    // the clock, and how often the code has slept
    var now: real
    var sleeps: nat
    /** How long it asked to sleep in all, and how often it asked for an endpoint and ran a command. */
    ghost var slept: real
    ghost var asked: nat
    ghost var commands: nat
    /** The deadline. */
    ghost var due: real
    /** The environment has decided that the operation at hand fails. */
    ghost var doomed: bool

    const cmd: Command
    ghost const start: SState
    ghost const begun: seq<SAction>
    ghost var acts: seq<SAction>
    ghost var log: seq<Event>
    ghost var pc: Pc
    /** The last action of `acts`, if it is a step of this body. */
    ghost var last: Option<Taken>
    /** The exception that ended the body or, in `down`, its pod step. */
    ghost var failure: Option<Failing>

    ghost function W(): World
      reads `podId, `spec, `endpoint, `knownHosts, `pods, `log
    {
      World(Disk(podId, spec, endpoint, knownHosts), pods, log)
    }

    ghost predicate Valid()
      reads `podId, `spec, `endpoint, `knownHosts, `pods, `log, `acts, `pc, `last
    {
      Traced(W())
    }

    /** The run that began with this process's entry has led to `w` at the program point. */
    ghost predicate Traced(w: World)
      reads `acts, `pc, `last
    {
      && SRun(start, acts) == Some(SState(w, Some(Activity(cmd, pc))))
      && HasEntered(start, begun, cmd) && Grown(begun, acts)
      && (last.Some? ==> EndsWith(last.value))
    }

    ghost predicate EndsWith(step: Taken)
      reads `acts
    {
      && acts != [] && acts[|acts| - 1] == Move(step.choice)
      && SRun(start, acts[..|acts| - 1]) == Some(SState(step.before, Some(Activity(cmd, step.from))))
    }

    ghost predicate LastWas(at: Pc, c: Choice)
      reads `last
    {
      last.Some? && last.value.from == at && last.value.choice == c
    }

    /** The last thing done was the remote launch, and it succeeded. */
    ghost predicate Launched()
      reads `last
    {
      last.Some? && Refusals.Launches(last.value.before, last.value.from, last.value.choice)
    }

    /** The code refused to go on, for a reason that `Refusals` lists. */
    ghost predicate Refused()
      reads `failure
    {
      failure.Some? && var step := failure.value.step; Refusals.Refuses(step.before, cmd, step.from, step.choice)
    }

    /** The exception was raised by an operation that failed, or by such a refusal. */
    ghost predicate Justified()
      reads `failure
    {
      Refused() || (failure.Some? && Refusals.Faulty(failure.value.step.choice))
    }

    /** The deadline has passed. */
    ghost predicate TimedOut()
      reads `failure, `now, `due
    {
      failure.Some? && failure.value.step.choice.Timeout? && now >= due
    }

    /** A process that has just acquired the lifecycle lock. */
    constructor (w: World, files: set<File>, cmd: Command, ghost s: SState, ghost before: seq<SAction>)
      requires SRun(s, before) == Some(SState(w, None))
      ensures Valid() && this.cmd == cmd && start == s && pc == SelReadId
      ensures sleeps == asked == commands == 0 && slept == 0.0
      ensures W() == Logged(w, Began) && acts == before + [Begin(cmd)] && transient == files && failure.None?
    {
      podId, spec, endpoint, knownHosts := w.disk.podId, w.disk.spec, w.disk.endpoint, w.disk.knownHosts;
      transient, pods := files, w.pods;
      now, sleeps, slept, asked, commands, due, doomed := 0.0, 0, 0.0, 0, 0, 0.0, false;
      this.cmd := cmd;
      start, begun := s, before + [Begin(cmd)];
      acts, log, pc := before + [Begin(cmd)], Extend(w.log, Began), SelReadId;
      failure, last := None, None;
      new;
      RunMore(s, before, SState(w, None), Begin(cmd));
    }

    /**
     Records that the operation just carried out is the machine's step `c`: a failing one only if the environment
     made it fail or the provider has no such pod, and a timeout only after the deadline.
     */
    ghost method Advance(before: World, c: Choice)
      requires Refusals.Faulty(c) ==> doomed || Refusals.Refuses(before, cmd, pc, c)
      requires c.Timeout? ==> now >= due
      requires Traced(before) && BodyStep(before, cmd, pc, c).Then?
      requires BodyStep(before, cmd, pc, c).w.disk == W().disk && BodyStep(before, cmd, pc, c).w.pods == pods
      modifies `acts, `last, `log, `pc, `doomed
      ensures Valid() && pc == BodyStep(before, cmd, old(pc), c).pc
      ensures acts == old(acts) + [Move(c)] && last == Some(Taken(before, old(pc), c))
    {
      hide BodyStep, SRun, HasEntered, Grown, Refusals.Refuses, Refusals.Faulty;
      var n := BodyStep(before, cmd, pc, c);
      RunGrows(start, begun, acts, before, cmd, pc, c);
      last := Some(Taken(before, pc, c));
      acts, log, pc, doomed := acts + [Move(c)], n.w.log, n.pc, false;
      assert n.w == W();
    }

    /** The operation at `pc` raises `error`, with the machine's choice `c`. */
    ghost method Fails(before: World, c: Choice, error: Error)
      requires Traced(before) && CanRaise(pc, error) && !c.SshOk?
      requires Refusals.Faulty(c) ==> doomed || Refusals.Refuses(before, cmd, pc, c)
      requires c.Timeout? ==> now >= due
      requires BodyStep(before, cmd, pc, c).Then? && BodyStep(before, cmd, pc, c).pc == Raise(cmd)
      requires BodyStep(before, cmd, pc, c).w.disk == W().disk && BodyStep(before, cmd, pc, c).w.pods == pods
      modifies `acts, `last, `log, `pc, `failure, `doomed
      ensures Valid() && pc == Raise(cmd) && FailedAt(old(pc), error)
      ensures failure.value.step == Taken(before, old(pc), c)
    {
      failure := Some(Failing(pc, error, Taken(before, pc, c)));
      Advance(before, c);
    }

    /** The operation at `pc` has taken effect, unless it raised `error` first. */
    ghost method Operate(before: World, fault: Fault, error: Error)
      requires Traced(before) && IsOperation(pc) && CanRaise(pc, error)
      requires !fault.NoFault? ==> doomed || Refusals.Refuses(before, cmd, pc, ChoiceOf(fault))
      requires fault.NoFault? && (pc.UpStart? || pc.RepStop? || pc.DownStop?) ==> Live(before.pods, pc.id)
      requires var w := if fault.Before? then before else Effect(before, cmd, pc); w.disk == W().disk && w.pods == pods
      modifies `acts, `last, `log, `pc, `failure, `doomed
      ensures Valid() && pc == if fault.NoFault? then Following(cmd, old(pc)) else Raise(cmd)
      ensures if fault.NoFault? then failure == old(failure) else FailedAt(old(pc), error)
      ensures !fault.NoFault? ==> failure.value.step == Taken(before, old(pc), ChoiceOf(fault))
    {
      hide BodyStep, Effect, Following, Traced, Refusals.Refuses;
      OperationIs(before, cmd, pc, ChoiceOf(fault));
      if !fault.NoFault? {
        failure := Some(Failing(pc, error, Taken(before, pc, ChoiceOf(fault))));
      }
      Advance(before, ChoiceOf(fault));
    }

    /** The code raises a RuntimeError at `at`, where the machine has just raised. */
    ghost method Refuse(at: Pc)
      requires Valid() && pc == Raise(cmd) && last.Some? && last.value.from == at && !Launched()
      modifies `failure
      ensures Valid() && FailedAt(at, RuntimeError) && failure.value.step == last.value
    {
      failure := Some(Failing(at, RuntimeError, last.value));
    }

    /** The exception was raised by the last step, which was no launch. */
    ghost predicate FailedNow()
      reads `failure, `last
    {
      failure.Some? && last == Some(failure.value.step) && failure.value.at == last.value.from && !Launched()
    }

    ghost predicate FailedAt(at: Pc, error: Error)
      reads `failure, `last
    {
      FailedNow() && failure.value.at == at && failure.value.error == error && CanRaise(at, error)
    }

    ghost predicate FailedWith(error: Error)
      reads `failure, `last
    {
      FailedNow() && failure.value.error == error && CanRaise(failure.value.at, error)
    }

    ghost predicate FailedInDown(error: Error)
      reads `failure, `last
    {
      FailedNow() && failure.value.error == error && FailsInDown(failure.value)
    }

    /** Other parties change the provider, any number of times. */
    method Interfere()
      requires Valid()
      modifies `pods, `acts, `last
      ensures Valid()
    {
      var changes: seq<EnvAction> := *;
      for i := 0 to |changes|
        invariant Valid()
      {
        if EnvEnabled(pods, changes[i]) {
          RunMore(start, acts, SState(W(), Some(Activity(cmd, pc))), Env(changes[i]));
          acts, last := acts + [Env(changes[i])], None;
          pods := EnvStep(pods, changes[i]);
        }
      }
    }

    /**
     The environment before an operation: other parties act, and it decides whether the operation fails, before or
     after its effect, and with which error: a RuntimeError or one of the given classes.
     */
    method Meanwhile(value: bool, request: bool, os: bool) returns (fault: Fault, error: Error)
      requires Valid()
      modifies `pods, `acts, `last, `doomed
      ensures Valid()
      ensures doomed <==> !fault.NoFault?
      ensures (error.ValueError? ==> value) && (error.RequestException? ==> request) && (error.OSError? ==> os)
    {
      Interfere();
      fault, error := *, *;
      if (error.ValueError? && !value) || (error.RequestException? && !request) || (error.OSError? && !os) {
        error := RuntimeError;
      }
      doomed := !fault.NoFault?;
    }

    // ----- FileStateStore -----

    method ReadPodId() returns (r: Result<Option<PodId>>)
      requires Valid() && (pc == SelReadId)
      modifies `pods, `acts, `last, `log, `pc, `failure, `doomed
      ensures Valid()
      ensures r.Value? ==> r.value == podId && pc == (if podId.None? then SelFind else SelGet(podId.value))
      ensures if r.Exception? then pc == Raise(cmd) && FailedAt(old(pc), r.error) else failure == old(failure)
      ensures r.Exception? ==> Justified()
    {
      hide Traced, Refusals.Refuses;
      var fault, error := Meanwhile(true, false, true);
      ghost var before := W();
      if !fault.NoFault? {
        Fails(before, Fail, error);
        return Exception(error);
      }
      Advance(before, Ok);
      return Value(podId);
    }

    method WritePodId(id: PodId) returns (r: Result<()>)
      requires Valid() && ((pc.SelWriteId? && pc.pod.id == id) || pc == UpWriteId(id) || pc == RepWriteId(id))
      modifies `podId, `pods, `acts, `last, `log, `pc, `failure, `doomed
      ensures Valid()
      ensures r.Value? ==> podId == Some(id)
      ensures r.Value? ==> pc == Following(cmd, old(pc))
      ensures if r.Exception? then pc == Raise(cmd) && FailedAt(old(pc), r.error) else failure == old(failure)
      ensures r.Exception? ==> Justified()
    {
      hide Traced, BodyStep, Refusals.Refuses;
      var fault, error := Meanwhile(true, false, false);
      ghost var before := W();
      if !fault.Before? {
        podId := Some(id);
      }
      Operate(before, fault, error);
      return Outcome(fault, error);
    }

    method ForgetPodId() returns (r: Result<()>)
      requires Valid() && (pc == SelForgetId)
      modifies `podId, `pods, `acts, `last, `log, `pc, `failure, `doomed
      ensures Valid()
      ensures r.Value? ==> podId.None? && pc == SelForgetSpec
      ensures if r.Exception? then pc == Raise(cmd) && FailedAt(old(pc), r.error) else failure == old(failure)
      ensures r.Exception? ==> Justified()
    {
      hide Traced, BodyStep, Refusals.Refuses;
      var fault, error := Meanwhile(false, false, false);
      ghost var before := W();
      if !fault.Before? {
        podId := None;
      }
      Operate(before, fault, error);
      return Outcome(fault, error);
    }

    method ReadPodSpec() returns (r: Result<Option<Fingerprint>>)
      requires Valid() && pc.UpReadSpec?
      modifies `pods, `acts, `last, `log, `pc, `failure, `doomed
      ensures Valid()
      ensures r.Value? ==> r.value == spec && pc == AfterReadSpec(cmd, old(pc).pod, spec)
      ensures r.Value? ==> LastWas(old(pc), Ok) && last.value.before.disk.spec == spec
      ensures if r.Exception? then pc == Raise(cmd) && FailedAt(old(pc), r.error) else failure == old(failure)
      ensures r.Exception? ==> Justified()
    {
      hide Traced, BodyStep, Refusals.Refuses;
      var fault, error := Meanwhile(true, false, true);
      ghost var before := W();
      SpecIsRead(before, cmd, pc.pod);
      if !fault.NoFault? {
        Fails(before, Fail, error);
        return Exception(error);
      }
      Advance(before, Ok);
      return Value(spec);
    }

    method WritePodSpec() returns (r: Result<()>)
      requires Valid() && (pc.UpWriteSpec? || pc.RepWriteSpec?)
      modifies `spec, `pods, `acts, `last, `log, `pc, `failure, `doomed
      ensures Valid()
      ensures r.Value? ==> spec == Some(cmd.cfg.fingerprint)
      ensures r.Value? ==> pc == Following(cmd, old(pc))
      ensures if r.Exception? then pc == Raise(cmd) && FailedAt(old(pc), r.error) else failure == old(failure)
      ensures r.Exception? ==> Justified()
    {
      hide Traced, BodyStep, Refusals.Refuses;
      var fault, error := Meanwhile(false, false, false);
      ghost var before := W();
      if !fault.Before? {
        spec := Some(cmd.cfg.fingerprint);
      }
      Operate(before, fault, error);
      return Outcome(fault, error);
    }

    method ForgetPodSpec() returns (r: Result<()>)
      requires Valid() && (pc == SelForgetSpec)
      modifies `spec, `pods, `acts, `last, `log, `pc, `failure, `doomed
      ensures Valid()
      ensures r.Value? ==> spec.None? && pc == SelFind
      ensures if r.Exception? then pc == Raise(cmd) && FailedAt(old(pc), r.error) else failure == old(failure)
      ensures r.Exception? ==> Justified()
    {
      hide Traced, BodyStep, Refusals.Refuses;
      var fault, error := Meanwhile(false, false, false);
      ghost var before := W();
      if !fault.Before? {
        spec := None;
      }
      Operate(before, fault, error);
      return Outcome(fault, error);
    }

    // ----- the endpoint record and known_hosts -----

    method ReadEndpoint() returns (r: Result<Option<Record>>)
      requires Valid() && ReadsRecord(pc)
      modifies `pods, `acts, `last, `log, `pc, `failure, `doomed
      ensures Valid()
      ensures r.Value? ==> r.value == endpoint && pc == AfterRecord(cmd, old(pc), endpoint)
      ensures r.Value? ==> LastWas(old(pc), Ok) && last.value.before.disk.endpoint == endpoint
      ensures if r.Exception? then pc == Raise(cmd) && FailedAt(old(pc), r.error) else failure == old(failure)
      ensures r.Exception? ==> Justified()
    {
      hide Traced, BodyStep, Refusals.Refuses;
      var fault, error := Meanwhile(false, false, true);
      ghost var before := W();
      RecordIsRead(before, cmd, pc);
      if !fault.NoFault? {
        Fails(before, Fail, error);
        return Exception(error);
      }
      Advance(before, Ok);
      return Value(endpoint);
    }

    method WriteEndpoint(rec: Record) returns (r: Result<()>)
      requires Valid() && (pc == PrepWrite(rec.podId, rec.addr))
      modifies `endpoint, `pods, `acts, `last, `log, `pc, `failure, `doomed
      ensures Valid()
      ensures r.Value? ==> endpoint == Some(rec) && pc == Probe(rec.podId, rec.addr)
      ensures if r.Exception? then pc == Raise(cmd) && FailedAt(old(pc), r.error) else failure == old(failure)
      ensures r.Exception? ==> Justified()
    {
      hide Traced, BodyStep, Refusals.Refuses;
      var fault, error := Meanwhile(false, false, false);
      ghost var before := W();
      if !fault.Before? {
        endpoint := Some(rec);
      }
      Operate(before, fault, error);
      return Outcome(fault, error);
    }

    method UnlinkEndpoint() returns (r: Result<()>)
      requires Valid() && (pc.DelUnlink? || pc.RepUnlink?)
      modifies `endpoint, `pods, `acts, `last, `log, `pc, `failure, `doomed
      ensures Valid()
      ensures r.Value? ==> endpoint.None?
      ensures r.Value? ==> pc == Following(cmd, old(pc))
      ensures if r.Exception? then pc == Raise(cmd) && FailedAt(old(pc), r.error) else failure == old(failure)
      ensures r.Exception? ==> Justified()
    {
      hide Traced, BodyStep, Refusals.Refuses;
      var fault, error := Meanwhile(false, false, false);
      ghost var before := W();
      if !fault.Before? {
        endpoint := None;
      }
      Operate(before, fault, error);
      return Outcome(fault, error);
    }

    /** `ssh-keygen -R` for the recorded address. */
    method RemoveKey(rec: Record) returns (r: Result<()>)
      requires Valid() && (pc.DelKeygen? || pc.RepKeygen? || pc.PrepKeygen?) && pc.rec == rec
      modifies `knownHosts, `pods, `acts, `last, `log, `pc, `failure, `doomed
      ensures Valid()
      ensures r.Value? ==> pc == Following(cmd, old(pc))
      ensures if r.Exception? then pc == Raise(cmd) && FailedAt(old(pc), r.error) else failure == old(failure)
      ensures r.Exception? ==> Justified()
    {
      hide Traced, BodyStep, Refusals.Refuses;
      var fault, error := Meanwhile(true, false, true);
      ghost var before := W();
      if !fault.Before? {
        knownHosts := knownHosts - {rec.addr};
      }
      Operate(before, fault, error);
      return Outcome(fault, error);
    }

    // ----- the provider -----

    method GetPod(id: PodId) returns (r: Answer)
      requires Valid() && (pc == SelGet(id) || (pc.ConfGet? && pc.previous == id))
      modifies `pods, `acts, `last, `log, `pc, `failure, `doomed
      ensures Valid()
      ensures r.Found? ==> r.pod.id == id
      ensures r.Found? ==> pc == if old(pc).SelGet? then Selected(cmd, Some(r.pod)) else Resume(old(pc).ret)
      ensures r.NotFound? ==> pc == if old(pc).SelGet? then SelCompare(id) else DelRead(id, old(pc).ret)
      ensures if r.Failed? then pc == Raise(cmd) && FailedAt(old(pc), r.error) else failure == old(failure)
      ensures r.Failed? ==> Justified()
    {
      hide Traced, Refusals.Refuses;
      var fault, error := Meanwhile(true, true, false);
      ghost var before := W();
      if !fault.NoFault? {
        Fails(before, Fail, error);
        return Failed(error);
      }
      Advance(before, Ok);
      return if Live(pods, id) then Found(Snapshot(id, pods[id].status)) else NotFound;
    }

    /** More than one pod of the configured name is a ValueError. */
    method FindPodByName() returns (r: Result<Option<Snapshot>>)
      requires Valid() && (pc == SelFind || pc == UpReconcile)
      modifies `pods, `acts, `last, `log, `pc, `failure, `doomed
      ensures Valid()
      ensures r.Value? ==> pc == AfterFind(cmd, old(pc), r.value)
      ensures r.Value? ==> LastWas(old(pc), if r.value.None? then FoundNone else FoundOne(r.value.value.id))
      ensures if r.Exception? then pc == Raise(cmd) && FailedAt(old(pc), r.error) else failure == old(failure)
      ensures r.Exception? ==> Justified()
    {
      hide Traced, BodyStep, Refusals.Refuses;
      var fault, error := Meanwhile(true, true, false);
      if !fault.NoFault? {
        NameIsFound(W(), cmd, pc, 0, 0);
        Fails(W(), Fail, error);
        return Exception(error);
      }
      r := MatchName();
    }

    method MatchName() returns (r: Result<Option<Snapshot>>)
      requires Valid() && (pc == SelFind || pc == UpReconcile)
      modifies `acts, `last, `log, `pc, `failure, `doomed
      ensures Valid()
      ensures r.Value? ==> pc == AfterFind(cmd, old(pc), r.value)
      ensures r.Value? ==> LastWas(old(pc), if r.value.None? then FoundNone else FoundOne(r.value.value.id))
      ensures if r.Exception? then pc == Raise(cmd) && FailedAt(old(pc), r.error) && Refused()
              else failure == old(failure)
    {
      hide Traced, BodyStep, Refusals.Refuses;
      NameIsFound(W(), cmd, pc, 0, 0);
      var matches := Matches(pods, cmd.cfg.podName);
      MatchesMean(pods, cmd.cfg.podName);
      if matches == {} {
        Advance(W(), FoundNone);
        return Value(None);
      }
      var id :| id in matches;
      r := FoundSome(matches, id);
    }

    method FoundSome(matches: set<PodId>, id: PodId) returns (r: Result<Option<Snapshot>>)
      requires Valid() && (pc == SelFind || pc == UpReconcile)
      requires matches == Matches(pods, cmd.cfg.podName) && id in matches
      modifies `acts, `last, `log, `pc, `failure, `doomed
      ensures Valid()
      ensures r.Value? ==> r.value.Some? && pc == AfterFind(cmd, old(pc), r.value)
      ensures r.Value? ==> LastWas(old(pc), FoundOne(r.value.value.id))
      ensures if r.Exception? then pc == Raise(cmd) && FailedAt(old(pc), r.error) && Refused()
              else failure == old(failure)
    {
      hide Traced, BodyStep, Refusals.Refuses;
      ghost var before := W();
      MatchesMean(pods, cmd.cfg.podName);
      if matches == {id} {
        NameIsFound(before, cmd, pc, id, id);
        Advance(before, FoundOne(id));
        return Value(Some(Snapshot(id, pods[id].status)));
      }
      ghost var other :| other in matches && other != id;
      NameIsFound(before, cmd, pc, id, other);
      Fails(before, FoundMany(id, other), ValueError);
      return Exception(ValueError);
    }

    /** A create request; any failing answer may hide a pod that was made. */
    method CreatePod() returns (r: Creation)
      requires Valid() && (pc.UpCreate? || pc.RepCreate?)
      modifies `pods, `acts, `last, `log, `pc, `failure, `doomed
      ensures Valid()
      ensures r.Made? ==> pc == if old(pc).UpCreate? then UpWriteId(r.id) else RepRead(old(pc).id, r.id)
      ensures r.ApiError? ==> pc == if old(pc).UpCreate? then UpReconcile else Raise(cmd)
      ensures r.OtherError? ==> pc == Raise(cmd) && FailedAt(old(pc), r.error)
      ensures r.ApiError? && old(pc).RepCreate? ==> FailedWith(RuntimeError)
      ensures r.Made? || (r.ApiError? && old(pc).UpCreate?) ==> failure == old(failure)
      ensures r.OtherError? || (r.ApiError? && old(pc).RepCreate?) ==> Justified()
    {
      hide Traced, BodyStep, Refusals.Refuses;
      var fault, error := Meanwhile(true, true, false);
      var api: bool := *;
      ghost var unused := Numbers.Unused(pods.Keys);
      assert unused !in pods;
      var id: PodId :| id !in pods;
      ghost var before := W();
      ghost var c := match fault
        case NoFault => CreateOk(id)
        case Before => CreateFail(api)
        case After => CreateLost(id, api);
      PodIsRequested(before, cmd, pc, c);
      if !fault.Before? {
        pods := pods[id := Pod(cmd.cfg.podName, Running, Ours(cmd.cfg.fingerprint), None)];
      }
      if fault.NoFault? || (api && pc.UpCreate?) {
        Advance(before, c);
      } else {
        Fails(before, c, if api then RuntimeError else error);
      }
      return if fault.NoFault? then Made(id) else if api then ApiError else OtherError(error);
    }

    method StartPod(id: PodId) returns (r: Result<()>)
      requires Valid() && (pc == UpStart(id))
      modifies `pods, `acts, `last, `log, `pc, `failure, `doomed
      ensures Valid()
      ensures r.Value? ==> pc == ConfRead(id, ToPoll(id))
      ensures if r.Exception? then pc == Raise(cmd) && FailedAt(old(pc), r.error) else failure == old(failure)
      ensures r.Exception? ==> Justified()
    {
      hide Traced, BodyStep, WithStatus;
      var fault, error := Meanwhile(true, true, false);
      ghost var before := W();
      if !Live(pods, id) {
        fault := Before;
      }
      if !fault.Before? {
        pods := WithStatus(pods, id, Exited, Running);
      }
      Operate(before, fault, error);
      return Outcome(fault, error);
    }

    method StopPod(id: PodId) returns (r: Result<()>)
      requires Valid() && (pc == RepStop(id) || pc == DownStop(id))
      modifies `pods, `acts, `last, `log, `pc, `failure, `doomed
      ensures Valid()
      ensures r.Value? ==> pc == Following(cmd, old(pc))
      ensures if r.Exception? then pc == Raise(cmd) && FailedAt(old(pc), r.error) else failure == old(failure)
      ensures r.Exception? ==> Justified()
    {
      hide Traced, BodyStep, WithStatus;
      var fault, error := Meanwhile(true, true, false);
      ghost var before := W();
      if !Live(pods, id) {
        fault := Before;
      }
      if !fault.Before? {
        pods := WithStatus(pods, id, Running, Exited);
      }
      Operate(before, fault, error);
      return Outcome(fault, error);
    }

    /** The endpoint, or nothing while it is pending; a stopped pod is an error. */
    method GetPodEndpoint(id: PodId) returns (r: Result<Option<Address>>)
      requires Valid() && (pc == UpPoll(id) || (pc.RePoll? && pc.id == id))
      modifies `pods, `acts, `last, `log, `pc, `failure, `doomed, `asked
      ensures Valid() && asked == old(asked) + 1
      ensures r.Value? ==> pc == AfterEndpoint(old(pc), r.value)
      ensures if r.Exception? then pc == Raise(cmd) && FailedAt(old(pc), r.error) else failure == old(failure)
      ensures r.Exception? ==> Justified()
    {
      hide Traced, BodyStep, Refusals.Refuses;
      asked := asked + 1;
      var fault, error := Meanwhile(true, true, false);
      if !fault.NoFault? {
        EndpointIsAsked(W(), cmd, pc);
        Fails(W(), Fail, error);
        return Exception(error);
      }
      r := EndpointAnswer(id);
    }

    method EndpointAnswer(id: PodId) returns (r: Result<Option<Address>>)
      requires Valid() && (pc == UpPoll(id) || (pc.RePoll? && pc.id == id))
      modifies `acts, `last, `log, `pc, `failure, `doomed
      ensures Valid()
      ensures r.Value? ==> pc == AfterEndpoint(old(pc), r.value)
      ensures if r.Exception? then pc == Raise(cmd) && FailedAt(old(pc), r.error) && Refused()
              else failure == old(failure)
    {
      hide Traced, BodyStep, Refusals.Refuses;
      EndpointIsAsked(W(), cmd, pc);
      ghost var at := pc;
      Advance(W(), Ok);
      if !Live(pods, id) || pods[id].status == Exited || pods[id].status == Terminated {
        Refuse(at);
        return Exception(RuntimeError);
      }
      return Value(pods[id].addr);
    }

    /** One SSH command with accept-new; the server's key and the command's fate are not ours. */
    method Ssh(addr: Address) returns (r: Connection)
      requires Valid() && ((pc.Probe? && pc.addr == addr) || (pc.Remote? && pc.addr == addr))
      modifies `knownHosts, `pods, `acts, `last, `log, `pc, `failure, `doomed, `commands
      ensures Valid() && commands == old(commands) + 1
      ensures r.Connected? ==> pc == if old(pc).Probe? then Remote(old(pc).id, addr) else Ended
      ensures r.Connected? ==> addr in knownHosts
      ensures r.Unreachable? ==> pc == if old(pc).Probe? then RePoll(old(pc).id, addr) else Raise(cmd)
      ensures r.HostKeyMismatch? || r.NotRun? ==> pc == Raise(cmd)
      ensures last.Some? && last.value.from == old(pc)
      ensures old(pc).Remote? ==> (r.Connected? <==> Launched())
      ensures r.HostKeyMismatch? ==> Refusals.Refuses(last.value.before, cmd, old(pc), last.value.choice) && !Launched()
      ensures if r.NotRun? then FailedAt(old(pc), r.error) else failure == old(failure)
      ensures r.NotRun? ==> Justified()
      ensures r.Unreachable? ==> Refusals.Faulty(last.value.choice)
    {
      hide Traced, BodyStep, SshStep, Refusals.Refuses;
      commands := commands + 1;
      var fault, error := Meanwhile(true, false, true);
      var key: Key, answers: bool := *, *;
      CommandIsRun(W(), cmd, pc, Fail);
      if fault.Before? {
        Fails(W(), Fail, error);
        return NotRun(error);
      }
      if fault.After? && !answers {
        Advance(W(), SshFail(None));
        return Unreachable;
      }
      r := Reach(addr, key, fault.NoFault?);
    }

    /** The server has shown its key. */
    method Reach(addr: Address, key: Key, succeeds: bool) returns (r: Connection)
      requires !succeeds ==> doomed
      requires Valid() && ((pc.Probe? && pc.addr == addr) || (pc.Remote? && pc.addr == addr))
      modifies `knownHosts, `acts, `last, `log, `pc, `doomed
      ensures Valid() && last.Some? && last.value.from == old(pc)
      ensures !r.NotRun? && (r.Unreachable? ==> !succeeds && Refusals.Faulty(last.value.choice))
      ensures r.Connected? ==> pc == (if old(pc).Probe? then Remote(old(pc).id, addr) else Ended) && addr in knownHosts
      ensures r.Unreachable? ==> pc == if old(pc).Probe? then RePoll(old(pc).id, addr) else Raise(cmd)
      ensures old(pc).Remote? ==> (r.Connected? <==> Launched())
      ensures r.HostKeyMismatch? ==>
                pc == Raise(cmd) && Refusals.Refuses(last.value.before, cmd, old(pc), last.value.choice) && !Launched()
    {
      hide Traced, BodyStep;
      ghost var before := W();
      ghost var c := if succeeds || !Accepts(knownHosts, addr, key) then SshOk(key) else SshFail(Some(key));
      CommandIsRun(before, cmd, pc, c);
      if !Accepts(knownHosts, addr, key) {
        Advance(before, c);
        return HostKeyMismatch;
      }
      knownHosts := knownHosts[addr := key];
      Advance(before, c);
      return if succeeds then Connected else Unreachable;
    }

    // ----- the clock -----

    method Monotonic() returns (t: real)
      modifies `now
      ensures t == now >= old(now)
    {
      var passed: real := *;
      if passed > 0.0 {
        now := now + passed;
      }
      return now;
    }

    method Sleep(seconds: real)
      requires seconds >= 0.0
      modifies `now, `sleeps, `slept
      ensures now >= old(now) + seconds && sleeps == old(sleeps) + 1 && slept == old(slept) + seconds
    {
      var longer: real := *;
      now := now + seconds + if longer > 0.0 then longer else 0.0;
      sleeps, slept := sleeps + 1, slept + seconds;
    }

    ghost method GiveUp()
      requires Valid() && (pc.UpPoll? || pc.Probe?) && now >= due
      modifies `acts, `last, `log, `pc, `failure, `doomed
      ensures Valid() && pc == Raise(cmd) && FailedWith(RuntimeError) && TimedOut()
    {
      Fails(W(), Timeout, RuntimeError);
    }

    // ----- ssh.py -----

    method ForgetEndpointForDeletedPod(id: PodId, ghost ret: Return) returns (r: Result<()>)
      requires Valid() && pc == DelRead(id, ret)
      modifies `endpoint, `knownHosts, `pods, `acts, `last, `log, `pc, `failure, `doomed
      ensures Valid()
      ensures r.Value? ==> pc == Resume(ret) && endpoint.None?
      ensures if r.Exception? then pc == Raise(cmd) && FailedInDown(r.error) else failure == old(failure)
      ensures r.Exception? ==> Justified()
    {
      hide Valid;
      var previous :- ReadEndpoint();
      if previous.None? {
        return Value(());
      }
      if previous.value.podId != id {
        Refuse(DelRead(id, ret));
        return Exception(RuntimeError);
      }
      var _ :- RemoveKey(previous.value);
      r := UnlinkEndpoint();
    }

    method ForgetEndpointForReplacement(id: PodId, ghost newId: PodId) returns (r: Result<()>)
      requires Valid() && pc == RepRead(id, newId)
      modifies `endpoint, `knownHosts, `pods, `acts, `last, `log, `pc, `failure, `doomed
      ensures Valid()
      ensures r.Value? ==> pc == RepWriteId(newId) && endpoint.None?
      ensures if r.Exception? then pc == Raise(cmd) && FailedWith(r.error) else failure == old(failure)
      ensures r.Exception? ==> Justified()
    {
      hide Valid;
      var previous :- ReadEndpoint();
      if previous.None? {
        return Value(());
      }
      if previous.value.podId != id {
        Refuse(RepRead(id, newId));
        return Exception(RuntimeError);
      }
      var _ :- RemoveKey(previous.value);
      r := UnlinkEndpoint();
    }

    /** On return the record names pod `id` at `addr`. */
    method PrepareEndpoint(id: PodId, addr: Address) returns (r: Result<()>)
      requires Valid() && pc == PrepRead(id, addr)
      modifies `endpoint, `knownHosts, `pods, `acts, `last, `log, `pc, `failure, `doomed
      ensures Valid()
      ensures r.Value? ==> pc == Probe(id, addr) && endpoint == Some(Record(id, addr))
      ensures if r.Exception? then pc == Raise(cmd) && FailedWith(r.error) else failure == old(failure)
      ensures r.Exception? ==> Justified()
    {
      hide Valid;
      var previous :- ReadEndpoint();
      if previous.None? {
        r := WriteEndpoint(Record(id, addr));
        return;
      }
      if previous.value.podId != id {
        Refuse(PrepRead(id, addr));
        return Exception(RuntimeError);
      }
      if previous.value.addr == addr {
        return Value(());
      }
      var _ :- RemoveKey(previous.value);
      r := WriteEndpoint(Record(id, addr));
    }

    // ----- runtime.py -----

    method ForgetEndpointAfterConfirmedReplacement(id: PodId, ghost ret: Return) returns (r: Result<()>)
      requires Valid() && pc == ConfRead(id, ret)
      modifies `endpoint, `knownHosts, `pods, `acts, `last, `log, `pc, `failure, `doomed
      ensures Valid()
      ensures r.Value? ==> pc == Resume(ret)
      ensures if r.Exception? then pc == Raise(cmd) && FailedInDown(r.error) else failure == old(failure)
      ensures r.Exception? ==> Justified()
    {
      hide Valid;
      var previous :- ReadEndpoint();
      if previous.None? || previous.value.podId == id {
        return Value(());
      }
      var answer := GetPod(previous.value.podId);
      match answer
      case Found(_) => return Value(());
      case Failed(error) => return Exception(error);
      case NotFound => r := ForgetEndpointForDeletedPod(previous.value.podId, ret);
    }

    /** The provider answered 404 for the persisted pod. */
    method ForgetSelection(id: PodId) returns (r: Result<()>)
      requires Valid() && pc == SelCompare(id)
      modifies `podId, `spec, `endpoint, `knownHosts, `pods, `acts, `last, `log, `pc, `failure, `doomed
      ensures Valid()
      ensures r.Value? ==> pc == SelFind && podId.None? && spec.None?
      ensures if r.Exception? then pc == Raise(cmd) && FailedInDown(r.error) else failure == old(failure)
      ensures r.Exception? ==> Justified()
    {
      hide Valid;
      var recorded :- ReadEndpoint();
      if recorded.Some? && recorded.value.podId == id {
        var _ :- ForgetEndpointForDeletedPod(id, ToForgetId);
      } else {
        var _ :- ForgetEndpointAfterConfirmedReplacement(id, ToForgetId);
      }
      r := ForgetIdentity();
    }

    method ForgetIdentity() returns (r: Result<()>)
      requires Valid() && pc == SelForgetId
      modifies `podId, `spec, `pods, `acts, `last, `log, `pc, `failure, `doomed
      ensures Valid()
      ensures r.Value? ==> pc == SelFind && podId.None? && spec.None?
      ensures if r.Exception? then pc == Raise(cmd) && FailedInDown(r.error) else failure == old(failure)
      ensures r.Exception? ==> Justified()
    {
      hide Valid;
      var _ :- ForgetPodId();
      r := ForgetPodSpec();
    }

    /** No pod is selected: adopt the only pod of the configured name, if there is one. */
    method AdoptNamedPod() returns (r: Result<Option<Snapshot>>)
      requires Valid() && pc == SelFind
      modifies `podId, `pods, `acts, `last, `log, `pc, `failure, `doomed
      ensures Valid()
      ensures r.Value? ==> pc == Selected(cmd, r.value) && (r.value.Some? ==> podId == Some(r.value.value.id))
      ensures if r.Exception? then pc == Raise(cmd) && FailedInDown(r.error) else failure == old(failure)
      ensures r.Exception? ==> Justified()
    {
      hide Valid;
      var pod :- FindPodByName();
      if pod.Some? {
        var _ :- WritePodId(pod.value.id);
      }
      return Value(pod);
    }

    method SelectPod() returns (r: Result<Option<Snapshot>>)
      requires Valid() && pc == SelReadId
      modifies `podId, `spec, `endpoint, `knownHosts, `pods, `acts, `last, `log, `pc, `failure, `doomed
      ensures Valid()
      ensures r.Value? ==> pc == Selected(cmd, r.value) && (r.value.Some? ==> podId == Some(r.value.value.id))
      ensures if r.Exception? then pc == Raise(cmd) && FailedInDown(r.error) else failure == old(failure)
      ensures r.Exception? ==> Justified()
    {
      hide Valid;
      var persisted :- ReadPodId();
      if persisted.Some? {
        var id := persisted.value;
        var answer := GetPod(id);
        match answer {
          case Found(pod) => return Value(Some(pod));
          case Failed(error) => return Exception(error);
          case NotFound => var _ :- ForgetSelection(id);
        }
      }
      r := AdoptNamedPod();
    }

    method CreateOrReconcilePod() returns (r: Result<PodId>)
      requires Valid() && pc == UpCreate
      modifies `pods, `acts, `last, `log, `pc, `failure, `doomed
      ensures Valid()
      ensures r.Value? ==> pc == UpWriteId(r.value)
      ensures if r.Exception? then pc == Raise(cmd) && FailedWith(r.error) else failure == old(failure)
      ensures r.Exception? ==> Justified()
    {
      hide Valid;
      var made := CreatePod();
      match made
      case Made(id) => return Value(id);
      case OtherError(error) => return Exception(error);
      case ApiError =>
        var pod :- FindPodByName();
        if pod.None? {
          Refuse(UpReconcile);
          return Exception(RuntimeError);
        }
        return Value(pod.value.id);
    }

    method ReplacePod(pod: Snapshot) returns (r: Result<PodId>)
      requires Valid() && pc == if pod.status == Running then RepStop(pod.id) else RepCreate(pod.id)
      modifies `podId, `spec, `endpoint, `knownHosts, `pods, `acts, `last, `log, `pc, `failure, `doomed
      ensures Valid()
      ensures r.Value? ==> pc == ConfRead(r.value, ToPoll(r.value)) && podId == Some(r.value)
      ensures r.Value? ==> spec == Some(cmd.cfg.fingerprint) && endpoint.None?
      ensures if r.Exception? then pc == Raise(cmd) && FailedWith(r.error) else failure == old(failure)
      ensures r.Exception? ==> Justified()
    {
      hide Valid, CanRaise, Refusals.Refuses;
      if pod.status == Running {
        var _ :- StopPod(pod.id);
      }
      var made := CreatePod();
      if !made.Made? {
        return Exception(if made.OtherError? then made.error else RuntimeError);
      }
      var _ :- ForgetEndpointForReplacement(pod.id, made.id);
      var _ :- WritePodId(made.id);
      var _ :- WritePodSpec();
      return Value(made.id);
    }

    /** The sleeps are of five seconds each and fit the time since `began`; the deadline is `timeout` after that. */
    ghost predicate Paced(began: real, timeout: nat)
      reads this
    {
      && slept == 5.0 * sleeps as real && slept <= now - began && 5 * sleeps < timeout + 5
      && due == began + timeout as real
    }

    method StartClock(timeout: nat) returns (began: real, deadline: real)
      requires sleeps == 0 && slept == 0.0
      modifies `now, `due
      ensures Paced(began, timeout) && deadline == due >= old(now) + timeout as real
    {
      began := Monotonic();
      deadline := began + timeout as real;
      due := deadline;
    }

    /** One round's sleep, after a look at the clock that came before the deadline. */
    method Pause(ghost began: real, ghost timeout: nat) returns (t: real)
      requires Paced(began, timeout) && 5 * sleeps < timeout
      modifies `now, `sleeps, `slept
      ensures Paced(began, timeout) && sleeps == old(sleeps) + 1 && t == now
    {
      Sleep(5.0);
      t := Monotonic();
    }

    /** The first polling loop: it asks once before each sleep, and gives up only at the deadline. */
    method WaitForEndpoint(id: PodId, ghost began: real, deadline: real, ghost timeout: nat)
      returns (r: Result<Address>)
      requires Valid() && pc == UpPoll(id) && Paced(began, timeout) && deadline == due
      modifies `now, `sleeps, `slept, `pods, `acts, `last, `log, `pc, `failure, `doomed, `asked
      ensures Valid() && Paced(began, timeout)
      ensures r.Value? ==> pc == PrepRead(id, r.value)
      ensures if r.Exception? then pc == Raise(cmd) && FailedWith(r.error) else failure == old(failure)
      ensures r.Exception? ==> Justified() || TimedOut()
      ensures asked - old(asked) >= sleeps - old(sleeps) + if r.Value? then 1 else 0
    {
      hide Valid;
      var t := Monotonic();
      while t < deadline
        invariant Valid() && pc == UpPoll(id) && Paced(began, timeout) && t == now && failure == old(failure)
        invariant asked - old(asked) == sleeps - old(sleeps)
        decreases timeout + 5 - 5 * sleeps
      {
        var found :- GetPodEndpoint(id);
        if found.Some? {
          return Value(found.value);
        }
        t := Pause(began, timeout);
      }
      GiveUp();
      return Exception(RuntimeError);
    }

    /**
     One probe; nothing when it connected, otherwise the address to try next: the endpoint is asked for again, and
     rotated to if it is another one.
     */
    method TryConnect(id: PodId, addr: Address) returns (r: Result<Option<Address>>)
      requires Valid() && pc == Probe(id, addr) && endpoint == Some(Record(id, addr))
      modifies `endpoint, `knownHosts, `pods, `acts, `last, `log, `pc, `failure, `doomed, `asked, `commands
      ensures Valid() && commands == old(commands) + 1
      ensures r == Value(None) ==> pc == Remote(id, addr) && endpoint == Some(Record(id, addr))
      ensures r.Value? && r.value.Some? ==>
                pc == Probe(id, r.value.value) && endpoint == Some(Record(id, r.value.value))
      ensures if r.Exception? then pc == Raise(cmd) && FailedWith(r.error) else failure == old(failure)
      ensures r.Exception? ==> Justified()
    {
      hide Valid;
      var probe := Ssh(addr);
      if probe.Connected? {
        return Value(None);
      }
      if probe.NotRun? {
        return Exception(probe.error);
      }
      if probe.HostKeyMismatch? {
        Refuse(Probe(id, addr));
        return Exception(RuntimeError);
      }
      var found :- GetPodEndpoint(id);
      if found.None? || found.value == addr {
        return Value(Some(addr));
      }
      var _ :- PrepareEndpoint(id, found.value);
      return Value(found);
    }

    /**
     The second polling loop, with a rotation whenever the provider reports another endpoint: it tries to connect
     once before each sleep, and gives up only at the deadline.
     */
    method WaitForSsh(id: PodId, first: Address, ghost began: real, deadline: real, ghost timeout: nat)
      returns (r: Result<Address>)
      requires Valid() && pc == Probe(id, first) && Paced(began, timeout) && deadline == due
      requires endpoint == Some(Record(id, first))
      modifies `now, `sleeps, `slept, `endpoint, `knownHosts, `pods, `acts, `last, `log, `pc, `failure, `doomed, `asked,
               `commands
      ensures Valid() && Paced(began, timeout)
      ensures r.Value? ==> pc == Remote(id, r.value) && endpoint == Some(Record(id, r.value))
      ensures if r.Exception? then pc == Raise(cmd) && FailedWith(r.error) else failure == old(failure)
      ensures r.Exception? ==> Justified() || TimedOut()
      ensures commands - old(commands) >= sleeps - old(sleeps) + if r.Value? then 1 else 0
    {
      hide Valid;
      var addr := first;
      var t := Monotonic();
      while t < deadline
        invariant Valid() && pc == Probe(id, addr) && Paced(began, timeout) && t == now && failure == old(failure)
        invariant endpoint == Some(Record(id, addr))
        invariant commands - old(commands) == sleeps - old(sleeps)
        decreases timeout + 5 - 5 * sleeps
      {
        var next :- TryConnect(id, addr);
        if next.None? {
          return Value(addr);
        }
        addr := next.value;
        t := Pause(began, timeout);
      }
      GiveUp();
      return Exception(RuntimeError);
    }

    /** `up` until it knows its pod: create it, reuse it, start it or replace it. */
    method ChoosePod() returns (r: Result<PodId>)
      requires Valid() && cmd.Up? && pc == SelReadId
      modifies `podId, `spec, `endpoint, `knownHosts, `pods, `acts, `last, `log, `pc, `failure, `doomed
      ensures Valid()
      ensures r.Value? ==> pc == UpPoll(r.value) && podId == Some(r.value)
      ensures if r.Exception? then pc == Ended && FailedWith(r.error) else failure == old(failure)
      ensures r.Exception? ==> Justified()
    {
      hide Valid, CanRaise, InDown, Refusals.Refuses;
      var pod :- SelectPod();
      var id: PodId;
      if pod.None? {
        id :- CreateOrReconcilePod();
        var _ :- WritePodId(id);
        var _ :- WritePodSpec();
      } else {
        id :- ReusePod(pod.value);
      }
      var _ :- ForgetEndpointAfterConfirmedReplacement(id, ToPoll(id));
      return Value(id);
    }

    method ReusePod(pod: Snapshot) returns (r: Result<PodId>)
      requires Valid() && cmd.Up? && pc == UpReadSpec(pod) && podId == Some(pod.id)
      modifies `podId, `spec, `endpoint, `knownHosts, `pods, `acts, `last, `log, `pc, `failure, `doomed
      ensures Valid()
      ensures r.Value? ==> pc == ConfRead(r.value, ToPoll(r.value)) && podId == Some(r.value)
      ensures r.Value? ==> spec == Some(cmd.cfg.fingerprint)
      ensures if r.Exception? then pc == Ended && FailedWith(r.error) else failure == old(failure)
      ensures r.Exception? ==> Justified()
    {
      hide Valid;
      var saved :- ReadPodSpec();
      if saved.None? {
        Refuse(UpReadSpec(pod));
        return Exception(RuntimeError);
      }
      if saved.value != cmd.cfg.fingerprint {
        r := ReplacePod(pod);
        return;
      }
      if pod.status == Terminated {
        Refuse(UpReadSpec(pod));
        return Exception(RuntimeError);
      }
      if pod.status == Exited {
        var _ :- StartPod(pod.id);
      }
      return Value(pod.id);
    }

    /**
     `up` inside the lock, from the selection to the remote launch.  It returns normally exactly if its last step
     was a launch that succeeded on an accepted host, at the recorded endpoint of the pod that it chose; any other
     end has a failed operation, one of the reasons of `Refusals`, or the deadline behind it.
     */
    method Up(timeout: nat) returns (r: Result<()>)
      requires Valid() && cmd.Up? && pc == SelReadId && sleeps == 0 && slept == 0.0
      modifies this
      ensures Valid() && pc == Ended
      ensures sleeps <= (timeout + 4) / 5 && slept == 5.0 * sleeps as real
      ensures r.Value? <==> Launched()
      ensures r.Value? ==>
                && podId.Some? && endpoint.Some? && endpoint.value.podId == podId.value
                && last.value.from == Remote(podId.value, endpoint.value.addr) && endpoint.value.addr in knownHosts
      ensures if r.Exception? then FailedWith(r.error) else failure == old(failure)
      ensures r.Exception? ==>
                Justified() || (TimedOut() && now >= old(now) + timeout as real)
    {
      hide Valid;
      var id :- ChoosePod();
      r := ConnectAndLaunch(id, timeout);
    }

    method ConnectAndLaunch(id: PodId, timeout: nat) returns (r: Result<()>)
      requires Valid() && cmd.Up? && pc == UpPoll(id) && sleeps == 0 && slept == 0.0
      modifies `now, `sleeps, `slept, `due, `endpoint, `knownHosts, `pods, `acts, `last, `log, `pc, `failure, `doomed,
               `asked, `commands
      ensures Valid() && pc == Ended && 5 * sleeps < timeout + 5 && slept == 5.0 * sleeps as real
      ensures due >= old(now) + timeout as real
      ensures LaunchedIff(r, id)
      ensures if r.Exception? then FailedWith(r.error) else failure == old(failure)
      ensures r.Exception? ==> Justified() || TimedOut()
    {
      hide Valid;
      var began, deadline := StartClock(timeout);
      var addr :- WaitForEndpoint(id, began, deadline, timeout);
      var _ :- PrepareEndpoint(id, addr);
      r := ConnectBefore(id, addr, began, deadline, timeout);
    }

    /** The call returns normally exactly if it has launched, at the recorded endpoint of pod `id`. */
    ghost predicate LaunchedIff(r: Result<()>, id: PodId)
      reads `last, `endpoint, `knownHosts
    {
      && (r.Value? <==> Launched())
      && (r.Value? ==>
            && endpoint.Some? && endpoint.value.podId == id && endpoint.value.addr in knownHosts
            && last.value.from == Remote(id, endpoint.value.addr))
    }

    method ConnectBefore(id: PodId, first: Address, ghost began: real, deadline: real, ghost timeout: nat)
      returns (r: Result<()>)
      requires Valid() && cmd.Up? && pc == Probe(id, first) && endpoint == Some(Record(id, first))
      requires Paced(began, timeout) && deadline == due
      modifies `now, `sleeps, `slept, `endpoint, `knownHosts, `pods, `acts, `last, `log, `pc, `failure, `doomed, `asked,
               `commands
      ensures Valid() && pc == Ended && Paced(began, timeout)
      ensures LaunchedIff(r, id)
      ensures if r.Exception? then FailedWith(r.error) else failure == old(failure)
      ensures r.Exception? ==> Justified() || TimedOut()
    {
      hide Valid;
      var addr :- WaitForSsh(id, first, began, deadline, timeout);
      r := Launch(id, addr);
    }

    /** Runs the packaged script on the pod. */
    method Launch(id: PodId, addr: Address) returns (r: Result<()>)
      requires Valid() && cmd.Up? && pc == Remote(id, addr)
      modifies `knownHosts, `pods, `acts, `last, `log, `pc, `failure, `doomed, `commands
      ensures Valid() && pc == Ended && commands == old(commands) + 1
      ensures r.Value? <==> Launched()
      ensures r.Value? ==> last.value.from == Remote(id, addr) && addr in knownHosts
      ensures if r.Exception? then FailedWith(r.error) else failure == old(failure)
      ensures r.Exception? ==> Justified()
    {
      hide Valid;
      var launched := Ssh(addr);
      if launched.NotRun? {
        return Exception(launched.error);
      }
      if !launched.Connected? {
        Refuse(Remote(id, addr));
        return Exception(RuntimeError);
      }
      return Value(());
    }

    /** The pod step of `down`. */
    method StopSelectedPod() returns (r: Result<()>)
      requires Valid() && cmd.Down? && pc == SelReadId
      modifies `podId, `spec, `endpoint, `knownHosts, `pods, `acts, `last, `log, `pc, `failure, `doomed
      ensures Valid()
      ensures pc == DownClean(r.Exception?)
      ensures if r.Exception? then FailedInDown(r.error) else failure == old(failure)
      ensures r.Exception? ==> Justified()
    {
      hide Valid;
      var pod :- SelectPod();
      if pod.Some? && pod.value.status == Running {
        var _ :- StopPod(pod.value.id);
      }
      return Value(());
    }

    /**
     `down` inside the lock.  `tunnel` is what `systemctl stop` did and `stuck` are the files whose
     removal fails.  It escapes exactly from a tunnel step or a pod step that raises something it does not
     catch; `failure` says where the pod step raised what.  Otherwise all three removals are tried and the
     errors name exactly the steps that failed, in order; and if there are none, and nobody else has resumed
     a pod meanwhile, the persisted pod is not RUNNING.
     */
    method Down(tunnel: TunnelStop, stuck: set<File>) returns (r: DownResult)
      requires Valid() && cmd.Down? && pc == SelReadId && failure.None?
      modifies this
      ensures Valid()
      ensures failure.Some? ==> FailsInDown(failure.value) && Justified()
      ensures r.Escaped? <==> EscapesTunnelStep(tunnel) || (failure.Some? && EscapesPodStep(failure.value))
      ensures EscapesTunnelStep(tunnel) ==> acts == old(acts) && W() == old(W())
      ensures r.Escaped? ==> transient == old(transient)
      ensures !r.Escaped? ==> pc == Ended && transient == old(transient) * stuck
      ensures !r.Escaped? ==> Errors(r) == Failures(tunnel, failure.Some?, stuck)
      ensures r.Incomplete? ==> r.errors != []
      ensures r.Clean? && Fresh(start) && NoResumeSince(begun, acts) ==> PersistedIsStopped()
    {
      hide Valid;
      if EscapesTunnelStep(tunnel) {
        return Escaped;
      }
      r := StopAndCleanUp(if tunnel.Stopped? then [] else [TunnelFailed], stuck);
    }

    method StopAndCleanUp(before: seq<Failure>, stuck: set<File>) returns (r: DownResult)
      requires Valid() && cmd.Down? && pc == SelReadId && failure.None?
      modifies this
      ensures Valid()
      ensures failure.Some? ==> FailsInDown(failure.value) && Justified()
      ensures r.Escaped? <==> failure.Some? && EscapesPodStep(failure.value)
      ensures r.Escaped? ==> transient == old(transient)
      ensures !r.Escaped? ==> pc == Ended && transient == old(transient) * stuck
      ensures !r.Escaped? ==> Errors(r) == before + (if failure.Some? then [PodStepFailed] else [])
                                           + RemovalFailures(TRANSIENT_FILES, stuck)
      ensures r.Incomplete? ==> r.errors != []
      ensures r.Clean? && Fresh(start) && NoResumeSince(begun, acts) ==> PersistedIsStopped()
    {
      hide Valid;
      var stopped := StopSelectedPod();
      if stopped.Exception? {
        EscapesAreOSErrors(failure.value);
        if stopped.error.OSError? {
          return Escaped;
        }
      }
      r := CleanUp(if stopped.Exception? then before + [PodStepFailed] else before + [], stuck);
    }

    ghost predicate PersistedIsStopped()
      reads this
    {
      podId.Some? ==> !Shutdown.IsRunning(pods, podId.value)
    }

    /** The three removals, and the result of `down`. */
    method CleanUp(before: seq<Failure>, stuck: set<File>) returns (r: DownResult)
      requires Valid() && cmd.Down? && pc.DownClean?
      modifies `transient, `acts, `last, `log, `pc, `doomed
      ensures Valid() && pc == Ended && transient == old(transient) * stuck
      ensures !r.Escaped? && Errors(r) == before + RemovalFailures(TRANSIENT_FILES, stuck)
      ensures r.Incomplete? ==> r.errors != []
      ensures old(pc) == DownClean(false) && Fresh(start) && NoResumeSince(begun, acts) ==> PersistedIsStopped()
    {
      var failed := RemoveTransientFiles(stuck);
      var errors := before + failed;
      FinishDown();
      return if errors == [] then Clean else Incomplete(errors);
    }

    ghost method FinishDown()
      requires Valid() && cmd.Down? && pc.DownClean?
      modifies `acts, `last, `log, `pc, `doomed
      ensures Valid() && pc == Ended
      ensures old(pc) == DownClean(false) && Fresh(start) && NoResumeSince(begun, acts) ==> PersistedIsStopped()
    {
      ghost var shorter := acts;
      if pc == DownClean(false) && Fresh(start) && NoResumeSince(begun, acts) {
        StoppedWithoutResume(start, begun, acts, W(), cmd.cfg);
      }
      Advance(W(), Ok);
      assert NoResumeSince(begun, acts) ==> NoResumeSince(begun, shorter) by {
        assert forall i :: 0 <= i < |shorter| ==> shorter[i] == acts[i];
      }
    }

    method RemoveTransientFiles(stuck: set<File>) returns (errors: seq<Failure>)
      modifies `transient
      ensures transient == old(transient) * stuck
      ensures errors == RemovalFailures(TRANSIENT_FILES, stuck)
    {
      errors := [];
      for i := 0 to |TRANSIENT_FILES|
        invariant transient == old(transient) - (set f | f in TRANSIENT_FILES[..i] && f !in stuck)
        invariant errors == RemovalFailures(TRANSIENT_FILES[..i], stuck)
      {
        var file := TRANSIENT_FILES[i];
        assert TRANSIENT_FILES[..i + 1] == TRANSIENT_FILES[..i] + [file];
        if file in stuck {
          errors := errors + [RemovalFailed(file)];
        } else {
          transient := transient - {file};
        }
      }
      assert TRANSIENT_FILES[..|TRANSIENT_FILES|] == TRANSIENT_FILES;
      AllTransient();
    }
  }
}
