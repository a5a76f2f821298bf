/**
 The pod identity and SSH trust protocol of `up` and `down`, one lock-held body at a time.

 The state directory holds four separate durable things: the pod id, the pod specification
 fingerprint, the SSH endpoint record and `known_hosts`.  No transaction covers them, so the
 body is cut into steps that each read or change at most one of them, or make one provider
 request, or one SSH connection.  `BodyStep` gives the step at each program point.

 Identifiers, names, fingerprints, hosts and host keys are only ever compared for equality;
 they are numbers here.
 */
module Lifecycle {
  import opened Wrappers

  type PodId = nat
  type Name = nat
  type Fingerprint = nat
  type Key = nat

  datatype Address = Address(host: nat, port: nat)

  datatype Record = Record(podId: PodId, addr: Address)

  datatype Disk = Disk(
    podId: Option<PodId>,
    spec: Option<Fingerprint>,
    endpoint: Option<Record>,
    knownHosts: map<Address, Key>)

  const EMPTY_DISK := Disk(None, None, None, map[])

  /** `Gone` is a deleted pod: its id is never reused and the provider answers 404 for it. */
  datatype Status = Running | Exited | Terminated | OtherStatus | Gone

  /** Which create request made a pod; `Foreign` pods were made by somebody else. */
  datatype Origin = Ours(fingerprint: Fingerprint) | Foreign

  datatype Pod = Pod(name: Name, status: Status, origin: Origin, addr: Option<Address>)

  type Pods = map<PodId, Pod>

  predicate Live(pods: Pods, id: PodId) {
    id in pods && pods[id].status != Gone
  }

  predicate Named(pods: Pods, name: Name, id: PodId) {
    Live(pods, id) && pods[id].name == name
  }

  predicate NoneNamed(pods: Pods, name: Name) {
    forall id <- pods :: !Named(pods, name, id)
  }

  predicate OnlyNamed(pods: Pods, name: Name, id: PodId) {
    Named(pods, name, id) && forall other <- pods :: Named(pods, name, other) ==> other == id
  }

  /** What an observer of the provider, `ssh-keygen -R`, SSH and the record would have seen. */
  datatype Event =
    | Began
    | Answered404(id: PodId)
    | Reported(id: PodId, addr: Address)
    | Mismatch(id: PodId, saved: Fingerprint, expected: Fingerprint)
    | Created(id: PodId, fingerprint: Fingerprint, replaced: Option<PodId>)
    | RemovedKey(rec: Record)
    | RecordSet(rec: Record)
    | RecordCleared
    | Trusted(addr: Address, key: Key)

  datatype World = World(disk: Disk, pods: Pods, log: seq<Event>)

  function Extend(log: seq<Event>, e: Event): seq<Event> {
    log + [e]
  }

  function Logged(w: World, e: Event): World {
    w.(log := Extend(w.log, e))
  }

  /** The settings one process loaded before it asked for the lock. */
  datatype Settings = Settings(podName: Name, fingerprint: Fingerprint)

  datatype Command = Up(cfg: Settings) | Down(cfg: Settings)

  /** The part of a provider answer that the controller keeps in a local variable. */
  datatype Snapshot = Snapshot(id: PodId, status: Status)

  /** Where `_forget_endpoint_after_confirmed_replacement` and the deletion path return to. */
  datatype Return = ToForgetId | ToPoll(id: PodId)

  datatype Pc =
    // _select_pod
    | SelReadId
    | SelGet(id: PodId)
    | SelCompare(id: PodId)
    | SelForgetId
    | SelForgetSpec
    | SelFind
    | SelWriteId(pod: Snapshot)
    // _forget_endpoint_after_confirmed_replacement
    | ConfRead(id: PodId, ret: Return)
    | ConfGet(previous: PodId, ret: Return)
    // forget_endpoint_for_deleted_pod
    | DelRead(id: PodId, ret: Return)
    | DelKeygen(rec: Record, ret: Return)
    | DelUnlink(rec: Record, ret: Return)
    // up: create
    | UpCreate
    | UpReconcile
    | UpWriteId(id: PodId)
    | UpWriteSpec(id: PodId)
    // up: reuse
    | UpReadSpec(pod: Snapshot)
    | UpStart(id: PodId)
    // _replace_pod with forget_endpoint_for_replacement
    | RepStop(id: PodId)
    | RepCreate(id: PodId)
    | RepRead(id: PodId, newId: PodId)
    | RepKeygen(rec: Record, newId: PodId)
    | RepUnlink(rec: Record, newId: PodId)
    | RepWriteId(newId: PodId)
    | RepWriteSpec(newId: PodId)
    // up: the two polling loops with prepare_endpoint
    | UpPoll(id: PodId)
    | PrepRead(id: PodId, addr: Address)
    | PrepKeygen(rec: Record, addr: Address)
    | PrepWrite(id: PodId, addr: Address)
    | Probe(id: PodId, addr: Address)
    | RePoll(id: PodId, addr: Address)
    | Remote(id: PodId, addr: Address)
    // down
    | DownStop(id: PodId)
    | DownClean(failed: bool)
    // the body is over, the lock is still held
    | Ended

  /**
   What the environment decides at one step.  `Fail` raises without effect and `FailAfter` raises
   after the operation took effect, as an atomic replacement whose directory sync fails does.
   */
  datatype Choice =
    | Ok
    | Fail
    | FailAfter
    | CreateOk(id: PodId)
    | CreateFail(api: bool)
    | CreateLost(id: PodId, api: bool)
    | FoundNone
    | FoundOne(id: PodId)
    | FoundMany(id: PodId, other: PodId)
    | SshOk(key: Key)
    | SshFail(seen: Option<Key>)
    | Timeout

  /** The outcome of one step; `Blocked` when the environment cannot make that choice here. */
  datatype Next = Blocked | Then(w: World, pc: Pc)

  /** An exception ends `up`; `down` records it and goes on to its file removals. */
  function Raise(cmd: Command): Pc {
    if cmd.Up? then Ended else DownClean(true)
  }

  /** One operation that turns `w` into `after` when it takes effect. */
  function Operation(w: World, after: World, next: Pc, cmd: Command, c: Choice): Next {
    match c
    case Ok => Then(after, next)
    case Fail => Then(w, Raise(cmd))
    case FailAfter => Then(after, Raise(cmd))
    case _ => Blocked
  }

  /** A read or a provider query; `after` differs from `w` only in the log. */
  function Query(w: World, after: World, next: Pc, cmd: Command, c: Choice): Next {
    match c
    case Ok => Then(after, next)
    case Fail => Then(w, Raise(cmd))
    case _ => Blocked
  }

  function Reading(w: World, next: Pc, cmd: Command, c: Choice): Next {
    Query(w, w, next, cmd, c)
  }

  function Resume(ret: Return): Pc {
    match ret
    case ToForgetId => SelForgetId
    case ToPoll(id) => UpPoll(id)
  }

  /** What the caller of `_select_pod` does with its result. */
  function Selected(cmd: Command, pod: Option<Snapshot>): Pc {
    match (cmd, pod)
    case (Up(_), None) => UpCreate
    case (Up(_), Some(s)) => UpReadSpec(s)
    case (Down(_), None) => DownClean(false)
    case (Down(_), Some(s)) => if s.status == Running then DownStop(s.id) else DownClean(false)
  }

  // ----- effects on the state directory -----

  function WithId(w: World, id: Option<PodId>): World {
    w.(disk := w.disk.(podId := id))
  }

  function WithSpec(w: World, spec: Option<Fingerprint>): World {
    w.(disk := w.disk.(spec := spec))
  }

  function WithRecord(w: World, rec: Option<Record>): World {
    Logged(w.(disk := w.disk.(endpoint := rec)), if rec.Some? then RecordSet(rec.value) else RecordCleared)
  }

  /** `ssh-keygen -R` for the address of `rec`; an absent entry is no error. */
  function WithoutKey(w: World, rec: Record): World {
    Logged(w.(disk := w.disk.(knownHosts := w.disk.knownHosts - {rec.addr})), RemovedKey(rec))
  }

  // ----- effects on the provider -----

  function WithStatus(pods: Pods, id: PodId, from: Status, to: Status): Pods {
    if id in pods && pods[id].status == from then pods[id := pods[id].(status := to)] else pods
  }

  function WithPod(w: World, id: PodId, cfg: Settings, replaced: Option<PodId>): World {
    Logged(w.(pods := w.pods[id := Pod(cfg.podName, Running, Ours(cfg.fingerprint), None)]),
           Created(id, cfg.fingerprint, replaced))
  }

  // ----- SSH with StrictHostKeyChecking=accept-new -----

  predicate Accepts(knownHosts: map<Address, Key>, addr: Address, key: Key) {
    addr in knownHosts ==> knownHosts[addr] == key
  }

  function WithTrust(w: World, addr: Address, key: Key): World {
    Logged(w.(disk := w.disk.(knownHosts := w.disk.knownHosts[addr := key])), Trusted(addr, key))
  }

  // ----- the parts of a body -----

  predicate InSelect(pc: Pc) {
    pc.SelReadId? || pc.SelGet? || pc.SelCompare?
  }

  predicate InAdopt(pc: Pc) {
    pc.SelForgetId? || pc.SelForgetSpec? || pc.SelFind? || pc.SelWriteId?
  }

  predicate InForget(pc: Pc) {
    pc.ConfRead? || pc.ConfGet? || pc.DelRead? || pc.DelKeygen? || pc.DelUnlink?
  }

  predicate InCreate(pc: Pc) {
    pc.UpCreate? || pc.UpReconcile? || pc.UpWriteId? || pc.UpWriteSpec?
  }

  predicate InReuse(pc: Pc) {
    pc.UpReadSpec? || pc.UpStart? || pc.RepStop? || pc.RepCreate?
  }

  predicate InReplace(pc: Pc) {
    pc.RepRead? || pc.RepKeygen? || pc.RepUnlink? || pc.RepWriteId? || pc.RepWriteSpec?
  }

  predicate InPrepare(pc: Pc) {
    pc.UpPoll? || pc.PrepRead? || pc.PrepKeygen? || pc.PrepWrite?
  }

  predicate InConnect(pc: Pc) {
    pc.Probe? || pc.RePoll? || pc.Remote?
  }

  predicate InFinish(pc: Pc) {
    pc.DownStop? || pc.DownClean?
  }

  // ----- the steps -----

  /** `find_pod_by_name`: no match, exactly one, or an error when the name is ambiguous. */
  function FindStep(w: World, cmd: Command, c: Choice, none: Pc, reconciling: bool): Next {
    match c
    case FoundNone =>
      if NoneNamed(w.pods, cmd.cfg.podName) then Then(w, none) else Blocked
    case FoundOne(id) =>
      if OnlyNamed(w.pods, cmd.cfg.podName, id)
      then Then(w, if reconciling then UpWriteId(id) else SelWriteId(Snapshot(id, w.pods[id].status)))
      else Blocked
    case FoundMany(id, other) =>
      if id != other && Named(w.pods, cmd.cfg.podName, id) && Named(w.pods, cmd.cfg.podName, other)
      then Then(w, Raise(cmd)) else Blocked
    case Fail => Then(w, Raise(cmd))
    case _ => Blocked
  }

  /** `get_pod_endpoint`, with the stopped pod and the 404 as errors; `pending` is the null answer. */
  function EndpointStep(w: World, cmd: Command, c: Choice, id: PodId, pending: Pc, known: Option<Address>): Next {
    match c
    case Ok =>
      if !Live(w.pods, id) || w.pods[id].status == Exited || w.pods[id].status == Terminated then Then(w, Raise(cmd))
      else if w.pods[id].addr.None? || w.pods[id].addr == known then Then(w, pending)
      else Then(Logged(w, Reported(id, w.pods[id].addr.value)), PrepRead(id, w.pods[id].addr.value))
    case Fail => Then(w, Raise(cmd))
    case Timeout => if known.None? then Then(w, Raise(cmd)) else Blocked
    case _ => Blocked
  }

  /** One SSH command at `addr`; `good` and `bad` are the continuations for exit 0 and the rest. */
  function SshStep(w: World, cmd: Command, c: Choice, addr: Address, good: Pc, bad: Pc): Next {
    match c
    case SshOk(key) =>
      if Accepts(w.disk.knownHosts, addr, key) then Then(WithTrust(w, addr, key), good)
      else Then(w, Raise(cmd))
    case SshFail(Some(key)) =>
      if Accepts(w.disk.knownHosts, addr, key) then Then(WithTrust(w, addr, key), bad)
      else Then(w, Raise(cmd))
    case SshFail(None) => Then(w, bad)
    case Fail => Then(w, Raise(cmd))
    case _ => Blocked
  }

  /** `_select_pod` up to the provider's answer about the persisted pod. */
  function SelectStep(w: World, cmd: Command, pc: Pc, c: Choice): Next
    requires InSelect(pc)
  {
    match pc
    case SelReadId =>
      Reading(w, if w.disk.podId.None? then SelFind else SelGet(w.disk.podId.value), cmd, c)
    case SelGet(id) =>
      if Live(w.pods, id) then
        Reading(w, Selected(cmd, Some(Snapshot(id, w.pods[id].status))), cmd, c)
      else
        Query(w, Logged(w, Answered404(id)), SelCompare(id), cmd, c)
    case SelCompare(id) =>
      Reading(w,
              if w.disk.endpoint.Some? && w.disk.endpoint.value.podId == id
              then DelRead(id, ToForgetId) else ConfRead(id, ToForgetId),
              cmd, c)
  }

  /** `_select_pod` once no pod is selected. */
  function AdoptStep(w: World, cmd: Command, pc: Pc, c: Choice): Next
    requires InAdopt(pc)
  {
    match pc
    case SelForgetId => Operation(w, WithId(w, None), SelForgetSpec, cmd, c)
    case SelForgetSpec => Operation(w, WithSpec(w, None), SelFind, cmd, c)
    case SelFind => FindStep(w, cmd, c, Selected(cmd, None), false)
    case SelWriteId(pod) => Operation(w, WithId(w, Some(pod.id)), Selected(cmd, Some(pod)), cmd, c)
  }

  /** `_forget_endpoint_after_confirmed_replacement` and `forget_endpoint_for_deleted_pod`. */
  function ForgetStep(w: World, cmd: Command, pc: Pc, c: Choice): Next
    requires InForget(pc)
  {
    match pc
    case ConfRead(id, ret) =>
      Reading(w,
              if w.disk.endpoint.None? || w.disk.endpoint.value.podId == id
              then Resume(ret) else ConfGet(w.disk.endpoint.value.podId, ret),
              cmd, c)
    case ConfGet(previous, ret) =>
      if Live(w.pods, previous) then
        Reading(w, Resume(ret), cmd, c)
      else
        Query(w, Logged(w, Answered404(previous)), DelRead(previous, ret), cmd, c)
    case DelRead(id, ret) =>
      Reading(w,
              if w.disk.endpoint.None? then Resume(ret)
              else if w.disk.endpoint.value.podId != id then Raise(cmd)
              else DelKeygen(w.disk.endpoint.value, ret),
              cmd, c)
    case DelKeygen(rec, ret) => Operation(w, WithoutKey(w, rec), DelUnlink(rec, ret), cmd, c)
    case DelUnlink(rec, ret) => Operation(w, WithRecord(w, None), Resume(ret), cmd, c)
  }

  /** `_create_or_reconcile_pod` and the two writes after it. */
  function CreateStep(w: World, cmd: Command, pc: Pc, c: Choice): Next
    requires InCreate(pc)
  {
    match pc
    case UpCreate => (
      match c
      case CreateOk(id) =>
        if id in w.pods then Blocked else Then(WithPod(w, id, cmd.cfg, None), UpWriteId(id))
      case CreateLost(id, api) =>
        if id in w.pods then Blocked
        else Then(WithPod(w, id, cmd.cfg, None), if api then UpReconcile else Raise(cmd))
      case CreateFail(api) => Then(w, if api then UpReconcile else Raise(cmd))
      case _ => Blocked)
    case UpReconcile => FindStep(w, cmd, c, Raise(cmd), true)
    case UpWriteId(id) => Operation(w, WithId(w, Some(id)), UpWriteSpec(id), cmd, c)
    case UpWriteSpec(id) =>
      Operation(w, WithSpec(w, Some(cmd.cfg.fingerprint)), ConfRead(id, ToPoll(id)), cmd, c)
  }

  /** `up` compares the saved specification of the selected pod with the current one. */
  function ReadSpecStep(w: World, cmd: Command, pod: Snapshot, c: Choice): Next {
    if w.disk.spec.Some? && w.disk.spec.value != cmd.cfg.fingerprint then
      Query(w, Logged(w, Mismatch(pod.id, w.disk.spec.value, cmd.cfg.fingerprint)),
            if pod.status == Running then RepStop(pod.id) else RepCreate(pod.id), cmd, c)
    else
      Reading(w,
              if w.disk.spec.None? || pod.status == Terminated then Raise(cmd)
              else if pod.status == Exited then UpStart(pod.id)
              else ConfRead(pod.id, ToPoll(pod.id)),
              cmd, c)
  }

  /** `up` with a selected pod: reuse it, start it, or begin to replace it. */
  function ReuseStep(w: World, cmd: Command, pc: Pc, c: Choice): Next
    requires InReuse(pc)
  {
    match pc
    case UpReadSpec(pod) => ReadSpecStep(w, cmd, pod, c)
    case UpStart(id) =>
      if c.Ok? && !Live(w.pods, id) then Blocked
      else Operation(w, w.(pods := WithStatus(w.pods, id, Exited, Running)), ConfRead(id, ToPoll(id)), cmd, c)
    case RepStop(id) =>
      if c.Ok? && !Live(w.pods, id) then Blocked
      else Operation(w, w.(pods := WithStatus(w.pods, id, Running, Exited)), RepCreate(id), cmd, c)
    case RepCreate(id) => (
      match c
      case CreateOk(newId) =>
        if newId in w.pods then Blocked else Then(WithPod(w, newId, cmd.cfg, Some(id)), RepRead(id, newId))
      case CreateLost(newId, _) =>
        if newId in w.pods then Blocked else Then(WithPod(w, newId, cmd.cfg, Some(id)), Raise(cmd))
      case CreateFail(_) => Then(w, Raise(cmd))
      case _ => Blocked)
  }

  /** `_replace_pod` after its create, with `forget_endpoint_for_replacement`. */
  function ReplaceStep(w: World, cmd: Command, pc: Pc, c: Choice): Next
    requires InReplace(pc)
  {
    match pc
    case RepRead(id, newId) =>
      Reading(w,
              if w.disk.endpoint.None? then RepWriteId(newId)
              else if w.disk.endpoint.value.podId != id then Raise(cmd)
              else RepKeygen(w.disk.endpoint.value, newId),
              cmd, c)
    case RepKeygen(rec, newId) => Operation(w, WithoutKey(w, rec), RepUnlink(rec, newId), cmd, c)
    case RepUnlink(rec, newId) => Operation(w, WithRecord(w, None), RepWriteId(newId), cmd, c)
    case RepWriteId(newId) => Operation(w, WithId(w, Some(newId)), RepWriteSpec(newId), cmd, c)
    case RepWriteSpec(newId) =>
      Operation(w, WithSpec(w, Some(cmd.cfg.fingerprint)), ConfRead(newId, ToPoll(newId)), cmd, c)
  }

  /** The first polling loop and `prepare_endpoint`. */
  function PrepareStep(w: World, cmd: Command, pc: Pc, c: Choice): Next
    requires InPrepare(pc)
  {
    match pc
    case UpPoll(id) => EndpointStep(w, cmd, c, id, UpPoll(id), None)
    case PrepRead(id, addr) =>
      Reading(w,
              if w.disk.endpoint.None? then PrepWrite(id, addr)
              else if w.disk.endpoint.value.podId != id then Raise(cmd)
              else if w.disk.endpoint.value.addr == addr then Probe(id, addr)
              else PrepKeygen(w.disk.endpoint.value, addr),
              cmd, c)
    case PrepKeygen(rec, addr) => Operation(w, WithoutKey(w, rec), PrepWrite(rec.podId, addr), cmd, c)
    case PrepWrite(id, addr) => Operation(w, WithRecord(w, Some(Record(id, addr))), Probe(id, addr), cmd, c)
  }

  /** The second polling loop and the remote launch. */
  function ConnectStep(w: World, cmd: Command, pc: Pc, c: Choice): Next
    requires InConnect(pc)
  {
    match pc
    case Probe(id, addr) =>
      if c.Timeout? then Then(w, Raise(cmd))
      else SshStep(w, cmd, c, addr, Remote(id, addr), RePoll(id, addr))
    case RePoll(id, addr) => EndpointStep(w, cmd, c, id, Probe(id, addr), Some(addr))
    case Remote(id, addr) => SshStep(w, cmd, c, addr, Ended, Raise(cmd))
  }

  /** `down` after its selection. */
  function FinishStep(w: World, cmd: Command, pc: Pc, c: Choice): Next
    requires InFinish(pc)
  {
    match pc
    case DownStop(id) =>
      if c.Ok? && !Live(w.pods, id) then Blocked
      else Operation(w, w.(pods := WithStatus(w.pods, id, Running, Exited)), DownClean(false), cmd, c)
    case DownClean(_) => if c.Ok? then Then(w, Ended) else Blocked
  }

  /** One step of a lock-held body. */
  function BodyStep(w: World, cmd: Command, pc: Pc, c: Choice): Next {
    if InSelect(pc) then SelectStep(w, cmd, pc, c)
    else if InAdopt(pc) then AdoptStep(w, cmd, pc, c)
    else if InForget(pc) then ForgetStep(w, cmd, pc, c)
    else if InCreate(pc) then CreateStep(w, cmd, pc, c)
    else if InReuse(pc) then ReuseStep(w, cmd, pc, c)
    else if InReplace(pc) then ReplaceStep(w, cmd, pc, c)
    else if InPrepare(pc) then PrepareStep(w, cmd, pc, c)
    else if InConnect(pc) then ConnectStep(w, cmd, pc, c)
    else if InFinish(pc) then FinishStep(w, cmd, pc, c)
    else Blocked
  }

  // ----- the provider on its own -----

  datatype EnvAction =
    | ForeignCreate(id: PodId, pod: Pod)
    | SetStatus(id: PodId, status: Status)
    | SetAddr(id: PodId, addr: Option<Address>)
    | Delete(id: PodId)

  predicate EnvEnabled(pods: Pods, e: EnvAction) {
    match e
    case ForeignCreate(id, pod) => id !in pods && pod.origin == Foreign
    case SetStatus(id, status) => Live(pods, id) && status != Gone
    case SetAddr(id, _) => Live(pods, id)
    case Delete(id) => Live(pods, id)
  }

  function EnvStep(pods: Pods, e: EnvAction): Pods
    requires EnvEnabled(pods, e)
  {
    match e
    case ForeignCreate(id, pod) => pods[id := pod]
    case SetStatus(id, status) => pods[id := pods[id].(status := status)]
    case SetAddr(id, addr) => pods[id := pods[id].(addr := addr)]
    case Delete(id) => pods[id := pods[id].(status := Gone)]
  }

  // ----- lock-held bodies one after another -----

  datatype Activity = Activity(cmd: Command, pc: Pc)

  /** `cur` is the body that holds the lock, if any. */
  datatype SState = SState(world: World, cur: Option<Activity>)

  /** `Cut` ends a lock-held body wherever it is: at its end, or by a crash. */
  datatype SAction = Begin(cmd: Command) | Move(c: Choice) | Cut | Env(e: EnvAction)

  function SStep(s: SState, a: SAction): Option<SState> {
    match a
    case Begin(cmd) =>
      if s.cur.Some? then None
      else Some(SState(Logged(s.world, Began), Some(Activity(cmd, SelReadId))))
    case Move(c) =>
      if s.cur.None? then None
      else (
        match BodyStep(s.world, s.cur.value.cmd, s.cur.value.pc, c)
        case Blocked => None
        case Then(w, pc) => Some(SState(w, Some(s.cur.value.(pc := pc)))))
    case Cut => if s.cur.None? then None else Some(s.(cur := None))
    case Env(e) =>
      if EnvEnabled(s.world.pods, e)
      then Some(s.(world := s.world.(pods := EnvStep(s.world.pods, e)))) else None
  }

  function SRun(s: SState, acts: seq<SAction>): Option<SState> {
    if acts == [] then Some(s)
    else
      var before := SRun(s, acts[..|acts| - 1]);
      if before.None? then None else SStep(before.value, acts[|acts| - 1])
  }

  /** One more action after a run. */
  lemma RunMore(s: SState, acts: seq<SAction>, t: SState, a: SAction)
    requires SRun(s, acts) == Some(t)
    ensures SRun(s, acts + [a]) == SStep(t, a)
  {
    assert (acts + [a])[..|acts + [a]| - 1] == acts;
  }

  /** A step of the body that holds the lock. */
  lemma MoveStep(w: World, cmd: Command, pc: Pc, c: Choice, n: Next)
    requires BodyStep(w, cmd, pc, c) == n && n.Then?
    ensures SStep(SState(w, Some(Activity(cmd, pc))), Move(c)) == Some(SState(n.w, Some(Activity(cmd, n.pc))))
  {
  }

  /** A fresh installation: an empty state directory, and only other people's pods. */
  ghost predicate Fresh(s: SState) {
    s.world.disk == EMPTY_DISK && s.world.log == [] && s.cur.None?
    && forall id :: id in s.world.pods ==> s.world.pods[id].origin == Foreign
  }

  /** Every action of the run satisfies `allowed` in the state where it is taken. */
  ghost predicate Along(s: SState, acts: seq<SAction>, allowed: (SState, SAction) -> bool) {
    acts != [] ==>
      var init := acts[..|acts| - 1];
      Along(s, init, allowed) && (SRun(s, init).Some? ==> allowed(SRun(s, init).value, acts[|acts| - 1]))
  }
}
