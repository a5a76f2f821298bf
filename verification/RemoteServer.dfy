/**
 `ensure-vllm.sh` on the pod: a pid file, a signature file and the processes, over any number of runs of
 the script, server deaths, interrupted runs and pod restarts.

 One controller talks to the pod, so at most one script runs.  `kill -9` is effective, the digest is
 collision free, and the port is only ever answered by a server that the launcher started.
 */
module RemoteServer {
  import Numbers
  import opened Wrappers

  type Pid = int

  /** The signed arguments of the script in order; the port and the timeout are not signed. */
  datatype Request = Request(signed: seq<string>, port: nat, timeout: int)

  /** A process whose command line contains `vllm`, or not, or a server with what it was launched with. */
  datatype Process = Server(signed: seq<string>, port: nat, ready: bool) | Other(vllm: bool)

  datatype PidFile = NoPidFile | Unusable | Recorded(pid: Pid)

  /** `Partial` is what an interrupted write leaves; distinct texts have distinct digests. */
  datatype Signature = Partial | Digest(text: string)

  datatype Pod = Pod(pidFile: PidFile, signature: Option<Signature>, processes: map<Pid, Process>)

  // ----- the signature -----

  /** `printf '%s\n'`. */
  function Lines(fields: seq<string>): string {
    if fields == [] then "" else fields[0] + "\n" + Lines(fields[1..])
  }

  function SignatureOf(signed: seq<string>): Signature {
    Digest(Lines(signed + ["log-requests"]))
  }

  lemma {:induction false} LastLine(fields: seq<string>, last: string)
    ensures Lines(fields + [last]) == Lines(fields) + last + "\n"
  {
    if fields != [] {
      LastLine(fields[1..], last);
      assert (fields + [last])[1..] == fields[1..] + [last];
      assert Lines(fields + [last]) == fields[0] + "\n" + (Lines(fields[1..]) + last + "\n");
    }
  }

  /** What is hashed: each signed argument on a line of its own, in order, and a marker. */
  lemma SignatureText(signed: seq<string>, last: string)
    ensures Lines([]) == "" && Lines(signed + [last]) == Lines(signed) + last + "\n"
    ensures SignatureOf(signed) == Digest(Lines(signed) + "log-requests" + "\n")
  {
    LastLine(signed, last);
    LastLine(signed, "log-requests");
  }

  predicate OneLine(fields: seq<string>) {
    forall f <- fields :: '\n' !in f
  }

  lemma {:induction false} FirstLineIsDetermined(a: string, b: string, restA: string, restB: string)
    requires '\n' !in a && '\n' !in b && a + "\n" + restA == b + "\n" + restB
    ensures a == b && restA == restB
  {
    var text := a + "\n" + restA;
    assert text[|a|] == '\n' && text[|b|] == '\n';
    assert forall i :: 0 <= i < |a| ==> text[i] == a[i];
    assert forall i :: 0 <= i < |b| ==> text[i] == b[i];
    assert |a| == |b|;
    assert a == text[..|a|] && b == text[..|b|];
    assert restA == text[|a| + 1..] && restB == text[|b| + 1..];
  }

  lemma {:induction false} LinesAreInjective(a: seq<string>, b: seq<string>)
    requires OneLine(a) && OneLine(b) && Lines(a) == Lines(b)
    ensures a == b
  {
    if a != [] && b != [] {
      FirstLineIsDetermined(a[0], b[0], Lines(a[1..]), Lines(b[1..]));
      LinesAreInjective(a[1..], b[1..]);
      assert a == [a[0]] + a[1..] && b == [b[0]] + b[1..];
    }
  }

  /** Fields without a newline are told apart by the signature. */
  lemma SignatureIsInjective(a: seq<string>, b: seq<string>)
    requires OneLine(a) && OneLine(b) && SignatureOf(a) == SignatureOf(b)
    ensures a == b
  {
    var last := ["log-requests"];
    LinesAreInjective(a + last, b + last);
    assert a == (a + last)[..|a + last| - 1] && b == (b + last)[..|b + last| - 1];
  }

  // ----- the script -----

  datatype Pc =
    | Checking
    | Stopping
    | Killing(pid: Pid)
    | Clearing
    | Launching
    | Recording(pid: Pid)
    | Waiting(pid: Pid)
    | Signing(pid: Pid, answer: Answer)

  /** The process that answered a health check, as it was then. */
  datatype Answer = Answer(pid: Pid, server: Process)

  datatype Choice = Proceed | Truncate | Healthy(pid: Pid) | Unhealthy | Started(pid: Pid)

  datatype Next = Blocked | Goes(pod: Pod, pc: Pc) | Fails | Succeeds(pod: Pod, answer: Answer)

  predicate IsServer(pod: Pod, pid: Pid) {
    pid in pod.processes && pod.processes[pid].Server?
  }

  predicate Answers(pod: Pod, port: nat, pid: Pid) {
    IsServer(pod, pid) && pod.processes[pid].ready && pod.processes[pid].port == port
  }

  predicate LooksLikeVllm(pod: Pod, pid: Pid) {
    pid in pod.processes && (pod.processes[pid].Server? || pod.processes[pid].vllm)
  }

  function CheckStep(pod: Pod, r: Request, c: Choice): Next {
    match c
    case Healthy(server) =>
      if !Answers(pod, r.port, server) then Blocked
      else if pod.signature == Some(SignatureOf(r.signed)) then Succeeds(pod, Answer(server, pod.processes[server]))
      else Goes(pod, Stopping)
    case Unhealthy => Goes(pod, Stopping)
    case _ => Blocked
  }

  function StopStep(pod: Pod): Pc {
    if pod.pidFile.Recorded? && LooksLikeVllm(pod, pod.pidFile.pid) then Killing(pod.pidFile.pid) else Clearing
  }

  function LaunchStep(pod: Pod, r: Request, c: Choice): Next {
    if c.Started? && c.pid !in pod.processes
    then Goes(pod.(processes := pod.processes[c.pid := Server(r.signed, r.port, false)]), Recording(c.pid))
    else Blocked
  }

  function WaitStep(pod: Pod, r: Request, pid: Pid, c: Choice): Next {
    match c
    case Healthy(server) =>
      if Answers(pod, r.port, server) then Goes(pod, Signing(pid, Answer(server, pod.processes[server]))) else Blocked
    case Unhealthy =>
      if pod.pidFile.Recorded? && pod.pidFile.pid in pod.processes then Goes(pod, Waiting(pid)) else Fails
    case _ => Blocked
  }

  function SignStep(pod: Pod, r: Request, pid: Pid, answer: Answer, c: Choice): Next {
    match c
    case Truncate => Goes(pod.(signature := Some(Partial)), Signing(pid, answer))
    case Proceed => Succeeds(pod.(signature := Some(SignatureOf(r.signed))), answer)
    case _ => Blocked
  }

  function ScriptStep(pod: Pod, r: Request, pc: Pc, c: Choice): Next {
    match pc
    case Checking => CheckStep(pod, r, c)
    case Stopping => if c.Proceed? then Goes(pod, StopStep(pod)) else Blocked
    case Killing(pid) => if c.Proceed? then Goes(pod.(processes := pod.processes - {pid}), Clearing) else Blocked
    case Clearing => if c.Proceed? then Goes(pod.(signature := None), Launching) else Blocked
    case Launching => LaunchStep(pod, r, c)
    case Recording(pid) => if c.Proceed? then Goes(pod.(pidFile := Recorded(pid)), Waiting(pid)) else Blocked
    case Waiting(pid) => WaitStep(pod, r, pid, c)
    case Signing(pid, answer) => SignStep(pod, r, pid, answer, c)
  }

  // ----- runs of the script among everything else that happens on the pod -----

  datatype Script = Script(request: Request, pc: Pc)

  /** An exit 0: the request, the answer to the health check that led to it, and the pod at the exit. */
  datatype Success = Success(request: Request, answer: Answer, pod: Pod)

  datatype State = State(pod: Pod, script: Option<Script>, successes: seq<Success>)

  datatype Action =
    | Begin(request: Request)
    | Move(choice: Choice)
    // the script fails or is interrupted
    | Abort
    // the environment
    | BecomesReady(pid: Pid)
    | Dies(pid: Pid)
    | Spawns(pid: Pid, vllm: bool)
    | PodRestart

  function MoveStep(s: State, c: Choice): Option<State> {
    if s.script.None? then None
    else
      match ScriptStep(s.pod, s.script.value.request, s.script.value.pc, c)
      case Blocked => None
      case Goes(pod, pc) => Some(State(pod, Some(Script(s.script.value.request, pc)), s.successes))
      case Fails => Some(State(s.pod, None, s.successes))
      case Succeeds(pod, answer) =>
        Some(State(pod, None, s.successes + [Success(s.script.value.request, answer, pod)]))
  }

  function EnvPod(pod: Pod, a: Action): Option<Pod> {
    match a
    case BecomesReady(pid) =>
      if IsServer(pod, pid)
      then Some(pod.(processes := pod.processes[pid := pod.processes[pid].(ready := true)]))
      else None
    case Dies(pid) => Some(pod.(processes := pod.processes - {pid}))
    case Spawns(pid, vllm) =>
      if pid !in pod.processes then Some(pod.(processes := pod.processes[pid := Other(vllm)])) else None
    case _ => None
  }

  function Step(s: State, a: Action): Option<State> {
    match a
    case Begin(r) => if s.script.None? then Some(State(s.pod, Some(Script(r, Checking)), s.successes)) else None
    case Move(c) => MoveStep(s, c)
    case Abort => Some(State(s.pod, None, s.successes))
    case PodRestart => Some(State(s.pod.(processes := map[]), None, s.successes))
    case _ =>
      var pod := EnvPod(s.pod, a);
      if pod.None? then None else Some(State(pod.value, s.script, s.successes))
  }

  function Run(s: State, actions: seq<Action>): Option<State> {
    if actions == [] then Some(s)
    else
      var before := Run(s, actions[..|actions| - 1]);
      if before.None? then None else Step(before.value, actions[|actions| - 1])
  }

  /** The script has launched a server that the pid file does not name yet. */
  predicate InGap(s: State) {
    s.script.Some? && s.script.value.pc.Recording?
  }

  /** What the theorems assume of one step: settings without newlines, and no interruption in the gap. */
  predicate Orderly(s: State, a: Action) {
    (a.Begin? ==> OneLine(a.request.signed)) && (a.Abort? ==> !InGap(s))
  }

  predicate OrderlyRun(s: State, actions: seq<Action>) {
    actions == []
    || (var n := |actions| - 1;
        && OrderlyRun(s, actions[..n])
        && (Run(s, actions[..n]).Some? ==> Orderly(Run(s, actions[..n]).value, actions[n])))
  }

  // ----- the invariant -----

  predicate OnlyServer(pod: Pod, pid: Pid) {
    forall p <- pod.processes :: pod.processes[p].Server? ==> p == pid
  }

  predicate NoServer(pod: Pod) {
    forall p <- pod.processes :: !pod.processes[p].Server?
  }

  /** A live server is the recorded process. */
  predicate Accounted(pod: Pod) {
    forall p <- pod.processes :: pod.processes[p].Server? ==> pod.pidFile == Recorded(p)
  }

  predicate Launched(p: Process, r: Request) {
    p.Server? ==> p.signed == r.signed && p.port == r.port
  }

  predicate OnlyLaunched(pod: Pod, pid: Pid, r: Request) {
    OnlyServer(pod, pid) && (pid in pod.processes ==> Launched(pod.processes[pid], r))
  }

  /** The live servers were launched with what the signature file says. */
  predicate SignatureHolds(pod: Pod) {
    pod.signature.Some? && pod.signature.value.Digest? ==>
      forall p <- pod.processes :: pod.processes[p].Server? ==>
        SignatureOf(pod.processes[p].signed) == pod.signature.value
  }

  predicate CleanFields(pod: Pod) {
    forall p <- pod.processes :: pod.processes[p].Server? ==> OneLine(pod.processes[p].signed)
  }

  /** The server that answered was ready on the requested port, launched with exactly the requested settings. */
  predicate RightServer(answer: Answer, r: Request) {
    answer.server == Server(r.signed, r.port, true)
  }

  predicate InvAt(pod: Pod, r: Request, pc: Pc) {
    match pc
    case Checking => Accounted(pod)
    case Stopping => Accounted(pod)
    case Killing(pid) => pod.pidFile == Recorded(pid) && Accounted(pod)
    case Clearing => NoServer(pod)
    case Launching => NoServer(pod) && pod.signature.None?
    case Recording(pid) => OnlyLaunched(pod, pid, r) && pod.signature.None?
    case Waiting(pid) => OnlyLaunched(pod, pid, r) && pod.pidFile == Recorded(pid) && pod.signature.None?
    case Signing(pid, answer) =>
      && OnlyLaunched(pod, pid, r) && pod.pidFile == Recorded(pid)
      && (pod.signature.Some? ==> pod.signature.value.Partial?)
      && answer.pid == pid && RightServer(answer, r)
  }

  /**
   The answer came from the right server, which is the only one that may be running, and the files
   name it and its settings.
   */
  predicate Sound(e: Success) {
    && RightServer(e.answer, e.request)
    && OnlyServer(e.pod, e.answer.pid)
    && e.pod.pidFile == Recorded(e.answer.pid)
    && e.pod.signature == Some(SignatureOf(e.request.signed))
  }

  predicate Inv(s: State) {
    && CleanFields(s.pod)
    && SignatureHolds(s.pod)
    && (if s.script.None? then Accounted(s.pod)
        else OneLine(s.script.value.request.signed) && InvAt(s.pod, s.script.value.request, s.script.value.pc))
    && forall e <- s.successes :: Sound(e)
  }

  lemma CheckKeepsInv(pod: Pod, r: Request, c: Choice)
    requires CleanFields(pod) && SignatureHolds(pod) && OneLine(r.signed) && Accounted(pod)
    ensures var n := CheckStep(pod, r, c); n.Succeeds? ==> n.pod == pod && Sound(Success(r, n.answer, pod))
    ensures var n := CheckStep(pod, r, c); n.Goes? ==> n.pod == pod && n.pc == Stopping
  {
    var n := CheckStep(pod, r, c);
    if n.Succeeds? {
      SignatureIsInjective(pod.processes[c.pid].signed, r.signed);
    }
  }

  lemma MoveKeepsInv(s: State, c: Choice)
    requires Inv(s) && MoveStep(s, c).Some?
    ensures Inv(MoveStep(s, c).value)
  {
    var r, pc := s.script.value.request, s.script.value.pc;
    if pc.Checking? {
      CheckKeepsInv(s.pod, r, c);
    }
  }

  lemma StepKeepsInv(s: State, a: Action)
    requires Inv(s) && Orderly(s, a) && Step(s, a).Some?
    ensures Inv(Step(s, a).value)
  {
    if a.Move? {
      MoveKeepsInv(s, a.choice);
    }
  }

  /** A pod on which no server has been launched yet, whatever else is on it. */
  predicate Fresh(s: State) {
    s.script.None? && NoServer(s.pod) && s.successes == []
  }

  lemma {:induction false} RunKeepsInv(s: State, actions: seq<Action>)
    requires Inv(s) && OrderlyRun(s, actions) && Run(s, actions).Some?
    ensures Inv(Run(s, actions).value)
  {
    if actions != [] {
      var n := |actions| - 1;
      RunKeepsInv(s, actions[..n]);
      StepKeepsInv(Run(s, actions[..n]).value, actions[n]);
    }
  }

  /** Every exit 0 of every run of the script was answered by the server that was asked for. */
  lemma EverySuccessIsSound(s: State, actions: seq<Action>, e: Success)
    requires Fresh(s) && OrderlyRun(s, actions) && Run(s, actions).Some?
    requires e in Run(s, actions).value.successes
    ensures Sound(e)
  {
    RunKeepsInv(s, actions);
  }

  /** At most one server runs, at any moment. */
  lemma AtMostOneServer(s: State, actions: seq<Action>, p: Pid, q: Pid)
    requires Fresh(s) && OrderlyRun(s, actions) && Run(s, actions).Some?
    requires IsServer(Run(s, actions).value.pod, p) && IsServer(Run(s, actions).value.pod, q)
    ensures p == q
  {
    RunKeepsInv(s, actions);
  }

  // ----- exactly what an interruption in the gap breaks -----

  predicate LeadsTo(s: State, actions: seq<Action>, t: State) {
    OrderlyRun(s, actions) && Run(s, actions) == Some(t)
  }

  lemma ReachMore(s: State, actions: seq<Action>, t: State, a: Action) returns (more: seq<Action>)
    requires LeadsTo(s, actions, t) && Orderly(t, a) && Step(t, a).Some?
    ensures LeadsTo(s, more, Step(t, a).value) && more == actions + [a]
  {
    more := actions + [a];
    assert more[..|more| - 1] == actions;
  }

  predicate AllSound(s: State, actions: seq<Action>) {
    OrderlyRun(s, actions) && Run(s, actions).Some? ==>
      forall e <- Run(s, actions).value.successes :: Sound(e)
  }

  /** A request for the same port with other settings. */
  function Differing(p: Process): Request
    requires p.Server?
  {
    Request(if p.signed == [] then ["x"] else p.signed[0 := p.signed[0] + "x"], p.port, 0)
  }

  /** A script asked for the differing settings gets as far as launching its own server. */
  lemma ReachLaunching(s: State, p: Pid) returns (actions: seq<Action>, t: State)
    requires s.script.None? && CleanFields(s.pod) && IsServer(s.pod, p) && s.pod.pidFile != Recorded(p)
    ensures LeadsTo(s, actions, t) && IsServer(t.pod, p) && t.pod.processes[p].ready
    ensures t.pod.processes[p].signed == s.pod.processes[p].signed && t.pod.processes[p].port == s.pod.processes[p].port
    ensures t.script == Some(Script(Differing(s.pod.processes[p]), Launching)) && t.successes == s.successes
  {
    t, actions := s, [];
    actions := ReachMore(s, actions, t, BecomesReady(p));
    t := Step(t, BecomesReady(p)).value;
    var a := Begin(Differing(s.pod.processes[p]));
    actions := ReachMore(s, actions, t, a);
    t := Step(t, a).value;
    actions := ReachMore(s, actions, t, Move(Unhealthy));
    t := Step(t, Move(Unhealthy)).value;
    actions := ReachMore(s, actions, t, Move(Proceed));
    t := Step(t, Move(Proceed)).value;
    if t.script.value.pc.Killing? {
      actions := ReachMore(s, actions, t, Move(Proceed));
      t := Step(t, Move(Proceed)).value;
    }
    actions := ReachMore(s, actions, t, Move(Proceed));
    t := Step(t, Move(Proceed)).value;
  }

  /** A server that the pid file does not name can be taken for another one. */
  lemma UnaccountedServerIsMistaken(s: State, p: Pid) returns (actions: seq<Action>)
    requires s.script.None? && CleanFields(s.pod) && IsServer(s.pod, p) && s.pod.pidFile != Recorded(p)
    ensures !AllSound(s, actions)
  {
    var t: State;
    actions, t := ReachLaunching(s, p);
    var unused := Numbers.Unused(t.pod.processes.Keys);
    assert unused !in t.pod.processes.Keys;
    actions := ReachMore(s, actions, t, Move(Started(unused)));
    t := Step(t, Move(Started(unused))).value;
    actions := ReachMore(s, actions, t, Move(Proceed));
    t := Step(t, Move(Proceed)).value;
    actions := ReachMore(s, actions, t, Move(Healthy(p)));
    t := Step(t, Move(Healthy(p))).value;
    actions := ReachMore(s, actions, t, Move(Proceed));
    t := Step(t, Move(Proceed)).value;
    var e := t.successes[|t.successes| - 1];
    assert e in t.successes && e.answer.server.signed == s.pod.processes[p].signed;
  }

  // ----- runs that may be interrupted in the gap as well -----

  /** Settings without newlines is all that is asked of a run. */
  predicate CleanRequests(actions: seq<Action>) {
    forall a <- actions :: a.Begin? ==> OneLine(a.request.signed)
  }

  /** The recorded server, if it lives, was launched with what a complete signature says. */
  predicate RecordedMatches(pod: Pod) {
    pod.pidFile.Recorded? && IsServer(pod, pod.pidFile.pid) && pod.signature.Some? && pod.signature.value.Digest? ==>
      SignatureOf(pod.processes[pod.pidFile.pid].signed) == pod.signature.value
  }

  predicate OwnLaunched(pod: Pod, pid: Pid, r: Request) {
    pid in pod.processes ==> Launched(pod.processes[pid], r)
  }

  predicate LooseAt(pod: Pod, r: Request, pc: Pc) {
    && OneLine(r.signed)
    && (pc.Launching? ==> pod.signature.None?)
    && (pc.Recording? ==> OwnLaunched(pod, pc.pid, r) && pod.signature.None?)
    && (pc.Waiting? || pc.Signing? ==>
          && OwnLaunched(pod, pc.pid, r) && pod.pidFile == Recorded(pc.pid)
          && (pod.signature.Some? ==> pod.signature.value.Partial?))
  }

  /** What even a run with interruptions in the gap keeps. */
  predicate LooseInv(s: State) {
    && CleanFields(s.pod)
    && RecordedMatches(s.pod)
    && (s.script.Some? ==> LooseAt(s.pod, s.script.value.request, s.script.value.pc))
  }

  lemma StepKeepsLoose(s: State, a: Action)
    requires LooseInv(s) && (a.Begin? ==> OneLine(a.request.signed)) && Step(s, a).Some?
    ensures LooseInv(Step(s, a).value)
  {
  }

  lemma {:induction false} RunKeepsLoose(s: State, actions: seq<Action>)
    requires LooseInv(s) && CleanRequests(actions) && Run(s, actions).Some?
    ensures LooseInv(Run(s, actions).value)
  {
    if actions != [] {
      var n := |actions| - 1;
      assert actions[n] in actions && forall a <- actions[..n] :: a in actions;
      RunKeepsLoose(s, actions[..n]);
      StepKeepsLoose(Run(s, actions[..n]).value, actions[n]);
    }
  }

  function Forgetting(s: State): State {
    s.(successes := [])
  }

  lemma IdleSoundIffAccounted(s: State)
    requires s.script.None? && LooseInv(s)
    ensures (forall actions :: AllSound(Forgetting(s), actions)) <==> Accounted(s.pod)
  {
    var t := Forgetting(s);
    if Accounted(s.pod) {
      forall actions
        ensures AllSound(t, actions)
      {
        if OrderlyRun(t, actions) && Run(t, actions).Some? {
          RunKeepsInv(t, actions);
        }
      }
    } else {
      var p :| p in s.pod.processes && s.pod.processes[p].Server? && s.pod.pidFile != Recorded(p);
      var actions := UnaccountedServerIsMistaken(t, p);
    }
  }

  /**
   Whatever was interrupted before, in the gap or elsewhere: once no script runs, every exit 0 from there
   on is sound exactly when each live server is the one in the pid file.
   */
  lemma SoundIffAccounted(s: State, before: seq<Action>)
    requires Fresh(s) && CleanRequests(before) && Run(s, before).Some? && Run(s, before).value.script.None?
    ensures var t := Run(s, before).value;
            (forall actions :: AllSound(Forgetting(t), actions)) <==> Accounted(t.pod)
  {
    RunKeepsLoose(s, before);
    IdleSoundIffAccounted(Run(s, before).value);
  }

  lemma {:induction false} OrderlyIsClean(s: State, actions: seq<Action>)
    requires OrderlyRun(s, actions) && Run(s, actions).Some?
    ensures CleanRequests(actions)
  {
    if actions != [] {
      var n := |actions| - 1;
      OrderlyIsClean(s, actions[..n]);
      assert actions == actions[..n] + [actions[n]];
    }
  }

  /**
   After an interruption between the launch and the pid write, every later exit 0 is sound exactly when the
   launched server is dead, or the pid file names it by coincidence.
   */
  lemma GapLeavesServer(s: State, before: seq<Action>, pid: Pid)
    requires Fresh(s) && OrderlyRun(s, before) && Run(s, before).Some?
    requires var t := Run(s, before).value; t.script.Some? && t.script.value.pc == Recording(pid)
    ensures var t := Run(s, before).value;
            (forall actions :: AllSound(Forgetting(Step(t, Abort).value), actions))
            <==> (IsServer(t.pod, pid) ==> t.pod.pidFile == Recorded(pid))
  {
    var t := Run(s, before).value;
    RunKeepsInv(s, before);
    OrderlyIsClean(s, before);
    RunKeepsLoose(s, before);
    StepKeepsLoose(t, Abort);
    IdleSoundIffAccounted(Step(t, Abort).value);
  }

  // ----- what is killed -----

  /** The script goes for exactly the recorded process, if it lives and its command line says vllm. */
  lemma StopsRecordedIff(s: State, pid: Pid)
    requires s.script.Some? && s.script.value.pc.Stopping?
    ensures var t := Step(s, Move(Proceed));
            && t.Some? && t.value.script.Some? && t.value.pod == s.pod
            && (t.value.script.value.pc == Killing(pid) <==>
                && s.pod.pidFile == Recorded(pid) && pid in s.pod.processes && s.pod.processes[pid] != Other(false))
  {
  }

  /** A move of the script ends a process exactly if that is the one it went for. */
  lemma KillsIff(s: State, c: Choice, pid: Pid)
    requires Step(s, Move(c)).Some? && pid in s.pod.processes
    ensures pid !in Step(s, Move(c)).value.pod.processes <==> s.script.value.pc == Killing(pid)
    ensures pid in Step(s, Move(c)).value.pod.processes ==>
              Step(s, Move(c)).value.pod.processes[pid] == s.pod.processes[pid]
  {
  }

  /**
   A process that has nothing to do with vLLM outlives any number of scripts, whatever the pid file says, unless it
   took the pid of a process that a script is already waiting to kill.
   */
  lemma {:induction false} OthersSurvive(s: State, actions: seq<Action>, pid: Pid)
    requires pid in s.pod.processes && s.pod.processes[pid] == Other(false)
    requires s.script.Some? ==> s.script.value.pc != Killing(pid)
    requires Run(s, actions).Some? && forall a <- actions :: a != Dies(pid) && !a.PodRestart?
    ensures var t := Run(s, actions).value;
            && pid in t.pod.processes && t.pod.processes[pid] == Other(false)
            && (t.script.Some? ==> t.script.value.pc != Killing(pid))
  {
    if actions != [] {
      var n := |actions| - 1;
      assert actions[n] in actions && forall a <- actions[..n] :: a in actions;
      OthersSurvive(s, actions[..n], pid);
    }
  }

  /** That exception is real: a process with the pid of one that has just ended is killed in its place. */
  lemma RecycledPidIsKilled(s: State, pid: Pid)
    requires s.script.Some? && s.script.value.pc == Killing(pid)
    ensures var t := Run(s, [Dies(pid), Spawns(pid, false)]);
            && t.Some? && pid in t.value.pod.processes && t.value.pod.processes[pid] == Other(false)
            && Step(t.value, Move(Proceed)).Some?
            && pid !in Step(t.value, Move(Proceed)).value.pod.processes
  {
    var died := Step(s, Dies(pid)).value;
    assert Run(s, [Dies(pid)]) == Some(died) by {
      assert [Dies(pid)][..0] == [] && Run(s, []) == Some(s);
    }
    assert [Dies(pid), Spawns(pid, false)][..1] == [Dies(pid)];
    assert Run(s, [Dies(pid), Spawns(pid, false)]) == Step(died, Spawns(pid, false));
  }

  // ----- reuse -----

  /** Everything else on the pod may change, but the server of `e` stays alive. */
  predicate Spares(a: Action, e: Success) {
    a.BecomesReady? || a.Spawns? || (a.Dies? && a.pid != e.answer.pid)
  }

  /** A health check fails only if no server answers. */
  predicate Truthful(s: State, r: Request, c: Choice) {
    c.Unhealthy? ==> forall p <- s.pod.processes :: !Answers(s.pod, r.port, p)
  }

  predicate Serving(s: State, e: Success) {
    && Inv(s)
    && Answers(s.pod, e.request.port, e.answer.pid)
    && s.pod.pidFile == e.pod.pidFile && s.pod.signature == e.pod.signature
  }

  lemma {:induction false} ServesOn(s: State, e: Success, idle: seq<Action>)
    requires Sound(e) && Serving(s, e) && (s.script.Some? ==> s.script.value.pc.Checking?)
    requires Run(s, idle).Some? && forall a <- idle :: Spares(a, e)
    ensures Serving(Run(s, idle).value, e)
    ensures Run(s, idle).value.script == s.script && Run(s, idle).value.successes == s.successes
  {
    if idle != [] {
      var n := |idle| - 1;
      assert idle[n] in idle && forall a <- idle[..n] :: a in idle;
      ServesOn(s, e, idle[..n]);
      StepKeepsInv(Run(s, idle[..n]).value, idle[n]);
    }
  }

  /**
   As long as the server of an earlier success lives and is ready, the same request ends with an exit 0
   answered by that server, and touches neither a process nor a file.
   */
  lemma SameRequestReuses(s: State, e: Success, idle: seq<Action>, c: Choice)
    requires Sound(e) && Serving(s, e) && s.script == Some(Script(e.request, Checking))
    requires Run(s, idle).Some? && forall a <- idle :: Spares(a, e)
    requires Step(Run(s, idle).value, Move(c)).Some? && Truthful(Run(s, idle).value, e.request, c)
    ensures var t, u := Run(s, idle).value, Step(Run(s, idle).value, Move(c)).value;
            && u.script.None? && u.pod == t.pod && |u.successes| == |s.successes| + 1
            && u.successes[|s.successes|].request == e.request
            && u.successes[|s.successes|].answer.pid == e.answer.pid
  {
    ServesOn(s, e, idle);
  }
}
