/**
 `ensure-vllm.sh` as the script it is.

 Between any two commands servers may become ready or die and other processes come and go; any command
 may fail and the script may be interrupted before it, except between the launch and the pid write.
 `Valid` ties the fields to an orderly run of `RemoteServer`.
 */
module EnsureVllmScript {
  import Numbers
  import opened Wrappers
  import opened RemoteServer

  /** A command's output, unless the script ended before it. */
  datatype Reply<+T> = Value(value: T) | Interrupted {
    predicate IsFailure() {
      Interrupted?
    }

    function PropagateFailure<U>(): Reply<U>
      requires Interrupted?
    {
      Reply<U>.Interrupted
    }

    function Extract(): T
      requires Value?
    {
      value
    }
  }

  datatype Failure = MissingLauncher | NoCuda | VllmExited | VllmTimeout

  datatype Status = AlreadyHealthy | Ready | Failed(failure: Failure)

  /** How often the readiness loop sleeps at most, at five seconds each. */
  function MaxPolls(timeout: int): nat {
    if timeout <= 0 then 0 else (timeout + 4) / 5
  }

  /** What the script did, and what ended it: a run without what else happens on the pod. */
  function Doings(actions: seq<Action>): seq<Action> {
    if actions == [] then []
    else
      var before, last := Doings(actions[..|actions| - 1]), actions[|actions| - 1];
      if last.BecomesReady? || last.Dies? || last.Spawns? then before else before + [last]
  }

  class Shell {
    var pidFile: PidFile
    var signature: Option<Signature>
    var processes: map<Pid, Process>
    /** `SECONDS`. */
    var seconds: int

    /** What the health checks said, and how many got no answer although a server would have given one. */
    ghost var checks: seq<Option<Pid>>
    ghost var missed: nat
    /** How often `kill -0` found its process, how often and how long the script slept, and how often it was cut. */
    ghost var sightings: nat
    ghost var sleeps: nat
    ghost var slept: nat
    ghost var cuts: nat
    /** The process that was launched last. */
    ghost var launched: Option<Pid>

    ghost const start: State
    ghost var actions: seq<Action>
    ghost var doings: seq<Action>
    ghost var script: Option<Script>
    ghost var successes: seq<Success>

    ghost function S(): State
      reads this
    {
      State(Pod(pidFile, signature, processes), script, successes)
    }

    ghost predicate Valid()
      reads this
    {
      Inv(start) && LeadsTo(start, actions, S()) && doings == Doings(actions)
    }

    ghost predicate At(r: Request, pc: Pc)
      reads this
    {
      Valid() && script == Some(Script(r, pc))
    }

    /** The last health check. */
    ghost function LastCheck(): Option<Pid>
      reads this
    {
      if checks == [] then None else checks[|checks| - 1]
    }

    /** The step is what the last health check said. */
    ghost predicate Heeds(a: Action)
      reads this
    {
      a.Move? ==>
        && (a.choice.Unhealthy? ==> checks != [] && LastCheck().None?)
        && (a.choice.Healthy? ==> LastCheck() == Some(a.choice.pid))
    }

    constructor (s: State)
      requires Inv(s) && s.script.None?
      ensures Valid() && S() == s && start == s
      ensures checks == [] && missed == sightings == sleeps == slept == cuts == 0
    {
      pidFile, signature, processes, seconds := s.pod.pidFile, s.pod.signature, s.pod.processes, 0;
      checks, missed, sightings, sleeps, slept, cuts, launched := [], 0, 0, 0, 0, 0, None;
      start, actions, doings, script, successes := s, [], [], None, s.successes;
    }

    lemma Invariant()
      requires Valid()
      ensures Inv(S())
    {
      RunKeepsInv(start, actions);
    }

    /** Records that the command just carried out is the action `a`. */
    ghost method Advance(before: State, a: Action)
      requires Inv(start) && LeadsTo(start, actions, before) && doings == Doings(actions) && Orderly(before, a)
      requires Heeds(a) && Step(before, a).Some? && Step(before, a).value.pod == S().pod
      requires a.Begin? || a.Move? || a.Abort? || a.PodRestart?
      modifies `actions, `doings, `script, `successes
      ensures Valid() && S() == Step(before, a).value && doings == old(doings) + [a]
    {
      actions := ReachMore(start, actions, before, a);
      doings := doings + [a];
      assert actions[..|actions| - 1] == old(actions);
      script, successes := Step(before, a).value.script, Step(before, a).value.successes;
    }

    /** Other processes run, any number of steps. */
    method Drift()
      requires Valid()
      modifies `processes, `actions
      ensures Valid()
    {
      var changes: seq<Action> := *;
      for i := 0 to |changes|
        invariant Valid()
      {
        var pod := EnvPod(Pod(pidFile, signature, processes), changes[i]);
        if pod.Some? {
          ghost var before := actions;
          actions := ReachMore(start, actions, S(), changes[i]);
          assert actions[..|actions| - 1] == before;
          processes := pod.value.processes;
        }
      }
    }

    /** The environment before a command; `ends` says that the script does not get to the command. */
    method Before() returns (ends: bool)
      requires Valid() && !InGap(S())
      modifies `processes, `actions, `doings, `script, `successes, `cuts
      ensures Valid() && successes == old(successes)
      ensures ends ==> script.None? && cuts == old(cuts) + 1
      ensures !ends ==> script == old(script) && cuts == old(cuts) && doings == old(doings)
    {
      Drift();
      ends := *;
      var restarts: bool := *;
      ghost var before := S();
      if ends {
        cuts := cuts + 1;
      }
      if ends && restarts {
        processes := map[];
        Advance(before, PodRestart);
      } else if ends {
        Advance(before, Abort);
      }
    }

    method Exit(failure: Failure) returns (status: Reply<Status>)
      requires Valid() && !InGap(S())
      modifies `actions, `doings, `script, `successes
      ensures Valid() && successes == old(successes) && script.None? && status == Value(Failed(failure))
    {
      Advance(S(), Abort);
      return Value(Failed(failure));
    }

    method Sleep(duration: nat) returns (done: Reply<()>)
      requires Valid() && !InGap(S())
      modifies `processes, `actions, `doings, `script, `successes, `cuts, `seconds, `sleeps, `slept
      ensures Valid() && successes == old(successes) && seconds >= old(seconds) + duration
      ensures sleeps == old(sleeps) + 1 && slept == old(slept) + duration
      ensures if done.Value? then script == old(script) && cuts == old(cuts) else script.None? && cuts == old(cuts) + 1
    {
      var late: nat := *;
      var ends := Before();
      seconds := seconds + duration + if late >= 0 then late else 0;
      sleeps, slept := sleeps + 1, slept + duration;
      return if ends then Interrupted else Value(());
    }

    /** `is_healthy`: a server that answers is found, unless the check misses it. */
    method IsHealthy(port: nat) returns (healthy: Reply<Option<Pid>>)
      requires Valid() && !InGap(S())
      modifies `processes, `actions, `doings, `script, `successes, `cuts, `checks, `missed
      ensures Valid() && successes == old(successes)
      ensures if healthy.Value?
              then && script == old(script) && cuts == old(cuts) && doings == old(doings)
                   && checks == old(checks) + [healthy.value]
              else script.None? && cuts == old(cuts) + 1 && checks == old(checks)
      ensures healthy.Value? && healthy.value.Some? ==> Answers(S().pod, port, healthy.value.value)
      ensures healthy.Value? && healthy.value.None? && missed == old(missed) ==>
                forall pid <- processes :: !Answers(S().pod, port, pid)
    {
      var ends := Before();
      if ends {
        return Interrupted;
      }
      var misses: bool := *;
      var found := None;
      if misses {
        missed := missed + 1;
      } else if exists pid <- processes :: Answers(Pod(pidFile, signature, processes), port, pid) {
        var pid :| pid in processes && Answers(Pod(pidFile, signature, processes), port, pid);
        found := Some(pid);
      }
      checks := checks + [found];
      return Value(found);
    }

    /** `kill -0`. */
    method Alive(pid: Pid) returns (alive: Reply<bool>)
      requires Valid() && !InGap(S())
      modifies `processes, `actions, `doings, `script, `successes, `cuts, `sightings
      ensures Valid() && successes == old(successes)
      ensures if alive.Value?
              then && script == old(script) && cuts == old(cuts)
                   && alive.value == (pid in processes) && sightings == old(sightings) + if alive.value then 1 else 0
              else script.None? && cuts == old(cuts) + 1 && sightings == old(sightings)
    {
      var ends := Before();
      if ends {
        return Interrupted;
      }
      if pid in processes {
        sightings := sightings + 1;
      }
      return Value(pid in processes);
    }

    /** The recorded process if it is alive and looks like vLLM. */
    method FindPrevious(ghost r: Request) returns (previous: Reply<Option<Pid>>)
      requires At(r, Stopping)
      modifies `processes, `actions, `doings, `script, `successes, `cuts
      ensures Valid() && successes == old(successes)
      ensures if previous.Value? then cuts == old(cuts) else script.None? && cuts == old(cuts) + 1
      ensures previous.Value? ==>
                && At(r, if previous.value.Some? then Killing(previous.value.value) else Clearing)
                && (previous.value.Some? <==> pidFile.Recorded? && LooksLikeVllm(S().pod, pidFile.pid))
    {
      var ends := Before();
      if ends {
        return Interrupted;
      }
      ghost var before := S();
      var pod := Pod(pidFile, signature, processes);
      Advance(before, Move(Proceed));
      return Value(if pidFile.Recorded? && LooksLikeVllm(pod, pidFile.pid) then Some(pidFile.pid) else None);
    }

    /**
     `kill -9`, after the process was asked to stop and given twenty seconds: it is looked for before each second,
     and no longer once it is gone.
     */
    method KillPrevious(pid: Pid, ghost r: Request) returns (done: Reply<()>, ghost seenGone: bool)
      requires At(r, Killing(pid))
      modifies `processes, `actions, `doings, `script, `successes, `cuts, `seconds, `sleeps, `slept, `sightings
      ensures Valid() && successes == old(successes)
      ensures if done.Value? then script == Some(Script(r, Clearing)) && pid !in processes && cuts == old(cuts)
              else script.None? && cuts == old(cuts) + 1
      ensures old(sleeps) <= sleeps <= old(sleeps) + 20 && slept - old(slept) == sleeps - old(sleeps)
      ensures done.Value? ==> sightings - old(sightings) == sleeps - old(sleeps)
      ensures seconds >= old(seconds)
      ensures done.Value? ==> (seenGone <==> sleeps < old(sleeps) + 20)
    {
      seenGone := false;
      for i := 0 to 20
        invariant At(r, Killing(pid)) && successes == old(successes) && cuts == old(cuts) && !seenGone
        invariant seconds >= old(seconds)
        invariant sleeps - old(sleeps) == i == slept - old(slept) == sightings - old(sightings)
      {
        var alive := Alive(pid);
        if alive.Interrupted? {
          return Interrupted, seenGone;
        }
        if !alive.value {
          seenGone := true;
          break;
        }
        var slept := Sleep(1);
        if slept.Interrupted? {
          return Interrupted, seenGone;
        }
      }
      done := Kill(pid, r);
    }

    method Kill(pid: Pid, ghost r: Request) returns (done: Reply<()>)
      requires At(r, Killing(pid))
      modifies `processes, `actions, `doings, `script, `successes, `cuts
      ensures Valid() && successes == old(successes)
      ensures if done.Value? then script == Some(Script(r, Clearing)) && pid !in processes && cuts == old(cuts)
              else script.None? && cuts == old(cuts) + 1
    {
      var ends := Before();
      if ends {
        return Interrupted;
      }
      ghost var before := S();
      processes := processes - {pid};
      Advance(before, Move(Proceed));
      return Value(());
    }

    method RemoveSignature(ghost r: Request) returns (done: Reply<()>)
      requires At(r, Clearing)
      modifies `signature, `processes, `actions, `doings, `script, `successes, `cuts
      ensures Valid() && successes == old(successes)
      ensures if done.Value? then script == Some(Script(r, Launching)) && cuts == old(cuts)
              else script.None? && cuts == old(cuts) + 1
    {
      var ends := Before();
      if ends {
        return Interrupted;
      }
      ghost var before := S();
      signature := None;
      Advance(before, Move(Proceed));
      return Value(());
    }

    method Launch(r: Request) returns (process: Reply<Pid>)
      requires At(r, Launching)
      modifies `processes, `actions, `doings, `script, `successes, `cuts, `launched
      ensures Valid() && successes == old(successes)
      ensures if process.Value?
              then && script == Some(Script(r, Recording(process.value))) && cuts == old(cuts)
                   && launched == Some(process.value)
              else script.None? && cuts == old(cuts) + 1
    {
      var ends := Before();
      if ends {
        return Interrupted;
      }
      ghost var unused := Numbers.Unused(processes.Keys);
      assert unused !in processes;
      var pid: Pid :| pid !in processes;
      ghost var before := S();
      processes := processes[pid := Server(r.signed, r.port, false)];
      Advance(before, Move(Started(pid)));
      launched := Some(pid);
      return Value(pid);
    }

    method RecordPid(pid: Pid, ghost r: Request)
      requires At(r, Recording(pid))
      modifies `pidFile, `processes, `actions, `doings, `script, `successes
      ensures At(r, Waiting(pid)) && successes == old(successes) && pidFile == Recorded(pid)
    {
      Drift();
      ghost var before := S();
      pidFile := Recorded(pid);
      Advance(before, Move(Proceed));
    }

    /** `printf` truncates the file before it writes the digest. */
    method WriteSignature(r: Request, ghost pid: Pid, ghost answer: Answer) returns (done: Reply<()>)
      requires At(r, Signing(pid, answer))
      modifies `signature, `processes, `actions, `doings, `script, `successes, `cuts
      ensures Valid() && script.None?
      ensures done.Interrupted? ==> successes == old(successes) && cuts == old(cuts) + 1
      ensures done.Value? ==> successes == old(successes) + [Success(r, answer, S().pod)] && cuts == old(cuts)
    {
      var ends := Before();
      if ends {
        return Interrupted;
      }
      ghost var before := S();
      signature := Some(Partial);
      Advance(before, Move(Truncate));
      ends := Before();
      if ends {
        return Interrupted;
      }
      before := S();
      signature := Some(SignatureOf(r.signed));
      Advance(before, Move(Proceed));
      return Value(());
    }

    method StopPrevious(ghost r: Request) returns (done: Reply<()>)
      requires At(r, Stopping)
      modifies `processes, `actions, `doings, `script, `successes, `cuts, `seconds, `sleeps, `slept, `sightings
      ensures Valid() && sleeps <= old(sleeps) + 20 && successes == old(successes) && seconds >= old(seconds)
      ensures if done.Value? then script == Some(Script(r, Clearing)) && cuts == old(cuts)
              else script.None? && cuts == old(cuts) + 1
    {
      var previous :- FindPrevious(r);
      if previous.Some? {
        ghost var seenGone: bool;
        done, seenGone := KillPrevious(previous.value, r);
      } else {
        done := Value(());
      }
    }

    /** A health check was answered: the signature is written. */
    method Sign(r: Request, pid: Pid, server: Pid) returns (done: Reply<()>)
      requires At(r, Waiting(pid)) && Answers(S().pod, r.port, server) && LastCheck() == Some(server)
      modifies `signature, `processes, `actions, `doings, `script, `successes, `cuts
      ensures Valid() && script.None?
      ensures if done.Value?
              then cuts == old(cuts) && exists answer :: successes == old(successes) + [Success(r, answer, S().pod)]
              else cuts == old(cuts) + 1 && successes == old(successes)
    {
      ghost var answer := Answer(server, processes[server]);
      Advance(S(), Move(Healthy(server)));
      done := WriteSignature(r, pid, answer);
    }

    /** A health check was not answered: the process is looked for. */
    method StillRuns(ghost r: Request, pid: Pid) returns (alive: Reply<bool>)
      requires At(r, Waiting(pid)) && pidFile == Recorded(pid) && checks != [] && LastCheck().None?
      modifies `processes, `actions, `doings, `script, `successes, `cuts, `sightings
      ensures Valid() && successes == old(successes)
      ensures if alive.Value?
              then && cuts == old(cuts) && alive.value == (pid in processes)
                   && script == (if alive.value then old(script) else None)
                   && sightings == old(sightings) + if alive.value then 1 else 0
              else script.None? && cuts == old(cuts) + 1
    {
      alive := Alive(pid);
      if alive.Value? {
        Advance(S(), Move(Unhealthy));
      }
    }

    /** One round of the loop: it ends the script, or five seconds pass. */
    method Poll(r: Request, pid: Pid) returns (end: Reply<Option<Status>>)
      requires At(r, Waiting(pid)) && pidFile == Recorded(pid)
      modifies `signature, `processes, `actions, `doings, `script, `successes, `cuts, `seconds, `sleeps, `slept,
               `checks, `sightings, `missed
      ensures Valid() && |old(checks)| <= |checks| <= |old(checks)| + 1 && checks[..|old(checks)|] == old(checks)
      ensures end == Value(Some(Ready)) || successes == old(successes)
      ensures end == Value(Some(Ready)) ==>
                exists answer :: successes == old(successes) + [Success(r, answer, S().pod)]
      ensures cuts == old(cuts) + if end.Interrupted? then 1 else 0
      ensures script == if end == Value(None) then old(script) else None
      ensures end.Value? ==> |checks| == |old(checks)| + 1 && (end.value == Some(Ready) <==> LastCheck().Some?)
      ensures end.Value? && end.value != Some(Ready) ==>
                end.value == None || (end.value == Some(Failed(VllmExited)) && pid !in processes)
      ensures end.Value? ==> sightings - old(sightings) == sleeps - old(sleeps) == if end.value.None? then 1 else 0
      ensures old(sleeps) <= sleeps <= old(sleeps) + 1 && slept - old(slept) == 5 * (sleeps - old(sleeps))
      ensures seconds >= old(seconds) + 5 * (sleeps - old(sleeps))
    {
      var healthy :- IsHealthy(r.port);
      if healthy.Some? {
        var _ :- Sign(r, pid, healthy.value);
        return Value(Some(Ready));
      }
      var alive :- StillRuns(r, pid);
      if !alive {
        return Value(Some(Failed(VllmExited)));
      }
      var _ :- Sleep(5);
      return Value(None);
    }

    /**
     The readiness loop: as long as nothing answers and the server is alive, it is looked for every five seconds
     until the deadline.  What comes out is what the last check and the last look at the process said.
     */
    method AwaitReady(r: Request, pid: Pid) returns (status: Reply<Status>)
      requires At(r, Waiting(pid)) && pidFile == Recorded(pid)
      modifies `signature, `processes, `actions, `doings, `script, `successes, `cuts, `seconds, `sleeps, `slept,
               `checks, `sightings, `missed
      ensures Valid() && script.None?
      ensures status == Value(Ready) || successes == old(successes)
      ensures status == Value(Ready) ==> exists answer :: successes == old(successes) + [Success(r, answer, S().pod)]
      ensures cuts == old(cuts) + if status.Interrupted? then 1 else 0
      ensures |checks| >= |old(checks)| && checks[..|old(checks)|] == old(checks)
      ensures forall i :: |old(checks)| <= i < |checks| - 1 ==> checks[i].None?
      ensures status.Value? ==>
                && (status.value.Ready? <==> |checks| > |old(checks)| && LastCheck().Some?)
                && (status.value.Ready? || status.value == Failed(VllmExited) || status.value == Failed(VllmTimeout))
                && sightings - old(sightings) == sleeps - old(sleeps)
                && |checks| - |old(checks)| ==
                   sleeps - old(sleeps) + if status.value == Failed(VllmTimeout) then 0 else 1
      ensures status == Value(Failed(VllmExited)) ==> pid !in processes
      ensures status == Value(Failed(VllmTimeout)) ==> seconds >= old(seconds) + r.timeout
      ensures old(sleeps) <= sleeps <= old(sleeps) + MaxPolls(r.timeout)
      ensures slept - old(slept) == 5 * (sleeps - old(sleeps))
    {
      var deadline := seconds + r.timeout;
      while seconds < deadline
        invariant At(r, Waiting(pid)) && successes == old(successes) && cuts == old(cuts)
        invariant seconds >= deadline - r.timeout + 5 * (sleeps - old(sleeps))
        invariant 0 <= sightings - old(sightings) == sleeps - old(sleeps) <= MaxPolls(r.timeout)
        invariant |checks| - |old(checks)| == sleeps - old(sleeps) && slept - old(slept) == 5 * (sleeps - old(sleeps))
        invariant checks[..|old(checks)|] == old(checks)
        invariant forall i :: |old(checks)| <= i < |checks| ==> checks[i].None?
        decreases deadline - seconds
      {
        var end :- Poll(r, pid);
        if end.Some? {
          return Value(end.value);
        }
      }
      status := Exit(VllmTimeout);
    }

    /** A failure after the launch: the launched server is gone, or did not answer for as long as was asked. */
    ghost predicate GaveUp(status: Status, r: Request, began: int)
      reads this
    {
      && (status.Failed? ==> launched.Some? && pidFile == Recorded(launched.value))
      && (status == Failed(VllmExited) ==> launched.Some? && launched.value !in processes)
      && (status == Failed(VllmTimeout) ==> seconds >= began + r.timeout)
    }

    /** The previous server is stopped and a new one launched and recorded. */
    method Relaunch(r: Request) returns (pid: Reply<Pid>)
      requires At(r, Stopping)
      modifies `pidFile, `signature, `processes, `actions, `doings, `script, `successes, `cuts, `seconds, `sleeps,
               `slept, `sightings, `launched
      ensures Valid() && successes == old(successes) && sleeps <= old(sleeps) + 20 && seconds >= old(seconds)
      ensures if pid.Value?
              then && script == Some(Script(r, Waiting(pid.value))) && pidFile == Recorded(pid.value)
                   && launched == Some(pid.value) && cuts == old(cuts)
              else script.None? && cuts == old(cuts) + 1
    {
      var _ :- StopPrevious(r);
      var _ :- RemoveSignature(r);
      pid := Launch(r);
      if pid.Value? {
        RecordPid(pid.value, r);
      }
    }

    method StopAndLaunch(r: Request) returns (status: Reply<Status>)
      requires At(r, Stopping)
      modifies `pidFile, `signature, `processes, `actions, `doings, `script, `successes, `cuts, `seconds, `sleeps,
               `slept, `checks, `sightings, `missed, `launched
      ensures Valid() && script.None? && sleeps <= old(sleeps) + 20 + MaxPolls(r.timeout)
      ensures status == Value(Ready) || successes == old(successes)
      ensures status == Value(Ready) ==> exists answer :: successes == old(successes) + [Success(r, answer, S().pod)]
      ensures cuts == old(cuts) + if status.Interrupted? then 1 else 0
      ensures |checks| >= |old(checks)| && checks[..|old(checks)|] == old(checks)
      ensures forall i :: |old(checks)| <= i < |checks| - 1 ==> checks[i].None?
      ensures status.Value? ==>
                && (status.value.Ready? <==> |checks| > |old(checks)| && LastCheck().Some?)
                && (status.value.Ready? || status.value == Failed(VllmExited) || status.value == Failed(VllmTimeout))
                && GaveUp(status.value, r, old(seconds))
    {
      var pid :- Relaunch(r);
      status := AwaitReady(r, pid);
    }

    /** The health check before anything is touched; the old signature counts. */
    method KeepsServer(r: Request) returns (keeps: Reply<bool>)
      requires At(r, Checking)
      modifies `processes, `actions, `doings, `script, `successes, `cuts, `checks, `missed
      ensures Valid() && cuts == old(cuts) + if keeps.Interrupted? then 1 else 0
      ensures if keeps.Interrupted? then checks == old(checks)
              else && |checks| == |old(checks)| + 1 && checks[..|old(checks)|] == old(checks)
                   && keeps.value == (LastCheck().Some? && signature == Some(SignatureOf(r.signed)))
      ensures if keeps == Value(true) then exists answer :: successes == old(successes) + [Success(r, answer, S().pod)]
              else successes == old(successes)
      ensures if keeps == Value(false) then At(r, Stopping) else script.None?
      ensures keeps == Value(true) ==> doings == old(doings) + [Move(Healthy(LastCheck().value))]
    {
      var healthy :- IsHealthy(r.port);
      if healthy.None? {
        Advance(S(), Move(Unhealthy));
        return Value(false);
      }
      ghost var answer := Answer(healthy.value, processes[healthy.value]);
      Advance(S(), Move(Healthy(healthy.value)));
      if signature != Some(SignatureOf(r.signed)) {
        return Value(false);
      }
      assert successes == old(successes) + [Success(r, answer, S().pod)];
      return Value(true);
    }

    method KeepOrReplace(r: Request) returns (status: Reply<Status>)
      requires At(r, Checking)
      modifies `pidFile, `signature, `processes, `actions, `doings, `script, `successes, `cuts, `seconds, `sleeps,
               `slept, `checks, `sightings, `missed, `launched
      ensures Valid() && script.None? && sleeps <= old(sleeps) + 20 + MaxPolls(r.timeout)
      ensures cuts == old(cuts) + if status.Interrupted? then 1 else 0
      ensures |checks| >= |old(checks)| && checks[..|old(checks)|] == old(checks)
      ensures forall i :: |old(checks)| < i < |checks| - 1 ==> checks[i].None?
      ensures status == Value(AlreadyHealthy) <==>
                && |checks| > |old(checks)| && checks[|old(checks)|].Some?
                && old(signature) == Some(SignatureOf(r.signed))
      ensures if status == Value(AlreadyHealthy) || status == Value(Ready)
              then exists answer :: successes == old(successes) + [Success(r, answer, S().pod)]
              else successes == old(successes)
      ensures status == Value(AlreadyHealthy) ==>
                && |checks| == |old(checks)| + 1 && pidFile == old(pidFile) && signature == old(signature)
                && sleeps == old(sleeps) && doings == old(doings) + [Move(Healthy(LastCheck().value))]
      ensures status == Value(Ready) ==> |checks| > |old(checks)| + 1 && LastCheck().Some?
      ensures status.Value? && status.value.Failed? ==>
                && (status.value == Failed(VllmExited) || status.value == Failed(VllmTimeout))
                && (|checks| > |old(checks)| + 1 ==> LastCheck().None?) && GaveUp(status.value, r, old(seconds))
    {
      var keeps :- KeepsServer(r);
      if keeps {
        return Value(AlreadyHealthy);
      }
      status := StopAndLaunch(r);
    }

    /** The server that answered is left alone: the script did nothing but the health check. */
    twostate predicate LeftAlone(r: Request, pid: Pid)
      reads this
    {
      && pidFile == old(pidFile) && signature == old(signature) && sleeps == old(sleeps)
      && doings == old(doings) + [Begin(r), Move(Healthy(pid))]
    }

    /**
     The server is kept exactly if the health check is answered and the signature file holds the signature of the
     request.  An exit 0 means that the server that was asked for answered, and that it is the only one that may
     be running; every other end of the script counts as no success, and has its reason.
     */
    method EnsureVllm(r: Request, launcher: bool, cuda: bool) returns (status: Reply<Status>)
      requires Valid() && script.None? && OneLine(r.signed)
      modifies `pidFile, `signature, `processes, `actions, `doings, `script, `successes, `cuts, `seconds, `sleeps,
               `slept, `checks, `sightings, `missed, `launched
      ensures Valid() && script.None? && Inv(S())
      ensures sleeps <= old(sleeps) + 20 + MaxPolls(r.timeout)
      ensures status.Value? && !status.value.Failed? ==>
                && |successes| == |old(successes)| + 1 && successes[..|old(successes)|] == old(successes)
                && var e := successes[|successes| - 1]; e.request == r && e.pod == S().pod && Sound(e)
      ensures !(status.Value? && !status.value.Failed?) ==> successes == old(successes)
      ensures cuts == old(cuts) + if status.Interrupted? then 1 else 0
      ensures status == Value(Failed(MissingLauncher)) <==> !launcher
      ensures status == Value(Failed(NoCuda)) <==> launcher && !cuda
      ensures !launcher || !cuda ==> S().pod == old(S().pod) && checks == old(checks)
      ensures |checks| >= |old(checks)| && checks[..|old(checks)|] == old(checks)
      ensures status == Value(AlreadyHealthy) <==>
                && |checks| > |old(checks)| && checks[|old(checks)|].Some?
                && old(signature) == Some(SignatureOf(r.signed))
      ensures status == Value(AlreadyHealthy) ==> LeftAlone(r, checks[|old(checks)|].value)
      ensures status == Value(Ready) ==> |checks| > |old(checks)| + 1 && LastCheck().Some?
      ensures forall i :: |old(checks)| < i < |checks| - 1 ==> checks[i].None?
      ensures status == Value(Failed(VllmExited)) || status == Value(Failed(VllmTimeout)) ==>
                (|checks| > |old(checks)| + 1 ==> LastCheck().None?) && GaveUp(status.value, r, old(seconds))
    {
      Advance(S(), Begin(r));
      launched := None;
      if !launcher || !cuda {
        status := Exit(if launcher then NoCuda else MissingLauncher);
      } else {
        status := KeepOrReplace(r);
      }
      Invariant();
    }
  }
}
