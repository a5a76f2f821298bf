# Verification of llm-coding

A Dafny 4.11 model of the parts of llm-coding whose correctness rests on the order of operations: which
RunPod pod the controller believes it owns, which SSH host key it trusts for it, and what survives when a
run is interrupted anywhere. `dafny verify dfyconfig.toml` checks everything.

## The pod identity and SSH trust protocol

`up` and `down` keep four separate durable things in one directory: the pod id, the fingerprint of the pod
specification, the SSH endpoint record and `known_hosts`. No transaction covers them.

* `Lifecycle.dfy` cuts the lock-held bodies of `up` and `down` into steps. Each step reads or changes at
  most one file, makes one provider request, or runs one SSH or `ssh-keygen` command. A step may fail
  before or after its effect, a body may be cut at any step, and the provider changes pods in between.
* `Concurrency.dfy` runs any number of such processes around one `flock`. Nothing in a step checks the
  lock. Mutual exclusion is proved, and so is that every interleaving leaves exactly what the bodies leave
  when they run one after another in the order in which they acquired the lock, and conversely that
  processes can do whatever serial bodies do.
* `Binding.dfy`, `Evidence.dfy`, `HostKeys.dfy`, `Identity.dfy`, `Specs.dfy`, `Creation.dfy`, `RunningPods.dfy`,
  `Recovery.dfy` and `Shutdown.dfy` prove the results over serial runs; `Guarantees.dfy` states them for N
  processes.
* `Controller.dfy` is the same protocol as imperative code with the shape of `runtime.py` and `ssh.py`.
  `Valid` ties every object to a run of `Lifecycle`, so each call, and each prefix of one, is a run that
  the theorems speak of. What the environment decides, it decides before each operation; the code can only
  record a failing step if the environment made that operation fail, and a timeout only after the deadline.
* `Refusals.dfy` lists the reasons for which a body gives up although nothing failed.
* `Interruptions.dfy` gives runs that show where the promises end.

What was found where the code does not do everything one could hope for:

* Host key continuity fails when a rotation is interrupted between `ssh-keygen -R` and the record update.
  The next `up` that finds the old address again enrolls any key there. `PinnedKeyIsExclusiveUnlessTorn`
  says that this is the only way: the pinned key is the only one SSH accepts if and only if no earlier
  lock-held run removed the entry and ended before its record change.
* `up` can bring up a pod that was made with other settings, or by somebody else, after a replacement was
  interrupted between its id write and its specification write, or a deletion between its two removals, or
  after a pod of the same name appeared between the lookup and a failing create request. For every state
  without a lock holder `BringsUpOwnIffSettled` says exactly when it cannot: if and only if the saved
  specification is the one that the persisted pod was made with, or the persisted pod is gone. So an
  interruption between the two writes after a first create is harmless here (`CutHarmsIffInGap`).
* A replacement whose create request succeeds but whose id is never written can leave two pods running.
  `KeepsAtMostOneIffAnchored` says exactly from which states at most one pod keeps running: those in which
  at most one runs and, when the persisted pod still exists and has a saved specification, none runs but
  that one. `CutInGapHarmsIff` says which interrupted replacements end outside of them.
* `up` cannot always come up again, even if nothing more goes wrong. `ComesUpIffRecoverable` says exactly
  when some continuation can. A first create that is cut between its two writes is final until somebody
  else deletes the pod.
* `down` does not catch everything. An OSError from the existence test of the pod id or the endpoint record,
  or from `ssh-keygen` or touching `known_hosts`, leaves it before the three file removals; so does a failed
  `systemctl stop` whose output is blank (taking its last line raises IndexError) or cannot be decoded.

## The other parts

* `LifecycleLock.dfy`: the bounded wait for the lock, with exact arithmetic over reals. `AtomicFile.dfy`:
  `atomic_write_private` with partial writes, faults at every call and a statement about every moment at
  which the process may die. When the directory sync fails after the rename, the call raises although the
  new content is in place.
* `RemoteServer.dfy` and `EnsureVllm.dfy`: the pid file, signature file and server of `ensure-vllm.sh`,
  first as a machine over any sequence of runs, interruptions and pod restarts, then as the script itself.
  An interruption between the launch and the pid write leaves a server that a later run can take for its
  own; `SoundIffAccounted` says exactly when that can happen, whatever was interrupted before. While the
  script waits for the previous server to end, another process that takes its pid is killed in its place.
* `AcpFile.dfy`: the shared ACP file under its own lock, for any number of registering and removing
  processes. Removing escapes with a KeyError exactly on an object without `agent_servers`, and a
  registration that is JSON null is reported as absent but stays in the file.
* `Installer.dfy`: the OpenCode installation from download to replacement of the binary.
* `UnitArgument.dfy`: `escape_unit_argument` against the reader described in section "COMMAND LINES" of
  systemd.service(5) and section "SPECIFIERS" of systemd.unit(5). `EnvFile.dfy`: `write_shell_assignment`
  against `_read_env`.

## Assumptions

* Fingerprints are an injective function of the settings and digests are collision free.
* The provider never reuses a pod id, answers about the id that was asked for, and lists pods
  consistently; a created pod exists from the create step on, also when the answer is lost.
* SSH follows `StrictHostKeyChecking=accept-new`: it enrolls a key at an address without an entry and
  refuses any other key at one with an entry. `ssh-keygen -R` for an absent entry succeeds.
* In undisturbed runs nothing interrupts the two gaps, and nobody else makes a pod of the configured name
  between the lookup and the reconcile of one `up`.
* Identifiers, names, fingerprints, hosts and host keys are only compared for equality.
* Which classes of exceptions a step of the controller can raise (`ControllerCode.CanRaise`) is taken from
  the library calls it makes.
* On the pod, `kill -9` is effective, only launched servers answer on the port, and an interrupted script
  does not go on running beside its successor.

## Model

| member | source | states |
|---|---|---|
| Guarantees.BindingInvariant | python-src/llm_coding/runtime.py:300-360 | in every reachable state of N concurrent processes the endpoint record names the persisted pod, and `known_hosts` holds no address but the recorded one |
| Guarantees.HolderCoherent | python-src/llm_coding/runtime.py:393-447 | what a lock holder has read is still on disk when it acts on it; the "belongs to another RunPod" refusals and the stale-record recovery are unreachable |
| Guarantees.SshTargetsRecordedEndpoint | python-src/llm_coding/runtime.py:469-513 | every SSH command goes to the recorded endpoint of the persisted pod, also after rotations |
| Guarantees.TrustRemovedOnEvidence | python-src/llm_coding/ssh.py:73-126 | every removal from `known_hosts` follows, in the same lock-held run, a 404 for the recorded pod, another endpoint reported for it, or a mismatch and the creation of its replacement |
| Guarantees.RemovalIsOfRecordedAddress | python-src/llm_coding/ssh.py:159-170 | the address removed is the recorded one, and no removal goes unlogged |
| Guarantees.KeyContinuity | python-src/llm_coding/ssh.py:138-171 | two connections without a record change or removal between them met the same host key |
| Guarantees.KeyChangesOnlyWhenTorn | python-src/llm_coding/ssh.py:157-171 | at an unchanged record another key is only met after an interrupted removal |
| Guarantees.PinnedKeyIsExclusiveUnlessTorn | python-src/llm_coding/ssh.py:174-199 | before a connection, the last key is the only accepted one if and only if no earlier lock-held run removed the entry and ended before its record change |
| Guarantees.AtMostOneCreation | python-src/llm_coding/runtime.py:259-269 | with one configuration and no deletions, any number of runs, interleaved and crashed anywhere, create at most one pod |
| Guarantees.SpecAgreesExceptInGap | python-src/llm_coding/runtime.py:314-341 | the saved fingerprint is the persisted pod's, exactly outside a replacement's two writes and a deletion's two removals |
| Guarantees.ReusedPodMatchesSettings | python-src/llm_coding/runtime.py:420-447 | over undisturbed runs from a fresh directory, a pod that `up` starts, polls, connects to or launches on was created with its current settings; `BringsUpOwnIffSettled` is about all other states |
| Guarantees.BringsUpOwnIffSettled | python-src/llm_coding/runtime.py:414-447 | whatever was interrupted before and whoever made pods of which name, every undisturbed continuation of every interleaving brings up only pods made with the settings of the process that does, if and only if the saved specification is the persisted pod's or that pod is gone |
| Guarantees.AtMostOneRunning | python-src/llm_coding/runtime.py:309-316 | with one pod name and completed replacements at most one pod of the controller is RUNNING in every reachable state |
| Guarantees.KeepsAtMostOneIffAnchored | python-src/llm_coding/runtime.py:300-316 | whatever replacements were interrupted or lost before, every orderly continuation of every interleaving keeps at most one pod RUNNING if and only if at most one runs now and, when the persisted pod exists and has a saved specification, none but that one |
| Guarantees.ComesUpIffRecoverable | python-src/llm_coding/runtime.py:414-448 | some calm continuation, of any number of processes, comes up if and only if the persisted pod is usable, or gone with its name free, or none is persisted and the name is free or its pod usable |
| Guarantees.CleanDownStopsSelectedPod | python-src/llm_coding/runtime.py:584-592 | when a `down` among other processes has recorded no failure, the persisted pod is not RUNNING, provided that nobody resumed a pod meanwhile |
| Guarantees.SecondDownChangesNothing | python-src/llm_coding/runtime.py:587-588 | a `down` among other processes that finds the persisted pod stopped changes neither the files nor any pod |
| Guarantees.IdleDownChangesNothing | python-src/llm_coding/runtime.py:586-588 | a `down` among other processes that finds no pod persisted and none of the name changes neither the files nor any pod |
| Concurrency.RunKeepsExclusive | python-src/llm_coding/state.py:100-145 | at most the owner of the lock is inside, and the owner is |
| Concurrency.Serializable | python-src/llm_coding/state.py:77-145 | every interleaving has a serial run of the lock-held bodies with the same files, pods and log |
| Concurrency.SerialOrderIsAcquisitionOrder | python-src/llm_coding/state.py:103-107 | that serial run takes the bodies in the order of lock acquisition |
| Concurrency.Realizable | python-src/llm_coding/state.py:77-145 | conversely every serial run is the projection of an interleaving with the same outcome |
| Binding.RunKeepsInv | python-src/llm_coding/runtime.py:319-342 | the record, `known_hosts` and the holder's locals stay coherent over every serial run |
| Binding.RefusalsUnreachable | python-src/llm_coding/ssh.py:80-84 | from a fresh directory no run reaches a refusal or the recovery of a stale record |
| Evidence.RemovalHitsRecordedAddress | python-src/llm_coding/ssh.py:85-98 | a step that drops an address from `known_hosts` drops the recorded one, changes no other file and logs it |
| Evidence.RunKeepsEvidence | python-src/llm_coding/runtime.py:324-336 | every logged removal is justified, and each program point has seen the evidence it will act on |
| HostKeys.RunKeepsPin | python-src/llm_coding/ssh.py:147-171 | `known_hosts` is, exactly, a function of the log and the record |
| HostKeys.TornMeans | python-src/llm_coding/ssh.py:162-171 | `Torn` means exactly a removal and a later lock-held run with no record change, connection or removal since |
| HostKeys.SameKeyWithoutRemoval | python-src/llm_coding/ssh.py:194-197 | key continuity over serial runs |
| Interruptions.TornRotationLosesKey | python-src/llm_coding/ssh.py:162-171 | for all keys and addresses, a run in which an interrupted rotation makes `up` enroll another key at the unchanged record |
| Interruptions.CutReplacementBreaksSpec | python-src/llm_coding/runtime.py:313-315 | a run in which an interrupted replacement makes `up` reuse a pod created with other settings |
| Interruptions.CutForgettingBreaksSpec | python-src/llm_coding/runtime.py:337-341 | a run in which an interrupted deletion makes `up` reuse somebody else's pod |
| Interruptions.LostReplacementRunsTwo | python-src/llm_coding/runtime.py:310-314 | a run in which a lost replacement leaves two pods running |
| Interruptions.RivalIsAdopted | python-src/llm_coding/runtime.py:263-268 | a run without any interruption in which somebody else's pod is saved with our specification |
| Specs.AgreesExceptInGap | python-src/llm_coding/runtime.py:417-430 | agreement of specification and pod over serial runs, as an equivalence |
| Specs.BringsUpOwnIffSettled | python-src/llm_coding/runtime.py:414-447 | the same equivalence over serial runs |
| Specs.CutHarmsIffInGap | python-src/llm_coding/runtime.py:314-341 | an interruption does lasting harm if and only if it hits one of the two gaps, but for a replacement whose new pod is already gone |
| Identity.RunKeepsIds | python-src/llm_coding/runtime.py:337-341 | the persisted pod id, and an id about to be persisted, is one that the provider has had |
| Creation.AtMostOneCreation | python-src/llm_coding/runtime.py:415-419 | at most one creation over serial runs |
| Creation.LostAnswerIsRecovered | python-src/llm_coding/runtime.py:263-268 | a create request whose answer is lost makes no second pod: the reconcile finds exactly the new one if none had the name before |
| RunningPods.AtMostOneRunning | python-src/llm_coding/runtime.py:443-445 | at most one running pod over serial runs |
| RunningPods.KeepsAtMostOneIffAnchored | python-src/llm_coding/runtime.py:300-316 | the same equivalence over serial runs |
| RunningPods.CutInGapHarmsIff | python-src/llm_coding/runtime.py:312-314 | cutting a replacement before its id write does lasting harm if and only if the replaced pod still exists and the new one runs |
| Recovery.ComesUpIffRecoverable | python-src/llm_coding/runtime.py:414-448 | over all calm continuations of any number of bodies, one comes up if and only if the state is recoverable |
| Recovery.NextUpComesUp | python-src/llm_coding/runtime.py:385-515 | from a recoverable state the very next `up` can come up |
| Recovery.CutBeforeSpecIsFinal | python-src/llm_coding/runtime.py:417-430 | after a first create cut between its two writes, no calm continuation with any settings comes up |
| Shutdown.CleanDownStopsSelectedPod | python-src/llm_coding/runtime.py:584-592 | when `down` recorded no failure, the persisted pod is not RUNNING |
| Shutdown.DownKeepsState | python-src/llm_coding/runtime.py:322-325 | while the provider has the selected pod, `down` changes none of the four files, whatever fails |
| Shutdown.SecondDownChangesNothing | python-src/llm_coding/runtime.py:587-588 | with the selected pod already stopped, `down` changes no pod |
| Shutdown.IdleDownChangesNothing | python-src/llm_coding/runtime.py:586-588 | with no pod persisted and none of the name, `down` changes neither the files nor any pod |
| Refusals.RaisesIff | python-src/llm_coding/runtime.py:259-515 | at every step, no operation having failed, a body raises if and only if the deadline has passed, the specification is missing or the pod terminated, the name is ambiguous or missing after a failed create, the record names another pod, the pod is gone or stopped, or the host key is another one |
| ControllerCode.Controller.Up | python-src/llm_coding/runtime.py:385-515 | `up` returns normally if and only if its last step is the remote launch, successful on an accepted host, at the recorded endpoint of the persisted pod; every exception has a failed operation, one of the reasons of `Refusals`, or the passed deadline behind it; its two loops sleep five seconds at a time, at most ceil(T/5) times together |
| ControllerCode.Controller.Launch | python-src/llm_coding/runtime.py:500-515 | returns normally if and only if the script ended well over a connection whose host key is accepted |
| ControllerCode.Controller.ChoosePod | python-src/llm_coding/runtime.py:414-448 | create, reuse, start or replace, up to the first endpoint request for the pod that is now persisted; an exception has a failed operation or a reason of `Refusals` behind it |
| ControllerCode.Controller.ReusePod | python-src/llm_coding/runtime.py:421-445 | refuse without a saved specification, replace on a mismatch, refuse a terminated pod, start a stopped one; nothing else is refused |
| ControllerCode.Controller.SelectPod | python-src/llm_coding/runtime.py:319-342 | the selected pod is the persisted one; what raises is a failed operation or a reason of `Refusals` |
| ControllerCode.Controller.ForgetSelection | python-src/llm_coding/runtime.py:329-338 | after a 404 the record is dealt with before id and specification are forgotten |
| ControllerCode.Controller.ForgetEndpointAfterConfirmedReplacement | python-src/llm_coding/runtime.py:345-360 | a stale record is dealt with by the machine's recovery steps, and the caller goes on where it left off |
| ControllerCode.Controller.CreateOrReconcilePod | python-src/llm_coding/runtime.py:259-269 | a failed create is reconciled by name or raised |
| ControllerCode.Controller.ReplacePod | python-src/llm_coding/runtime.py:300-316 | stop, create, forget the endpoint, write id and specification, in this order |
| ControllerCode.Controller.ForgetEndpointForDeletedPod | python-src/llm_coding/ssh.py:73-98 | no record is left on return |
| ControllerCode.Controller.ForgetEndpointForReplacement | python-src/llm_coding/ssh.py:101-126 | no record is left on return |
| ControllerCode.Controller.PrepareEndpoint | python-src/llm_coding/ssh.py:129-171 | on return the record names this pod at this address |
| ControllerCode.Controller.WaitForEndpoint | python-src/llm_coding/runtime.py:453-460 | asks before each five-second sleep; ends with the reported endpoint, gives up only at the deadline, and otherwise raises only for a failed request or a pod that is stopped or gone |
| ControllerCode.Controller.WaitForSsh | python-src/llm_coding/runtime.py:471-498 | tries to connect before each five-second sleep; ends connected at the recorded endpoint, gives up only at the deadline, and otherwise raises only for a failed operation or a reason of `Refusals` |
| ControllerCode.Controller.FindPodByName | python-src/llm_coding/runpod.py:112-116 | no match, the only match, or an error |
| ControllerCode.Controller.GetPodEndpoint | python-src/llm_coding/runpod.py:157-192 | the endpoint, pending, or an error for a stopped or missing pod |
| ControllerCode.Controller.StopSelectedPod | python-src/llm_coding/runtime.py:586-588 | a failure is what the machine's `down` records |
| ControllerCode.Controller.Down | python-src/llm_coding/runtime.py:563-605 | it escapes exactly from a tunnel step or a pod step that raises what it does not catch; otherwise all removals are tried and the errors name exactly the failed steps in order; the pod step fails only by a failed operation or a reason of `Refusals`; after a clean return, from a fresh directory, the persisted pod is not RUNNING unless somebody resumed one |
| ControllerCode.EscapesAreOSErrors | python-src/llm_coding/runtime.py:584-592 | given what each step can raise, exactly OSErrors of the existence tests and of `ssh-keygen` escape from the pod step of `down` |
| ControllerCode.BlankOutputEscapes | python-src/llm_coding/runtime.py:575-583 | a failed stop escapes if and only if its output is no text, or what it prints, on stderr or else on stdout, is not empty but all white space |
| ControllerCode.Controller.RemoveTransientFiles | python-src/llm_coding/runtime.py:593-603 | exactly the files whose removal fails stay, and each is reported |
| LifecycleLock.Lock.Enter | python-src/llm_coding/state.py:87-133 | the last answer of `flock` decides: entered if and only if it is granted and the name written, a timeout if and only if it is still busy, and then only after the deadline; every earlier answer is busy and followed by a sleep of 0.1 seconds, the last one perhaps shorter; at most ceil(10 T) + 1 attempts, and sleeps of at most T in all |
| LifecycleLock.HolderIsNamedIff | python-src/llm_coding/state.py:110-122 | the timeout message names an operation if and only if the lock file holds its name, in white space |
| LifecycleLock.Lock.Leave | python-src/llm_coding/state.py:134-145 | for every end of the body, with or without a handler, and even if the handler raises or unlocking fails, the lock is free; the handler hears once of an Exception and of nothing else; the caller sees exactly how the body, the handler and the unlocking ended |
| LifecycleLock.Lock.WithLock | python-src/llm_coding/state.py:77-145 | the body runs exactly if the lock was entered, how its end reaches the caller, and on every path the lock is free at the end |
| AtomicFile.Directory.WriteAll | python-src/llm_coding/state.py:55-61 | the temporary file receives exactly the data over any short writes, and nothing else changes; it fails exactly if a call does |
| AtomicFile.Directory.AtomicWritePrivate | python-src/llm_coding/state.py:45-74 | a normal return if and only if the text has an encoding and no system call failed, with the new content synced before the rename; at every moment the destination holds exactly the old or the new content; which one on an error before the rename and on one after it; a single failure leaves no temporary file |
| AtomicFile.RenameGives | python-src/llm_coding/state.py:65 | the rename of the staged file is exactly the replacement of the destination |
| RemoteServer.SignatureIsInjective | python-src/llm_coding/assets/remote/ensure-vllm.sh:50-66 | newline-free settings with the same signature are the same settings |
| RemoteServer.SignatureText | python-src/llm_coding/assets/remote/ensure-vllm.sh:50-66 | what is hashed: every signed argument on a line of its own, in order, and the marker |
| RemoteServer.EverySuccessIsSound | python-src/llm_coding/assets/remote/ensure-vllm.sh:68-133 | every exit 0 of every run was answered by a ready server on the requested port that was launched with exactly the requested settings, and the files name it |
| RemoteServer.AtMostOneServer | python-src/llm_coding/assets/remote/ensure-vllm.sh:79-115 | at most one server runs at any moment |
| RemoteServer.SoundIffAccounted | python-src/llm_coding/assets/remote/ensure-vllm.sh:98-115 | whatever was interrupted before, in the gap or elsewhere: once no script runs, every later exit 0 is sound if and only if each live server is the one in the pid file |
| RemoteServer.GapLeavesServer | python-src/llm_coding/assets/remote/ensure-vllm.sh:113-115 | after an interruption between launch and pid write, every later exit 0 is sound if and only if the launched server is dead or recorded by coincidence |
| RemoteServer.StopsRecordedIff | python-src/llm_coding/assets/remote/ensure-vllm.sh:79-83 | the script goes for exactly the recorded process, if it lives and its command line says vllm |
| RemoteServer.KillsIff | python-src/llm_coding/assets/remote/ensure-vllm.sh:85-90 | a step of the script ends a process if and only if that is the one it went for, and changes no other |
| RemoteServer.OthersSurvive | python-src/llm_coding/assets/remote/ensure-vllm.sh:79-93 | over any number of runs a process that has nothing to do with vLLM is never killed, unless it takes the pid of one that a script is already waiting to kill |
| RemoteServer.RecycledPidIsKilled | python-src/llm_coding/assets/remote/ensure-vllm.sh:86-90 | that exception is real: a run in which a process with a recycled pid is killed |
| RemoteServer.SameRequestReuses | python-src/llm_coding/assets/remote/ensure-vllm.sh:73-77 | while the server of a success lives and is ready, and a health check fails only if nothing answers, the same request ends with an exit 0 answered by it and touches nothing |
| EnsureVllmScript.Shell.EnsureVllm | python-src/llm_coding/assets/remote/ensure-vllm.sh:35-133 | the server is kept, with nothing but the health check done, if and only if that check is answered and the signature file holds the signature of the request; an exit 0 is a sound success of the machine; each failure has its reason: no launcher, no CUDA device, the launched process gone, or no answer for the whole timeout; sleeps at most 20 + ceil(T/5) |
| EnsureVllmScript.Shell.KillPrevious | python-src/llm_coding/assets/remote/ensure-vllm.sh:85-90 | the recorded process is gone; it is looked for before each of at most twenty one-second sleeps, fewer exactly if it is seen gone |
| EnsureVllmScript.Shell.AwaitReady | python-src/llm_coding/assets/remote/ensure-vllm.sh:117-133 | one health check and one look at the process before each five-second sleep; ready if and only if the last check is answered, exited with the process gone, or timed out after the deadline |
| AcpFile.Registry.EnsureAcpRegistration | python-src/llm_coding/opencode.py:127-162 | for every combination of failing calls, whether the file becomes what the operation decides or stays, and exactly which error is raised |
| AcpFile.Registry.RemoveAcpRegistration | python-src/llm_coding/opencode.py:165-190 | for every combination of failing calls, whether the file becomes what the operation decides or stays, and exactly which error is raised; a KeyError escapes if and only if no call fails before the file is read and it is an object without `agent_servers` |
| AcpFile.OwnEntry | python-src/llm_coding/opencode.py:139-154 | after registering on a well-formed file an IDE finds exactly the command of the configuration with the one argument `acp` for the agent; removing ends the registration in any file unless it is null |
| AcpFile.EnsureRefusesIff | python-src/llm_coding/opencode.py:133-145 | registering writes if and only if the file is missing or an object whose two sections are objects where they exist, and which error it raises otherwise |
| AcpFile.RemoveWritesIff | python-src/llm_coding/opencode.py:171-186 | removing writes if and only if there is a registration that is not null, is a no-op if and only if there is no file or no such registration, and which error it raises otherwise |
| AcpFile.OwnFlags | python-src/llm_coding/opencode.py:146-147 | registering sets the two default flags and no other; removing changes none |
| AcpFile.OthersUnchanged | python-src/llm_coding/opencode.py:146-153 | on any file, other agents and other top-level values are left alone |
| AcpFile.RemoveEscapesIff | python-src/llm_coding/opencode.py:174-185 | that content, and no other, is what removing answers with a KeyError |
| AcpFile.FileIsFoldInLockOrder | python-src/llm_coding/opencode.py:109-119 | in every state of every interleaving the file is the fold of the effective operations in lock order |
| AcpFile.ReturningCallTookEffect | python-src/llm_coding/opencode.py:131-154 | a call that returns normally is among them |
| AcpFile.CallGoesThrough | python-src/llm_coding/opencode.py:109-119 | whenever the lock is free a call of any process can complete, with its effect on the file, and frees the lock |
| AcpFile.UnrelatedUnchanged | python-src/llm_coding/opencode.py:128-154 | unrelated agents and top-level values are unchanged throughout |
| AcpFile.NoLostUpdate | python-src/llm_coding/opencode.py:109-186 | after any interleaving the file starts, for each agent, the command of its last effective registration, or nothing if that was a removal |
| AcpFile.StaleWriteLosesUpdate | python-src/llm_coding/opencode.py:116 | a run of the same processes without the lock in which two registrations return normally and one is missing from the file |
| Installer.CopyLimited | python-src/llm_coding/opencode.py:198-204 | writes exactly the source, or fails above the limit having written a prefix within it |
| Installer.FindExecutable | python-src/llm_coding/opencode.py:207-255 | the single executable of an archive without unsafe members, if and only if there is one |
| Installer.SingleExecutableIff | python-src/llm_coding/opencode.py:207-255 | an archive is accepted if and only if no name climbs, a tar file has no links, and exactly one file is named `opencode` |
| Installer.SafePathStaysInside | python-src/llm_coding/opencode.py:193-195 | a safe path stays inside its directory at every part |
| Installer.SafePathIff | python-src/llm_coding/opencode.py:193-195 | a member name is safe if and only if it does not begin with a slash of either kind and no part between slashes is two dots |
| Installer.BaseNameIff | python-src/llm_coding/opencode.py:219-220 | the name of a path is its last part that is neither empty nor a dot |
| Installer.Installation.Download | python-src/llm_coding/opencode.py:304-333 | for every chunking, exactly the sent bytes, as long as announced and within the limit, or an error |
| Installer.Installation.Extract | python-src/llm_coding/opencode.py:207-262 | the staged file is the single executable within the limit, or there is none |
| Installer.Installation.EnsureInstalled | python-src/llm_coding/opencode.py:265-368 | at every moment of the call and after it, the binary is the previous one or one extracted from allowlisted bytes that reports the version; without local failures it is replaced exactly when the download holds one, and otherwise the error names the first check that fails |
| UnitArgument.EscapeIsPerCharacter | python-src/llm_coding/systemd.py:116-118 | the three successive replacements encode each character on its own |
| UnitArgument.AcceptedIff | python-src/llm_coding/systemd.py:112-115 | an argument is refused if and only if it is empty or has an unprintable character; every path of visible ASCII characters and spaces is accepted |
| UnitArgument.ArgumentReadsBack | python-src/llm_coding/systemd.py:110-119 | the quoted argument reads back as one word, the argument, whatever follows it |
| UnitArgument.CommandReadsBack | python-src/llm_coding/systemd.py:122-137 | a rendered command line reads back as the executable and its arguments, exactly |
| EnvFile.Reader.ReadEnv | python-src/llm_coding/config.py:92-117 | the settings and complaints of the file's lines, and the error cases of reading it |
| EnvFile.AssignmentLine | python-src/llm_coding/config.py:102-117 | white space around the name, the equals sign and the value does not matter; one pair of quotes of either kind around the value is taken away, and the value is otherwise kept as it is |
| EnvFile.NamedLineAssigns | python-src/llm_coding/config.py:102-117 | a setting name in white space before an equals sign is assigned to, whatever follows |
| EnvFile.SkippedIff | python-src/llm_coding/config.py:102-104 | exactly blank lines and comments are skipped |
| EnvFile.NotAnAssignmentIff | python-src/llm_coding/config.py:105-107 | exactly the other lines without an equals sign are complained about as no assignments |
| EnvFile.BadNameIff | python-src/llm_coding/config.py:108-112 | exactly the other lines that do not begin with a setting name and an equals sign are complained about for their name |
| EnvFile.LinesOfText | python-src/llm_coding/config.py:96 | each line break ends a line, a carriage return and line feed are one, and text after the last one is a line of its own |
| Text.StripTakesOuterSpace | python-src/llm_coding/config.py:102 | stripping takes away exactly the white space around a text that neither begins nor ends with any |
| EnvFile.ValueOfLastAssignment | python-src/llm_coding/config.py:101-117 | a name has the value of its last assignment |
| EnvFile.UnassignedName | python-src/llm_coding/config.py:101-117 | a name without an assignment has no value |
| EnvFile.ComplaintsAreExact | python-src/llm_coding/config.py:105-112 | exactly the lines that are neither skipped nor assignments are complained about, by number |
| EnvFile.ListReadsBack | python-src/llm_coding/core.py:120-121 | any printed list of valid assignments reads back as its last-wins map, without a complaint |
| EnvFile.AssignmentReadsBackIff | python-src/llm_coding/core.py:120-121 | one printed assignment reads back if and only if its name is a setting name and its value has no line break |

## Left out

- ControllerCode.Controller.Up: stops after the remote launch; the tunnel restart, the write of `runtime.env` and the check through the tunnel touch none of the four files. The ACP registration and the public key check before the selection are not part of it either.
- ControllerCode.Controller.Ssh: only the connections that `up` makes; the tunnel service connects on its own, outside the lifecycle lock.
- ControllerCode.Controller.GetPodEndpoint: which malformed provider answer raises which error is one nondeterministic failure.
- ControllerCode.Controller.Down: the messages are represented by which step failed, not by their text. Where the running Python's existence test ignores all errors, the escapes from it do not occur.
- LifecycleLock.Lock.Enter: floats are reals, and the mode and descriptor handling of the lock file is one possible failure.
- AtomicFile.Directory.AtomicWritePrivate: file modes, and what a disk keeps of data that were not synced.
- RemoteServer.SameRequestReuses: a health check that times out although a ready server listens is excluded; the script would then replace that server.
- RemoteServer.EverySuccessIsSound: assumes no interruption between the launch and the pid write; `SoundIffAccounted` and `GapLeavesServer` say what happens otherwise. The served-name match of the health check only makes it fail more often and is not used.
- AcpFile.OwnEntry: the command, which the program derives from its own path, is a parameter of the configuration; the order of JSON keys is not kept.
- AcpFile.FileIsFoldInLockOrder: programs that change the ACP file without taking its lock.
- Installer.Installation.EnsureInstalled: archive formats, SHA-256 and what an executable prints are parameters; what a binary prints does not change between two runs; file modes.
- UnitArgument.EscapeUnitArgument: which characters beyond ASCII are printable is a parameter. Numeric escapes and the prefixes of an absolute executable path play no role in rendered lines and are not modelled. Nor are variables and lone semicolons, which rendered arguments never contain; the path that systemd runs is not subject to variable substitution.
- EnvFile.ListReadsBack: for lists the condition is sufficient only; an unprintable value may happen to be overwritten by a later one.
- Validity checks of the state files, which treat malformed content as an error: content that only this program writes is well formed.
- Best-effort activation status and failure files, except their removal by `down`: they never affect identity or trust.
- HTTP transport, JSON decoding, subprocess execution and systemd itself: nondeterministic steps.
- `parse_settings` beyond `_read_env`, model profiles, `cli.py`, `status.py`, `models.py`, `vllm.py`, Docker files and packaging: classifications, tables and user interface.
