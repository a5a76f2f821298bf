/**
 What any number of concurrent `up` and `down` processes guarantee, from a fresh state directory and
 with crashes, lock timeouts, failing operations and provider changes at any step.  Each statement
 holds of every interleaving; the serial theorems carry over through `Concurrency.Serializable`.
 */
module Guarantees {
  import opened Wrappers
  import opened Lifecycle
  import opened Concurrency
  import Binding
  import Creation
  import Evidence
  import HostKeys
  import Recovery
  import RunningPods
  import Shutdown
  import Specs

  /** A run of N processes, seen serially. */
  ghost predicate Reaches(s: State, acts: seq<Action>, t: State) {
    FreshState(s) && Run(s, acts) == Some(t)
  }

  ghost predicate Inside(t: State, p: ProcId) {
    p in t.procs && t.procs[p].Holding?
  }

  /** The record names the persisted pod and `known_hosts` stays within it, in every reachable state. */
  lemma BindingInvariant(s: State, acts: seq<Action>, t: State)
    requires Reaches(s, acts, t)
    ensures t.world.disk.endpoint.Some? ==> t.world.disk.podId == Some(t.world.disk.endpoint.value.podId)
    ensures forall a :: a in t.world.disk.knownHosts
              ==> t.world.disk.endpoint.Some? && t.world.disk.endpoint.value.addr == a
  {
    Serializable(s, acts);
    Binding.RunKeepsInv(View(s), Project(s, acts));
  }

  /**
   What a process inside the lock has read is still on disk when it acts on it; it never refuses a
   record, and never needs the recovery from a stale one.
   */
  lemma HolderCoherent(s: State, acts: seq<Action>, t: State, p: ProcId)
    requires Reaches(s, acts, t) && Inside(t, p)
    ensures Binding.Coherent(t.world.disk, t.procs[p].pc)
    ensures !Binding.Refuses(t.world, t.procs[p].pc) && !Binding.RecoversStaleRecord(t.procs[p].pc)
  {
    Serializable(s, acts);
    Binding.RefusalsUnreachable(View(s), Project(s, acts));
    Binding.RunKeepsInv(View(s), Project(s, acts));
  }

  /** Every SSH command goes to the recorded endpoint of the persisted pod. */
  lemma SshTargetsRecordedEndpoint(s: State, acts: seq<Action>, t: State, p: ProcId)
    requires Reaches(s, acts, t) && Inside(t, p)
    requires t.procs[p].pc.Probe? || t.procs[p].pc.Remote?
    ensures var pc := t.procs[p].pc;
            t.world.disk.endpoint == Some(Record(pc.id, pc.addr)) && t.world.disk.podId == Some(pc.id)
  {
    HolderCoherent(s, acts, t, p);
  }

  /** Every removal from `known_hosts` has its evidence in the same lock-held run. */
  lemma TrustRemovedOnEvidence(s: State, acts: seq<Action>, t: State, i: nat)
    requires Reaches(s, acts, t) && i < |t.world.log| && t.world.log[i].RemovedKey?
    ensures Evidence.Justifies(Evidence.Section(t.world.log[..i]), t.world.log[i].rec)
  {
    Serializable(s, acts);
    Evidence.RunKeepsEvidence(View(s), Project(s, acts));
  }

  /** A step that takes an address out of `known_hosts` takes the recorded one, and is logged. */
  lemma RemovalIsOfRecordedAddress(s: State, acts: seq<Action>, t: State, a: Action, addr: Address)
    requires Reaches(s, acts, t) && Take(t, a).Some?
    requires addr in t.world.disk.knownHosts && addr !in Take(t, a).value.world.disk.knownHosts
    ensures t.world.disk.endpoint.Some? && addr == t.world.disk.endpoint.value.addr
    ensures Take(t, a).value.world.log == t.world.log + [RemovedKey(t.world.disk.endpoint.value)]
  {
    Serializable(s, acts);
    Binding.RunKeepsInv(View(s), Project(s, acts));
    StepIsSerial(t, a);
    Evidence.RemovalHitsRecordedAddress(View(t), Visible(t, a)[0], addr);
  }

  /** Two connections without a record change or a removal between them met the same host key. */
  lemma KeyContinuity(s: State, acts: seq<Action>, t: State, i: nat, j: nat)
    requires Reaches(s, acts, t) && i < j < |t.world.log|
    requires t.world.log[i].Trusted? && t.world.log[j].Trusted?
    requires forall m :: i < m < j ==>
               !t.world.log[m].RecordSet? && !t.world.log[m].RecordCleared? && !t.world.log[m].RemovedKey?
    ensures t.world.log[i].key == t.world.log[j].key
  {
    Serializable(s, acts);
    HostKeys.SameKeyWithoutRemoval(View(s), Project(s, acts), i, j);
  }

  /** A connection meets another key than the one before it, at an unchanged record, only after a torn removal. */
  lemma KeyChangesOnlyWhenTorn(s: State, acts: seq<Action>, t: State, i: nat)
    requires Reaches(s, acts, t) && i < |t.world.log| && HostKeys.KeyChanged(t.world.log, i)
    ensures HostKeys.Pinned(t.world.log[..i]).tear.Torn?
  {
    Serializable(s, acts);
    HostKeys.RunKeepsPin(View(s), Project(s, acts));
  }

  /**
   A process about to connect is sure to meet the key of the last connection, exactly when no earlier
   lock-held run removed the entry and ended without changing the record.
   */
  lemma PinnedKeyIsExclusiveUnlessTorn(s: State, acts: seq<Action>, t: State, p: ProcId)
    requires Reaches(s, acts, t) && Inside(t, p)
    requires t.procs[p].pc.Probe? || t.procs[p].pc.Remote?
    requires HostKeys.Pinned(t.world.log).key.Some?
    ensures (forall key :: Accepts(t.world.disk.knownHosts, t.procs[p].pc.addr, key)
               ==> key == HostKeys.Pinned(t.world.log).key.value)
            <==> !HostKeys.Pinned(t.world.log).tear.Torn?
  {
    Serializable(s, acts);
    HostKeys.PinnedKeyIsExclusiveUnlessTorn(View(s), Project(s, acts));
  }

  /** Every process runs with one configuration, and nobody deletes pods. */
  ghost predicate OneConfiguration(cfg: Settings, a: Action) {
    (a.Start? ==> a.cmd.cfg == cfg) && !(a.Provider? && a.e.Delete?)
  }

  lemma {:induction false} ProjectionIsSteady(s: State, acts: seq<Action>, cfg: Settings)
    requires FreshState(s) && Run(s, acts).Some?
    requires forall i :: 0 <= i < |acts| ==> OneConfiguration(cfg, acts[i])
    ensures forall p :: p in Run(s, acts).value.procs ==> Run(s, acts).value.procs[p].cmd.cfg == cfg
    ensures forall i :: 0 <= i < |Project(s, acts)| ==> Creation.Steady(cfg, Project(s, acts)[i])
  {
    if acts != [] {
      ProjectionIsSteady(s, acts[..|acts| - 1], cfg);
      assert OneConfiguration(cfg, acts[|acts| - 1]);
    }
  }

  /** However many runs, interleaved and crashed anywhere: at most one pod is ever created. */
  lemma AtMostOneCreation(s: State, acts: seq<Action>, t: State, cfg: Settings)
    requires Reaches(s, acts, t)
    requires forall i :: 0 <= i < |acts| ==> OneConfiguration(cfg, acts[i])
    ensures Creation.Creations(t.world.log) <= 1
  {
    Serializable(s, acts);
    ProjectionIsSteady(s, acts, cfg);
    Creation.AtMostOneCreation(View(s), Project(s, acts), cfg);
  }

  /** The saved fingerprint is the persisted pod's, exactly while nobody is between the two writes or removals. */
  lemma SpecAgreesExceptInGap(s: State, acts: seq<Action>, t: State)
    requires Reaches(s, acts, t) && Along(View(s), Project(s, acts), Specs.Undisturbed)
    ensures Specs.Agrees(t.world) <==> forall p :: Inside(t, p) ==> !Specs.InGap(t.world, t.procs[p].pc)
  {
    Serializable(s, acts);
    Specs.AgreesExceptInGap(View(s), Project(s, acts));
    if t.owner.Some? {
      assert Inside(t, t.owner.value);
    }
  }

  /** A pod that a process brings up was created with that process's settings. */
  lemma ReusedPodMatchesSettings(s: State, acts: seq<Action>, t: State, p: ProcId, id: PodId)
    requires Reaches(s, acts, t) && Along(View(s), Project(s, acts), Specs.Undisturbed)
    requires Inside(t, p) && Specs.Target(t.procs[p].pc) == Some(id)
    ensures id in t.world.pods && t.world.pods[id].origin == Ours(t.procs[p].cmd.cfg.fingerprint)
  {
    Serializable(s, acts);
    Specs.ReusedPodMatchesSettings(View(s), Project(s, acts), id);
  }

  /** At most one pod of the controller is RUNNING, in every reachable state of an orderly run. */
  lemma AtMostOneRunning(s: State, acts: seq<Action>, t: State, name: Name, id: PodId, other: PodId)
    requires Reaches(s, acts, t) && Along(View(s), Project(s, acts), RunningPods.OrderlyFor(name))
    requires RunningPods.OursRunning(t.world.pods, id) && RunningPods.OursRunning(t.world.pods, other)
    ensures id == other
  {
    Serializable(s, acts);
    RunningPods.AtMostOneRunning(View(s), Project(s, acts), name, id, other);
  }

  // ----- exactly when processes bring up only pods made with their own settings -----

  /** Each process inside the lock that brings up a pod has its own settings in it. */
  ghost predicate EachBringsUpOwn(t: State) {
    forall p :: Inside(t, p) && Specs.Target(t.procs[p].pc).Some? ==>
      Specs.MadeBy(t.world.pods, Specs.Target(t.procs[p].pc).value, t.procs[p].cmd.cfg.fingerprint)
  }

  ghost predicate AllStayOwn(t: State, more: seq<Action>)
    requires Exclusive(t)
  {
    Run(t, more).Some? && Along(View(t), Project(t, more), Specs.Undisturbed) ==> EachBringsUpOwn(Run(t, more).value)
  }

  lemma BringsUpOwnInView(t: State)
    requires Exclusive(t)
    ensures EachBringsUpOwn(t) <==> Specs.BringsUpOwn(View(t))
  {
    if t.owner.Some? {
      assert Inside(t, t.owner.value);
    }
  }

  /**
   Whatever was interrupted before, and whoever made pods of which name: while nobody holds the lock, every
   undisturbed continuation of every interleaving brings up only pods made with the settings of the process
   that does, exactly if the saved specification is the one of the persisted pod, or that pod is gone.
   */
  lemma BringsUpOwnIffSettled(s: State, acts: seq<Action>, t: State)
    requires Reaches(s, acts, t) && t.owner.None?
    ensures Exclusive(t)
    ensures (forall more :: AllStayOwn(t, more))
            <==> Specs.Agrees(t.world)
                 || (t.world.disk.podId.Some? && !Live(t.world.pods, t.world.disk.podId.value))
  {
    Serializable(s, acts);
    Specs.BringsUpOwnIffSettled(View(s), Project(s, acts));
    if forall serial :: Specs.StaysOwn(View(t), serial) {
      forall more
        ensures AllStayOwn(t, more)
      {
        if Run(t, more).Some? {
          Serializable(t, more);
          BringsUpOwnInView(Run(t, more).value);
          assert Specs.StaysOwn(View(t), Project(t, more));
        }
      }
    } else {
      var serial :| !Specs.StaysOwn(View(t), serial);
      var more, u := Realizable(t, serial);
      BringsUpOwnInView(u);
      assert !AllStayOwn(t, more);
    }
  }

  // ----- exactly when at most one pod keeps running -----

  ghost predicate StaysAtMostOne(t: State, more: seq<Action>, name: Name)
    requires Exclusive(t)
  {
    Run(t, more).Some? && Along(View(t), Project(t, more), RunningPods.OrderlyFor(name)) ==>
      RunningPods.AtMostOne(Run(t, more).value.world.pods)
  }

  ghost predicate AllNamed(acts: seq<Action>, name: Name) {
    forall a <- acts :: a.Start? ==> a.cmd.cfg.podName == name
  }

  lemma {:induction false} ProjectionHasOneName(s: State, acts: seq<Action>, name: Name)
    requires FreshState(s) && Run(s, acts).Some? && AllNamed(acts, name)
    ensures forall p :: p in Run(s, acts).value.procs ==> Run(s, acts).value.procs[p].cmd.cfg.podName == name
    ensures RunningPods.OneName(Project(s, acts), name)
  {
    if acts != [] {
      assert acts[|acts| - 1] in acts && forall b <- acts[..|acts| - 1] :: b in acts;
      ProjectionHasOneName(s, acts[..|acts| - 1], name);
    }
  }

  /**
   However replacements were interrupted or lost before: while nobody holds the lock, every orderly
   continuation of every interleaving keeps at most one pod running, exactly if at most one runs now and,
   when the persisted pod still exists and has a saved specification, none runs but that one.
   */
  lemma KeepsAtMostOneIffAnchored(s: State, acts: seq<Action>, t: State, name: Name)
    requires Reaches(s, acts, t) && AllNamed(acts, name) && t.owner.None?
    ensures Exclusive(t)
    ensures (forall more :: StaysAtMostOne(t, more, name))
            <==> RunningPods.AtMostOne(t.world.pods) && RunningPods.Anchored(t.world)
  {
    Serializable(s, acts);
    ProjectionHasOneName(s, acts, name);
    RunningPods.KeepsAtMostOneIffAnchored(View(s), Project(s, acts), name);
    if RunningPods.AtMostOne(t.world.pods) && RunningPods.Anchored(t.world) {
      forall more
        ensures StaysAtMostOne(t, more, name)
      {
        if Run(t, more).Some? {
          Serializable(t, more);
          assert RunningPods.KeepsAtMostOne(View(t), Project(t, more), name);
        }
      }
    } else {
      var serial :| !RunningPods.KeepsAtMostOne(View(t), serial, name);
      var more, u := Realizable(t, serial);
      assert !StaysAtMostOne(t, more, name);
    }
  }

  // ----- shutdown -----

  /** Process `p` holds the lock and begins its `down`. */
  ghost predicate BeginsDown(t: State, p: ProcId, cfg: Settings) {
    t.owner == Some(p) && p in t.procs && t.procs[p] == Holding(Down(cfg), SelReadId)
  }

  /** Others do what they like, but `p` goes on and nobody resumes a pod. */
  ghost predicate GoesOn(acts: seq<Action>, p: ProcId) {
    forall a <- acts :: a != Leave(p) && a != Release(p)
                        && !(a.Provider? && a.e.SetStatus? && a.e.status == Running)
  }

  lemma ProjectionGoesOn(t: State, more: seq<Action>, p: ProcId)
    requires Exclusive(t) && t.owner == Some(p) && GoesOn(more, p) && Run(t, more).Some?
    ensures Run(t, more).value.owner == Some(p)
    ensures forall i :: 0 <= i < |Project(t, more)| ==> Shutdown.NoResume(Project(t, more)[i])
    ensures forall i, id :: 0 <= i < |Project(t, more)| && Provider(Delete(id)) !in more ==>
              Shutdown.Spares(Project(t, more)[i], id)
  {
    HolderStays(t, more, p);
    forall i | 0 <= i < |Project(t, more)|
      ensures Shutdown.NoResume(Project(t, more)[i])
      ensures forall id :: Provider(Delete(id)) !in more ==> Shutdown.Spares(Project(t, more)[i], id)
    {
      assert Project(t, more)[i] in Project(t, more);
    }
  }

  /** When a `down` has reached its clean-up without a failure, the persisted pod is not RUNNING. */
  lemma CleanDownStopsSelectedPod(s: State, acts: seq<Action>, t: State, more: seq<Action>, p: ProcId, cfg: Settings)
    requires Reaches(s, acts, t) && BeginsDown(t, p, cfg) && GoesOn(more, p) && Run(t, more).Some?
    requires var u := Run(t, more).value; Inside(u, p) && u.procs[p].pc == DownClean(false)
    ensures var w := Run(t, more).value.world;
            w.disk.podId.Some? ==> !Shutdown.IsRunning(w.pods, w.disk.podId.value)
  {
    Serializable(s, acts);
    Binding.RunKeepsInv(View(s), Project(s, acts));
    ProjectionGoesOn(t, more, p);
    Serializable(t, more);
    Shutdown.CleanDownStopsSelectedPod(View(t), cfg, Project(t, more));
  }

  /** A `down` that finds the persisted pod stopped changes neither the files nor any pod. */
  lemma SecondDownChangesNothing(s: State, acts: seq<Action>, t: State, more: seq<Action>, p: ProcId, cfg: Settings,
                                 id: PodId)
    requires Reaches(s, acts, t) && BeginsDown(t, p, cfg) && GoesOn(more, p) && Run(t, more).Some?
    requires t.world.disk.podId == Some(id) && Live(t.world.pods, id) && !Shutdown.IsRunning(t.world.pods, id)
    requires Provider(Delete(id)) !in more
    ensures var w := Run(t, more).value.world;
            w.disk == t.world.disk && w.pods == Shutdown.WithoutUs(t.world.pods, Project(t, more))
  {
    Serializable(s, acts);
    ProjectionGoesOn(t, more, p);
    Serializable(t, more);
    Shutdown.SecondDownChangesNothing(View(t), cfg, Project(t, more), id);
  }

  /** Nobody makes a pod of the name that `p` looks for. */
  ghost predicate NobodyTakes(acts: seq<Action>, name: Name) {
    forall a <- acts :: !(a.Provider? && a.e.ForeignCreate? && a.e.pod.name == name)
  }

  /** A `down` that finds no pod persisted and none of the name changes neither the files nor any pod. */
  lemma IdleDownChangesNothing(s: State, acts: seq<Action>, t: State, more: seq<Action>, p: ProcId, cfg: Settings)
    requires Reaches(s, acts, t) && BeginsDown(t, p, cfg) && Run(t, more).Some?
    requires forall a <- more :: a != Leave(p) && a != Release(p)
    requires t.world.disk.podId.None? && NoneNamed(t.world.pods, cfg.podName) && NobodyTakes(more, cfg.podName)
    ensures var w := Run(t, more).value.world;
            w.disk == t.world.disk && w.pods == Shutdown.WithoutUs(t.world.pods, Project(t, more))
  {
    Serializable(s, acts);
    HolderStays(t, more, p);
    Serializable(t, more);
    var serial := Project(t, more);
    forall i | 0 <= i < |serial|
      ensures Shutdown.LeavesNameFree(serial[i], cfg.podName)
    {
      assert serial[i] in serial;
    }
    Shutdown.IdleDownChangesNothing(View(t), cfg, serial);
  }

  // ----- recovery -----

  /** Some process comes up by the last action of a calm continuation. */
  ghost predicate ComesUp(t: State, more: seq<Action>, cfg: Settings)
    requires Exclusive(t)
  {
    Run(t, more).Some? && Recovery.ComesUp(View(t), Project(t, more), cfg)
  }

  /**
   While nobody holds the lock, some calm continuation of some interleaving comes up exactly if the persisted
   pod is usable, or gone with its name free, or none is persisted and the name is free or its pod usable.
   */
  lemma ComesUpIffRecoverable(s: State, acts: seq<Action>, t: State, cfg: Settings)
    requires Reaches(s, acts, t) && t.owner.None?
    ensures Exclusive(t)
    ensures (exists more :: ComesUp(t, more, cfg)) <==> Recovery.Recoverable(t.world, cfg)
  {
    Serializable(s, acts);
    Binding.RunKeepsInv(View(s), Project(s, acts));
    Recovery.ComesUpIffRecoverable(View(t), cfg);
    if Recovery.Recoverable(t.world, cfg) {
      var serial :| Recovery.ComesUp(View(t), serial, cfg);
      var more, u := Realizable(t, serial);
      assert ComesUp(t, more, cfg);
    }
  }
}
