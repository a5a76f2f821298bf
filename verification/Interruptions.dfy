/**
 Concrete runs in which a promise breaks, for every choice of pods, keys, fingerprints and addresses:
 because a lock-held run is interrupted, or because somebody else makes a pod of the same name at the
 wrong moment.  `HostKeys`, `Specs` and `RunningPods` say exactly when the promises hold.
 */
module Interruptions {
  import opened Wrappers
  import opened Lifecycle
  import opened HostKeys
  import RunningPods
  import Specs

  const NOTHING := SState(World(EMPTY_DISK, map[], []), None)

  ghost predicate Reached(acts: seq<SAction>, t: SState) {
    SRun(NOTHING, acts) == Some(t)
  }

  /** The run goes on with one action. */
  lemma Play(acts: seq<SAction>, t: SState, a: SAction) returns (more: seq<SAction>, u: SState)
    requires Reached(acts, t) && SStep(t, a).Some?
    ensures Reached(more, u) && SStep(t, a) == Some(u) && more == acts + [a]
  {
    more, u := acts + [a], SStep(t, a).value;
    assert more[..|more| - 1] == acts;
  }

  ghost predicate In(t: SState, cfg: Settings, pc: Pc) {
    t.cur == Some(Activity(Up(cfg), pc))
  }

  /** Nothing in the run is cut or fails, but for the answers to create requests. */
  predicate Uninterrupted(acts: seq<SAction>) {
    forall a <- acts :: !a.Cut? && a != Move(Fail) && a != Move(FailAfter)
  }

  /** A first `up` up to its create request. */
  lemma ReachCreate(cfg: Settings) returns (acts: seq<SAction>, t: SState)
    ensures Reached(acts, t) && In(t, cfg, UpCreate) && t.world == Logged(NOTHING.world, Began)
    ensures Uninterrupted(acts)
  {
    acts, t := Play([], NOTHING, Begin(Up(cfg)));
    acts, t := Play(acts, t, Move(Ok));
    acts, t := Play(acts, t, Move(FoundNone));
  }

  lemma CreatePod(cfg: Settings, id: PodId) returns (acts: seq<SAction>, t: SState)
    ensures Reached(acts, t) && In(t, cfg, UpWriteId(id)) && t.world.disk == EMPTY_DISK
    ensures t.world.pods == map[id := Pod(cfg.podName, Running, Ours(cfg.fingerprint), None)]
  {
    acts, t := ReachCreate(cfg);
    acts, t := Play(acts, t, Move(CreateOk(id)));
  }

  /** After a first `up` that saved pod `id` and its specification, before its first endpoint request. */
  lemma FirstUp(cfg: Settings, id: PodId) returns (acts: seq<SAction>, t: SState)
    ensures Reached(acts, t) && In(t, cfg, UpPoll(id))
    ensures t.world.disk == Disk(Some(id), Some(cfg.fingerprint), None, map[])
    ensures t.world.pods == map[id := Pod(cfg.podName, Running, Ours(cfg.fingerprint), None)]
  {
    acts, t := CreatePod(cfg, id);
    acts, t := Play(acts, t, Move(Ok));
    acts, t := Play(acts, t, Move(Ok));
    acts, t := Play(acts, t, Move(Ok));
  }

  /** A later `up`, up to its answer about the persisted pod. */
  lemma SelectPersisted(acts: seq<SAction>, t: SState, cfg: Settings, id: PodId)
    returns (more: seq<SAction>, u: SState)
    requires Reached(acts, t) && t.cur.None? && t.world.disk.podId == Some(id) && Live(t.world.pods, id)
    ensures Reached(more, u) && In(u, cfg, UpReadSpec(Snapshot(id, t.world.pods[id].status)))
    ensures u.world == Logged(t.world, Began)
  {
    more, u := Play(acts, t, Begin(Up(cfg)));
    more, u := Play(more, u, Move(Ok));
    more, u := Play(more, u, Move(Ok));
  }

  /** The saved specification matches: the running pod is reused. */
  lemma ReuseSelected(acts: seq<SAction>, t: SState, cfg: Settings, id: PodId)
    returns (more: seq<SAction>, u: SState)
    requires Reached(acts, t) && In(t, cfg, UpReadSpec(Snapshot(id, Running)))
    requires t.world.disk.spec == Some(cfg.fingerprint)
    requires t.world.disk.endpoint.Some? ==> t.world.disk.endpoint.value.podId == id
    ensures Reached(more, u) && In(u, cfg, UpPoll(id)) && u.world == t.world
  {
    more, u := Play(acts, t, Move(Ok));
    more, u := Play(more, u, Move(Ok));
  }

  // ----- the specification -----

  /** The saved specification differs: the old pod is stopped and a new one created. */
  lemma BeginReplacement(acts: seq<SAction>, t: SState, cfg: Settings, id: PodId, newId: PodId)
    returns (more: seq<SAction>, u: SState)
    requires Reached(acts, t) && In(t, cfg, UpReadSpec(Snapshot(id, Running)))
    requires Live(t.world.pods, id) && t.world.pods[id].status == Running && newId !in t.world.pods
    requires t.world.disk.spec.Some? && t.world.disk.spec.value != cfg.fingerprint
    ensures Reached(more, u) && In(u, cfg, RepRead(id, newId)) && u.world.disk == t.world.disk
    ensures u.world.pods == t.world.pods[id := t.world.pods[id].(status := Exited)]
                                        [newId := Pod(cfg.podName, Running, Ours(cfg.fingerprint), None)]
  {
    more, u := Play(acts, t, Move(Ok));
    more, u := Play(more, u, Move(Ok));
    more, u := Play(more, u, Move(CreateOk(newId)));
  }

  /** The new id is written; the run is cut before the specification is. */
  lemma CutReplacement(acts: seq<SAction>, t: SState, cfg: Settings, id: PodId, newId: PodId)
    returns (more: seq<SAction>, u: SState)
    requires Reached(acts, t) && In(t, cfg, RepRead(id, newId)) && t.world.disk.endpoint.None?
    ensures Reached(more, u) && u.cur.None? && u.world == WithId(t.world, Some(newId))
  {
    more, u := Play(acts, t, Move(Ok));
    more, u := Play(more, u, Move(Ok));
    more, u := Play(more, u, Cut);
  }

  /**
   A replacement cut between its two writes leaves the old specification with the new pod, and an `up`
   with the old settings then reuses a pod that was created with the new ones.
   */
  lemma CutReplacementBreaksSpec(cfg: Settings, next: Settings, id: PodId, newId: PodId)
    returns (acts: seq<SAction>, t: SState)
    requires cfg.fingerprint != next.fingerprint && id != newId
    ensures Fresh(NOTHING) && Reached(acts, t)
    ensures !Specs.Agrees(t.world) && In(t, cfg, UpPoll(newId))
    ensures newId in t.world.pods && t.world.pods[newId].origin == Ours(next.fingerprint)
  {
    acts, t := FirstUp(cfg, id);
    acts, t := Play(acts, t, Cut);
    acts, t := SelectPersisted(acts, t, next, id);
    acts, t := BeginReplacement(acts, t, next, id, newId);
    acts, t := CutReplacement(acts, t, next, id, newId);
    acts, t := SelectPersisted(acts, t, cfg, newId);
    acts, t := ReuseSelected(acts, t, cfg, newId);
  }

  /** The persisted pod is deleted; the next `up` forgets its id and is cut before the specification. */
  lemma CutForgetting(acts: seq<SAction>, t: SState, cfg: Settings, id: PodId)
    returns (more: seq<SAction>, u: SState)
    requires Reached(acts, t) && t.cur.None? && t.world.disk.podId == Some(id) && Live(t.world.pods, id)
    requires t.world.disk.endpoint.None?
    ensures Reached(more, u) && u.cur.None? && u.world.disk == t.world.disk.(podId := None)
    ensures u.world.pods == t.world.pods[id := t.world.pods[id].(status := Gone)]
  {
    more, u := Play(acts, t, Env(Delete(id)));
    more, u := Play(more, u, Begin(Up(cfg)));
    more, u := Play(more, u, Move(Ok));
    more, u := Play(more, u, Move(Ok));
    more, u := Play(more, u, Move(Ok));
    more, u := Play(more, u, Move(Ok));
    more, u := Play(more, u, Move(Ok));
    more, u := Play(more, u, Cut);
  }

  /** The only pod of the configured name is adopted. */
  lemma AdoptNamed(acts: seq<SAction>, t: SState, cfg: Settings, id: PodId)
    returns (more: seq<SAction>, u: SState)
    requires Reached(acts, t) && t.cur.None? && t.world.disk.podId.None?
    requires OnlyNamed(t.world.pods, cfg.podName, id) && t.world.pods[id].status == Running
    ensures Reached(more, u) && In(u, cfg, UpReadSpec(Snapshot(id, Running)))
    ensures u.world == WithId(Logged(t.world, Began), Some(id))
  {
    more, u := Play(acts, t, Begin(Up(cfg)));
    more, u := Play(more, u, Move(Ok));
    more, u := Play(more, u, Move(FoundOne(id)));
    more, u := Play(more, u, Move(Ok));
  }

  /**
   A deletion cut between its two removals leaves the specification without a pod, and the next `up`
   then reuses whatever pod of the configured name somebody else made.
   */
  lemma CutForgettingBreaksSpec(cfg: Settings, id: PodId, foreign: PodId)
    returns (acts: seq<SAction>, t: SState)
    requires id != foreign
    ensures Fresh(NOTHING) && Reached(acts, t)
    ensures !Specs.Agrees(t.world) && In(t, cfg, UpPoll(foreign))
    ensures foreign in t.world.pods && t.world.pods[foreign].origin == Foreign
  {
    acts, t := FirstUp(cfg, id);
    acts, t := Play(acts, t, Cut);
    acts, t := CutForgetting(acts, t, cfg, id);
    acts, t := Play(acts, t, Env(ForeignCreate(foreign, Pod(cfg.podName, Running, Foreign, None))));
    acts, t := AdoptNamed(acts, t, cfg, foreign);
    acts, t := ReuseSelected(acts, t, cfg, foreign);
  }

  /**
   Without any interruption: a pod of the configured name that somebody else makes between the lookup and a
   failing create request is taken for our own and saved with our specification.
   */
  lemma RivalIsAdopted(cfg: Settings, foreign: PodId) returns (acts: seq<SAction>, t: SState)
    ensures Fresh(NOTHING) && Reached(acts, t) && Uninterrupted(acts)
    ensures !Specs.Agrees(t.world) && In(t, cfg, UpPoll(foreign))
    ensures foreign in t.world.pods && t.world.pods[foreign].origin == Foreign
  {
    acts, t := ReachCreate(cfg);
    acts, t := Play(acts, t, Env(ForeignCreate(foreign, Pod(cfg.podName, Running, Foreign, None))));
    acts, t := Play(acts, t, Move(CreateFail(true)));
    acts, t := SaveFound(acts, t, cfg, foreign);
  }

  /** The only pod of the configured name is what the create request must have made. */
  lemma SaveFound(acts: seq<SAction>, t: SState, cfg: Settings, id: PodId)
    returns (more: seq<SAction>, u: SState)
    requires Reached(acts, t) && In(t, cfg, UpReconcile) && Uninterrupted(acts)
    requires t.world.disk.endpoint.None? && OnlyNamed(t.world.pods, cfg.podName, id)
    ensures Reached(more, u) && In(u, cfg, UpPoll(id)) && Uninterrupted(more) && u.world.pods == t.world.pods
    ensures u.world.disk == t.world.disk.(podId := Some(id), spec := Some(cfg.fingerprint))
  {
    more, u := Play(acts, t, Move(FoundOne(id)));
    more, u := Play(more, u, Move(Ok));
    more, u := Play(more, u, Move(Ok));
    more, u := Play(more, u, Move(Ok));
  }

  // ----- running pods -----

  /**
   A replacement cut between its create and the write of its id loses the new pod, and an `up` with
   the old settings then resumes the old one beside it.
   */
  lemma LostReplacementRunsTwo(cfg: Settings, next: Settings, id: PodId, newId: PodId)
    returns (acts: seq<SAction>, t: SState)
    requires cfg.fingerprint != next.fingerprint && id != newId
    ensures Fresh(NOTHING) && Reached(acts, t)
    ensures RunningPods.OursRunning(t.world.pods, id) && RunningPods.OursRunning(t.world.pods, newId)
  {
    acts, t := FirstUp(cfg, id);
    acts, t := Play(acts, t, Cut);
    acts, t := SelectPersisted(acts, t, next, id);
    acts, t := BeginReplacement(acts, t, next, id, newId);
    acts, t := Play(acts, t, Cut);
    acts, t := SelectPersisted(acts, t, cfg, id);
    acts, t := Play(acts, t, Move(Ok));
    acts, t := Play(acts, t, Move(Ok));
  }

  // ----- host keys -----

  /** The provider moves a live pod, at any time. */
  lemma MovePod(acts: seq<SAction>, t: SState, id: PodId, addr: Address) returns (more: seq<SAction>, u: SState)
    requires Reached(acts, t) && Live(t.world.pods, id)
    ensures Reached(more, u) && u.cur == t.cur && u.world.disk == t.world.disk && u.world.log == t.world.log
    ensures u.world.pods == t.world.pods[id := t.world.pods[id].(addr := Some(addr))]
  {
    more, u := Play(acts, t, Env(SetAddr(id, Some(addr))));
  }

  ghost predicate Reports(t: SState, cfg: Settings, id: PodId, addr: Address) {
    In(t, cfg, UpPoll(id)) && Live(t.world.pods, id) && t.world.pods[id].status == Running
    && t.world.pods[id].addr == Some(addr)
  }

  /** A connection at an address without an entry: any key is enrolled. */
  lemma Connect(acts: seq<SAction>, t: SState, cfg: Settings, id: PodId, addr: Address, key: Key)
    returns (more: seq<SAction>, u: SState)
    requires Reached(acts, t) && In(t, cfg, Probe(id, addr)) && t.world.disk.knownHosts == map[]
    ensures Reached(more, u) && u.cur.None? && u.world == WithTrust(t.world, addr, key)
  {
    more, u := Play(acts, t, Move(SshOk(key)));
    more, u := Play(more, u, Cut);
  }

  /** The first endpoint is recorded. */
  lemma FirstRecord(acts: seq<SAction>, t: SState, cfg: Settings, id: PodId, addr: Address)
    returns (more: seq<SAction>, u: SState)
    requires Reached(acts, t) && Reports(t, cfg, id, addr) && t.world.disk.endpoint.None?
    ensures Reached(more, u) && In(u, cfg, Probe(id, addr))
    ensures u.world == WithRecord(Logged(t.world, Reported(id, addr)), Some(Record(id, addr)))
  {
    more, u := Play(acts, t, Move(Ok));
    more, u := Play(more, u, Move(Ok));
    more, u := Play(more, u, Move(Ok));
  }

  /** The provider reports another address than the recorded one. */
  lemma StartRotation(acts: seq<SAction>, t: SState, cfg: Settings, rec: Record, addr: Address)
    returns (more: seq<SAction>, u: SState)
    requires Reached(acts, t) && Reports(t, cfg, rec.podId, addr) && addr != rec.addr
    requires t.world.disk.endpoint == Some(rec)
    ensures Reached(more, u) && In(u, cfg, PrepKeygen(rec, addr))
    ensures u.world == Logged(t.world, Reported(rec.podId, addr))
  {
    more, u := Play(acts, t, Move(Ok));
    more, u := Play(more, u, Move(Ok));
  }

  /** The rotation removes the entry of the recorded address and is cut before the record changes. */
  lemma CutRotation(acts: seq<SAction>, t: SState, cfg: Settings, rec: Record, addr: Address, key: Key)
    returns (more: seq<SAction>, u: SState)
    requires Reached(acts, t) && In(t, cfg, PrepKeygen(rec, addr)) && t.world.disk.knownHosts == map[rec.addr := key]
    ensures Reached(more, u) && u.cur.None? && u.world.pods == t.world.pods
    ensures u.world.disk == t.world.disk.(knownHosts := map[])
    ensures Pinned(u.world.log) == Pinned(t.world.log).(tear := OpenHere)
  {
    Append(t.world.log, RemovedKey(rec));
    assert map[rec.addr := key] - {rec.addr} == map[];
    more, u := Play(acts, t, Move(Ok));
    more, u := Play(more, u, Cut);
  }

  /** The provider reports the recorded address. */
  lemma ReturnToRecorded(acts: seq<SAction>, t: SState, cfg: Settings, rec: Record)
    returns (more: seq<SAction>, u: SState)
    requires Reached(acts, t) && Reports(t, cfg, rec.podId, rec.addr) && t.world.disk.endpoint == Some(rec)
    ensures Reached(more, u) && In(u, cfg, Probe(rec.podId, rec.addr))
    ensures u.world == Logged(t.world, Reported(rec.podId, rec.addr))
  {
    more, u := Play(acts, t, Move(Ok));
    more, u := Play(more, u, Move(Ok));
  }

  /**
   A rotation cut between `ssh-keygen -R` and the record update loses the pinned key: the next `up`
   enrolls any other key at the unchanged record.
   */
  lemma TornRotationLosesKey(cfg: Settings, id: PodId, addr: Address, other: Address, key: Key, newKey: Key)
    returns (acts: seq<SAction>, t: SState, i: nat)
    requires addr != other && key != newKey
    ensures Fresh(NOTHING) && Reached(acts, t)
    ensures i < |t.world.log| && t.world.log[i] == Trusted(addr, newKey) && KeyChanged(t.world.log, i)
  {
    acts, t := FirstUp(cfg, id);
    acts, t := MovePod(acts, t, id, addr);
    acts, t := FirstRecord(acts, t, cfg, id, addr);
    Append(t.world.log, Trusted(addr, key));
    acts, t := Connect(acts, t, cfg, id, addr, key);
    acts, t := MovePod(acts, t, id, other);
    Append(t.world.log, Began);
    acts, t := SelectPersisted(acts, t, cfg, id);
    acts, t := ReuseSelected(acts, t, cfg, id);
    Append(t.world.log, Reported(id, other));
    acts, t := StartRotation(acts, t, cfg, Record(id, addr), other);
    acts, t := CutRotation(acts, t, cfg, Record(id, addr), other, key);
    acts, t := MovePod(acts, t, id, addr);
    Append(t.world.log, Began);
    acts, t := SelectPersisted(acts, t, cfg, id);
    acts, t := ReuseSelected(acts, t, cfg, id);
    Append(t.world.log, Reported(id, addr));
    acts, t := ReturnToRecorded(acts, t, cfg, Record(id, addr));
    var before := t.world.log;
    i := |before|;
    acts, t := Connect(acts, t, cfg, id, addr, newKey);
    assert t.world.log[..i] == before;
  }
}
