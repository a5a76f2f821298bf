/**
 Any number of `up` and `down` processes around one `flock`.

 A step of a body is enabled by the process's own program point only; nothing here checks that the
 process owns the lock.  That at most one body runs is proved, and so is that every interleaving
 leaves the state directory, the provider and the log exactly as the lock-held bodies leave them
 when they run one after another in acquisition order, crashed ones cut short.
 */
module Concurrency {
  import opened Wrappers
  import opened Lifecycle
  import Numbers

  type ProcId = nat

  datatype Proc = Waiting(cmd: Command) | Holding(cmd: Command, pc: Pc)

  datatype State = State(world: World, owner: Option<ProcId>, procs: map<ProcId, Proc>)

  datatype Action =
    | Start(p: ProcId, cmd: Command)
    | Acquire(p: ProcId)
    | Step(p: ProcId, c: Choice)
    | Release(p: ProcId)
    | Leave(p: ProcId)
    | Provider(e: EnvAction)

  /** The kernel drops the lock of a process that unlocks, closes or dies; others keep theirs. */
  function Unlock(owner: Option<ProcId>, p: ProcId): Option<ProcId> {
    if owner == Some(p) then None else owner
  }

  /** `Leave` is a crash at any point, an exception before the first step, or a lock timeout. */
  function Take(s: State, a: Action): Option<State> {
    match a
    case Start(p, cmd) =>
      if p in s.procs then None else Some(s.(procs := s.procs[p := Waiting(cmd)]))
    case Acquire(p) =>
      if p !in s.procs || !s.procs[p].Waiting? || s.owner.Some? then None
      else Some(State(Logged(s.world, Began), Some(p), s.procs[p := Holding(s.procs[p].cmd, SelReadId)]))
    case Step(p, c) =>
      if p !in s.procs || !s.procs[p].Holding? then None
      else (
        match BodyStep(s.world, s.procs[p].cmd, s.procs[p].pc, c)
        case Blocked => None
        case Then(w, pc) => Some(s.(world := w, procs := s.procs[p := Holding(s.procs[p].cmd, pc)])))
    case Release(p) =>
      if p !in s.procs || !s.procs[p].Holding? || !s.procs[p].pc.Ended? then None
      else Some(s.(owner := Unlock(s.owner, p), procs := s.procs - {p}))
    case Leave(p) =>
      if p !in s.procs then None
      else Some(s.(owner := Unlock(s.owner, p), procs := s.procs - {p}))
    case Provider(e) =>
      if EnvEnabled(s.world.pods, e)
      then Some(s.(world := s.world.(pods := EnvStep(s.world.pods, e)))) else None
  }

  function Run(s: State, acts: seq<Action>): Option<State> {
    if acts == [] then Some(s)
    else
      var before := Run(s, acts[..|acts| - 1]);
      if before.None? then None else Take(before.value, acts[|acts| - 1])
  }

  ghost predicate FreshState(s: State) {
    s.owner.None? && s.procs == map[] && Fresh(SState(s.world, None))
  }

  // ----- mutual exclusion -----

  ghost predicate Exclusive(s: State) {
    && (forall p :: p in s.procs && s.procs[p].Holding? ==> s.owner == Some(p))
    && (s.owner.Some? ==> s.owner.value in s.procs && s.procs[s.owner.value].Holding?)
  }

  lemma {:induction false} RunKeepsExclusive(s: State, acts: seq<Action>)
    requires Exclusive(s) && Run(s, acts).Some?
    ensures Exclusive(Run(s, acts).value)
  {
    if acts != [] {
      RunKeepsExclusive(s, acts[..|acts| - 1]);
    }
  }

  // ----- serializability -----

  /** The serial view: everything durable, and the body of the lock's owner. */
  ghost function View(s: State): SState
    requires Exclusive(s)
  {
    if s.owner.None? then SState(s.world, None)
    else SState(s.world, Some(Activity(s.procs[s.owner.value].cmd, s.procs[s.owner.value].pc)))
  }

  /** What one action is in the serial view; starting and waiting are invisible. */
  ghost function Visible(s: State, a: Action): seq<SAction> {
    match a
    case Start(_, _) => []
    case Acquire(p) => if p in s.procs then [Begin(s.procs[p].cmd)] else []
    case Step(_, c) => [Move(c)]
    case Release(p) => [Cut]
    case Leave(p) => if s.owner == Some(p) then [Cut] else []
    case Provider(e) => [Env(e)]
  }

  ghost function Project(s: State, acts: seq<Action>): seq<SAction> {
    if acts == [] then []
    else
      var init := acts[..|acts| - 1];
      Project(s, init) + if Run(s, init).Some? then Visible(Run(s, init).value, acts[|acts| - 1]) else []
  }

  lemma StepIsSerial(s: State, a: Action)
    requires Exclusive(s) && Take(s, a).Some?
    ensures Exclusive(Take(s, a).value)
    ensures var v := Visible(s, a);
            if v == [] then View(Take(s, a).value) == View(s)
            else |v| == 1 && SStep(View(s), v[0]) == Some(View(Take(s, a).value))
  {
  }

  /** Every interleaving of N processes is a serial run with the same durable outcome. */
  lemma {:induction false} Serializable(s: State, acts: seq<Action>)
    requires Exclusive(s) && Run(s, acts).Some?
    ensures Exclusive(Run(s, acts).value)
    ensures SRun(View(s), Project(s, acts)) == Some(View(Run(s, acts).value))
  {
    if acts != [] {
      var init, a := acts[..|acts| - 1], acts[|acts| - 1];
      Serializable(s, init);
      RunKeepsExclusive(s, init);
      var before := Run(s, init).value;
      StepIsSerial(before, a);
      var v, serial := Visible(before, a), Project(s, init);
      if v != [] {
        assert (serial + v)[..|serial + v| - 1] == serial;
      } else {
        assert serial + v == serial;
      }
    }
  }

  // ----- and conversely -----

  lemma TakeMore(s: State, acts: seq<Action>, t: State, a: Action) returns (more: seq<Action>, u: State)
    requires Exclusive(s) && Run(s, acts) == Some(t) && Take(t, a).Some?
    ensures Run(s, more) == Some(u) && Take(t, a) == Some(u) && Project(s, more) == Project(s, acts) + Visible(t, a)
  {
    more, u := acts + [a], Take(t, a).value;
    assert more[..|more| - 1] == acts;
  }

  /** One serial action is one or two of a process or the provider. */
  lemma RealizeOne(s: State, acts: seq<Action>, t: State, a: SAction) returns (more: seq<Action>, u: State)
    requires Exclusive(s) && Run(s, acts) == Some(t) && Exclusive(t) && SStep(View(t), a).Some?
    ensures Run(s, more) == Some(u) && Exclusive(u)
    ensures View(u) == SStep(View(t), a).value && Project(s, more) == Project(s, acts) + [a]
  {
    match a {
      case Begin(cmd) =>
        var p := Numbers.Unused(t.procs.Keys);
        more, u := TakeMore(s, acts, t, Start(p, cmd));
        assert Project(s, acts) + [] == Project(s, acts);
        StepIsSerial(t, Start(p, cmd));
        StepIsSerial(u, Acquire(p));
        more, u := TakeMore(s, more, u, Acquire(p));
      case Move(c) =>
        StepIsSerial(t, Step(t.owner.value, c));
        more, u := TakeMore(s, acts, t, Step(t.owner.value, c));
      case Cut =>
        StepIsSerial(t, Leave(t.owner.value));
        more, u := TakeMore(s, acts, t, Leave(t.owner.value));
      case Env(e) =>
        StepIsSerial(t, Provider(e));
        more, u := TakeMore(s, acts, t, Provider(e));
    }
  }

  /** Every serial run is, body by body, what processes around the lock can do. */
  lemma {:induction false} Realizable(s: State, acts: seq<SAction>) returns (more: seq<Action>, t: State)
    requires Exclusive(s) && SRun(View(s), acts).Some?
    ensures Run(s, more) == Some(t) && Exclusive(t)
    ensures View(t) == SRun(View(s), acts).value && Project(s, more) == acts
  {
    if acts == [] {
      more, t := [], s;
    } else {
      var init, a := acts[..|acts| - 1], acts[|acts| - 1];
      more, t := Realizable(s, init);
      more, t := RealizeOne(s, more, t, a);
      assert init + [a] == acts;
    }
  }

  /** Until it leaves, the holder stays alone with the provider. */
  lemma {:induction false} HolderStays(s: State, acts: seq<Action>, p: ProcId)
    requires Exclusive(s) && Run(s, acts).Some? && s.owner == Some(p)
    requires forall a <- acts :: a != Leave(p) && a != Release(p)
    ensures Exclusive(Run(s, acts).value) && Run(s, acts).value.owner == Some(p)
    ensures forall v <- Project(s, acts) :: v.Move? || (v.Env? && Provider(v.e) in acts)
  {
    if acts != [] {
      var init, a := acts[..|acts| - 1], acts[|acts| - 1];
      assert a in acts && forall b <- init :: b in acts;
      HolderStays(s, init, p);
      StepIsSerial(Run(s, init).value, a);
    }
  }

  /** The commands of the serial bodies, in the order in which they run. */
  ghost function Bodies(acts: seq<SAction>): seq<Command> {
    if acts == [] then []
    else Bodies(acts[..|acts| - 1]) + match acts[|acts| - 1] { case Begin(cmd) => [cmd] case _ => [] }
  }

  /** The commands of the processes, in the order in which they acquired the lock. */
  ghost function Acquisitions(s: State, acts: seq<Action>): seq<Command> {
    if acts == [] then []
    else
      var init := acts[..|acts| - 1];
      Acquisitions(s, init) +
      match acts[|acts| - 1] {
        case Acquire(p) => if Run(s, init).Some? && p in Run(s, init).value.procs
                           then [Run(s, init).value.procs[p].cmd] else []
        case _ => []
      }
  }

  lemma {:induction false} SerialOrderIsAcquisitionOrder(s: State, acts: seq<Action>)
    ensures Bodies(Project(s, acts)) == Acquisitions(s, acts)
  {
    if acts != [] {
      var init := acts[..|acts| - 1];
      SerialOrderIsAcquisitionOrder(s, init);
      var serial := Project(s, init);
      if Run(s, init).Some? {
        var v := Visible(Run(s, init).value, acts[|acts| - 1]);
        if v != [] {
          assert (serial + v)[..|serial + v| - 1] == serial;
        } else {
          assert serial + v == serial;
        }
      } else {
        assert serial + [] == serial;
      }
    }
  }
}
