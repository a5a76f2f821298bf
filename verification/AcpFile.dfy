/**
 The shared JetBrains ACP file: read, changed and replaced under a lock of its own by any number of
 `ensure_acp_registration` and `remove_acp_registration` calls.

 Processes that do not take the lock are outside the model.  Objects are maps: the order of keys is not kept.
 */
module AcpFile {
  import opened Wrappers

  datatype Json =
    | Null
    | Bool(b: bool)
    | Number(digits: string)
    | String(s: string)
    | Array(elements: seq<Json>)
    | Object(fields: map<string, Json>)

  type Document = map<string, Json>

  datatype File = Missing | NotText | NotJson | Parsed(json: Json)

  datatype Config = Config(agent: string, command: string, ideaMcp: bool, customMcp: bool)

  datatype Operation = Ensure(cfg: Config) | Remove(cfg: Config)

  const DEFAULTS := "default_mcp_settings"
  const SERVERS := "agent_servers"

  /**
   `Undecodable`, `NoServers` and `NoDirectory` are a UnicodeDecodeError, a KeyError and an OSError; the others
   become a RuntimeError.
   */
  datatype Problem =
    Undecodable | CannotRead | NotAnObject | InvalidSections | NoServers | NoDirectory | CannotUpdate

  /** What an operation makes of the file: new content, no need to write, or an exception. */
  datatype Decision = Replace(json: Json) | Keep | Refuse(problem: Problem)

  /** `setdefault(key, {})`. */
  function Section(doc: Document, key: string): Json {
    if key in doc then doc[key] else Object(map[])
  }

  function Entry(cfg: Config): Json {
    Object(map["command" := String(cfg.command), "args" := Array([String("acp")])])
  }

  function Registered(doc: Document, cfg: Config): Decision {
    var defaults, servers := Section(doc, DEFAULTS), Section(doc, SERVERS);
    if !defaults.Object? || !servers.Object? then Refuse(InvalidSections)
    else
      var flags := defaults.fields["use_idea_mcp" := Bool(cfg.ideaMcp)]["use_custom_mcp" := Bool(cfg.customMcp)];
      Replace(Object(doc[DEFAULTS := Object(flags)][SERVERS := Object(servers.fields[cfg.agent := Entry(cfg)])]))
  }

  function Unregistered(doc: Document, cfg: Config): Decision {
    if !Section(doc, SERVERS).Object? then Refuse(InvalidSections)
    else if SERVERS !in doc then Refuse(NoServers)
    else
      var servers := doc[SERVERS].fields;
      if cfg.agent !in servers || servers[cfg.agent].Null? then Keep
      else Replace(Object(doc[SERVERS := Object(servers - {cfg.agent})]))
  }

  function Decide(op: Operation, file: File): Decision {
    match file
    case Missing => if op.Ensure? then Registered(map[], op.cfg) else Keep
    case NotText => Refuse(Undecodable)
    case NotJson => Refuse(CannotRead)
    case Parsed(json) =>
      if !json.Object? then Refuse(NotAnObject)
      else if op.Ensure? then Registered(json.fields, op.cfg) else Unregistered(json.fields, op.cfg)
  }

  function Apply(op: Operation, file: File): File {
    match Decide(op, file)
    case Replace(json) => Parsed(json)
    case _ => file
  }

  // ----- the code -----

  datatype Outcome = Done | Raised(problem: Problem)

  /** Where replacing the file fails. */
  datatype Fault = NoFault | BeforeReplacing | AfterReplacing

  /** What the file system refuses during a call: the directory, the lock and the reading, the replacement. */
  datatype Faults = Faults(directory: bool, access: bool, write: Fault)

  /** A call does what its operation decides on the file as it is, unless a system call fails. */
  predicate Does(op: Operation, faults: Faults, before: File, after: File, outcome: Outcome) {
    var decision := Decide(op, before);
    if faults.directory || faults.access then
      && after == before
      && outcome == Raised(if faults.directory && op.Ensure? then NoDirectory else CannotUpdate)
    else if decision.Refuse? then
      outcome == Raised(decision.problem) && after == before
    else if decision.Keep? then
      outcome == Done && after == before
    else
      && (outcome == if faults.write.NoFault? then Done else Raised(CannotUpdate))
      && (after == if faults.write.BeforeReplacing? then before else Parsed(decision.json))
  }

  /** An object without an `agent_servers` section: removing raises a KeyError, which nobody catches. */
  predicate LacksServers(file: File) {
    file.Parsed? && file.json.Object? && "agent_servers" !in file.json.fields
  }

  class Registry {
    var file: File

    constructor (file: File)
      ensures this.file == file
    {
      this.file := file;
    }

    /** `_write_acp_configuration`: the old or the new content is in place, and only the new one on return. */
    method Write(doc: Document, fault: Fault) returns (outcome: Outcome)
      modifies this
      ensures outcome == if fault.NoFault? then Done else Raised(CannotUpdate)
      ensures file == if fault.BeforeReplacing? then old(file) else Parsed(Object(doc))
    {
      if fault.BeforeReplacing? {
        return Raised(CannotUpdate);
      }
      file := Parsed(Object(doc));
      return if fault.AfterReplacing? then Raised(CannotUpdate) else Done;
    }

    method EnsureAcpRegistration(cfg: Config, faults: Faults) returns (outcome: Outcome)
      modifies this
      ensures Does(Ensure(cfg), faults, old(file), file, outcome)
    {
      if faults.directory {
        return Raised(NoDirectory);
      }
      if faults.access {
        return Raised(CannotUpdate);
      }
      var acp: Document := map[];
      match file {
        case Missing =>
        case NotText => return Raised(Undecodable);
        case NotJson => return Raised(CannotRead);
        case Parsed(json) =>
          if !json.Object? {
            return Raised(NotAnObject);
          }
          acp := json.fields;
      }
      ghost var doc := acp;
      if DEFAULTS !in acp {
        acp := acp[DEFAULTS := Object(map[])];
      }
      if SERVERS !in acp {
        acp := acp[SERVERS := Object(map[])];
      }
      if !acp[DEFAULTS].Object? || !acp[SERVERS].Object? {
        return Raised(InvalidSections);
      }
      var defaults, servers := acp[DEFAULTS].fields, acp[SERVERS].fields;
      defaults := defaults["use_idea_mcp" := Bool(cfg.ideaMcp)];
      defaults := defaults["use_custom_mcp" := Bool(cfg.customMcp)];
      servers := servers[cfg.agent := Entry(cfg)];
      acp := acp[DEFAULTS := Object(defaults)][SERVERS := Object(servers)];
      assert DEFAULTS[0] != SERVERS[0];
      assert acp == doc[DEFAULTS := Object(defaults)][SERVERS := Object(servers)];
      assert Decide(Ensure(cfg), file) == Registered(doc, cfg);
      outcome := Write(acp, faults.write);
    }

    method RemoveAcpRegistration(cfg: Config, faults: Faults) returns (outcome: Outcome)
      modifies this
      ensures Does(Remove(cfg), faults, old(file), file, outcome)
      ensures outcome == Raised(NoServers) <==> LacksServers(old(file)) && !faults.directory && !faults.access
    {
      if faults.directory || faults.access {
        return Raised(CannotUpdate);
      }
      match file {
        case Missing => return Done;
        case NotText => return Raised(Undecodable);
        case NotJson => return Raised(CannotRead);
        case Parsed(json) =>
          if !json.Object? {
            return Raised(NotAnObject);
          }
          var acp := json.fields;
          if SERVERS in acp && !acp[SERVERS].Object? {
            return Raised(InvalidSections);
          }
          if SERVERS !in acp {
            return Raised(NoServers);
          }
          var servers := acp[SERVERS].fields;
          if cfg.agent !in servers || servers[cfg.agent] == Null {
            return Done;
          }
          acp := acp[SERVERS := Object(servers - {cfg.agent})];
          outcome := Write(acp, faults.write);
      }
    }
  }

  // ----- what the operations mean for a reader of the file -----

  /** The top-level value under `key`. */
  function Top(file: File, key: string): Option<Json> {
    if file.Parsed? && file.json.Object? && key in file.json.fields then Some(file.json.fields[key]) else None
  }

  /** The registration of one agent. */
  function Agent(file: File, name: string): Option<Json> {
    var servers := Top(file, "agent_servers");
    if servers.Some? && servers.value.Object? && name in servers.value.fields
    then Some(servers.value.fields[name])
    else None
  }

  /** One of the default MCP settings. */
  function Flag(file: File, name: string): Option<Json> {
    var defaults := Top(file, "default_mcp_settings");
    if defaults.Some? && defaults.value.Object? && name in defaults.value.fields
    then Some(defaults.value.fields[name])
    else None
  }

  /** What an IDE starts for the agent: that command with the one argument `acp`, and nothing else is said. */
  predicate Starts(file: File, name: string, command: string) {
    var entry := Agent(file, name);
    && entry.Some? && entry.value.Object?
    && entry.value.fields.Keys == {"command", "args"}
    && entry.value.fields["command"] == String(command)
    && entry.value.fields["args"] == Array([String("acp")])
  }

  predicate ObjectIfThere(file: File, key: string) {
    Top(file, key).Some? ==> Top(file, key).value.Object?
  }

  predicate HoldsObject(file: File) {
    file.Parsed? && file.json.Object?
  }

  /** No file, or an object whose two sections are objects where they exist. */
  predicate WellFormed(file: File) {
    || file.Missing?
    || (HoldsObject(file) && ObjectIfThere(file, "default_mcp_settings") && ObjectIfThere(file, "agent_servers"))
  }

  /** Whatever the file holds, an operation leaves other agents and other top-level values alone. */
  lemma OthersUnchanged(op: Operation, file: File, key: string, name: string)
    ensures key != "default_mcp_settings" && key != "agent_servers" ==> Top(Apply(op, file), key) == Top(file, key)
    ensures name != op.cfg.agent ==> Agent(Apply(op, file), name) == Agent(file, name)
  {
    assert DEFAULTS[0] != SERVERS[0];
  }

  /** Registering refuses exactly the files that are not well-formed, and writes whenever it does not refuse. */
  lemma EnsureRefusesIff(cfg: Config, file: File)
    ensures Decide(Ensure(cfg), file).Replace? <==> WellFormed(file)
    ensures !WellFormed(file) ==>
              Decide(Ensure(cfg), file) == Refuse(
                if file.NotText? then Undecodable else if file.NotJson? then CannotRead
                else if !HoldsObject(file) then NotAnObject else InvalidSections)
  {
    assert DEFAULTS[0] != SERVERS[0];
  }

  /** Removing writes exactly when there is a registration to remove, and never makes a file. */
  lemma RemoveWritesIff(cfg: Config, file: File)
    ensures var decision, found := Decide(Remove(cfg), file), Agent(file, cfg.agent);
            && (decision.Replace? <==> found.Some? && !found.value.Null?)
            && (decision.Keep? <==>
                file.Missing?
                || (&& HoldsObject(file) && !LacksServers(file) && ObjectIfThere(file, "agent_servers")
                    && (found.None? || found.value.Null?)))
            && (decision.Refuse? ==>
                decision.problem ==
                if file.NotText? then Undecodable else if file.NotJson? then CannotRead
                else if !HoldsObject(file) then NotAnObject
                else if LacksServers(file) then NoServers else InvalidSections)
  {
  }

  /** Registering a well-formed file starts the agent's command; removing ends the registration but for a null. */
  lemma OwnEntry(op: Operation, file: File)
    ensures WellFormed(file) ==> WellFormed(Apply(op, file))
    ensures WellFormed(file) && op.Ensure? ==> Starts(Apply(op, file), op.cfg.agent, op.cfg.command)
    ensures op.Remove? ==>
              Agent(Apply(op, file), op.cfg.agent) ==
              if Agent(file, op.cfg.agent) == Some(Null) then Some(Null) else None
  {
    assert DEFAULTS[0] != SERVERS[0];
    assert "command"[0] != "args"[0];
  }

  /** Registering a well-formed file sets the two default flags and no other; removing changes none in any file. */
  lemma OwnFlags(op: Operation, file: File, name: string)
    ensures op.Remove? ==> Top(Apply(op, file), "default_mcp_settings") == Top(file, "default_mcp_settings")
    ensures op.Ensure? && WellFormed(file) ==>
              Flag(Apply(op, file), name) ==
              if name == "use_idea_mcp" then Some(Bool(op.cfg.ideaMcp))
              else if name == "use_custom_mcp" then Some(Bool(op.cfg.customMcp))
              else Flag(file, name)
  {
    assert DEFAULTS[0] != SERVERS[0];
    assert "use_idea_mcp"[4] != "use_custom_mcp"[4];
  }

  /** Nothing but that content makes the removal escape: it is what the operation decides, on any file. */
  lemma RemoveEscapesIff(cfg: Config, file: File)
    ensures Decide(Remove(cfg), file) == Refuse(NoServers) <==> LacksServers(file)
    ensures LacksServers(file) <==> HoldsObject(file) && Top(file, "agent_servers").None?
  {
  }

  // ----- any number of processes -----

  type Process = nat

  datatype Phase =
    | Outside
    | Waiting(op: Operation)
    | Locked(op: Operation)
    | HasRead(op: Operation, seen: File)
    | Finished(op: Operation, raised: bool)

  /** One acquisition of the lock, and whether its operation took effect. */
  datatype Turn = Turn(op: Operation, effective: bool)

  datatype State = State(file: File, owner: Option<Process>, phases: map<Process, Phase>, turns: seq<Turn>)

  datatype Action =
    | Call(p: Process, op: Operation)
    | Acquire(p: Process)
    | Read(p: Process)
    | Commit(p: Process, fault: Fault)
    | Release(p: Process)
    | Crash(p: Process)

  function PhaseOf(s: State, p: Process): Phase {
    if p in s.phases then s.phases[p] else Outside
  }

  function SetPhase(s: State, p: Process, phase: Phase): State {
    s.(phases := s.phases[p := phase])
  }

  function Freed(s: State, p: Process): State {
    s.(owner := if s.owner == Some(p) then None else s.owner)
  }

  /** The process acts on what it has read, not on what the file holds now. */
  function CommitStep(s: State, p: Process, op: Operation, seen: File, fault: Fault): State {
    var left := SetPhase(s, p, Finished(op, !fault.NoFault? || Decide(op, seen).Refuse?));
    if fault.BeforeReplacing? || s.turns == [] then left
    else
      left.(file := if Decide(op, seen).Replace? then Apply(op, seen) else s.file,
            turns := s.turns[|s.turns| - 1 := s.turns[|s.turns| - 1].(effective := true)])
  }

  function Step(s: State, a: Action): Option<State> {
    match a
    case Call(p, op) => if PhaseOf(s, p).Outside? then Some(SetPhase(s, p, Waiting(op))) else None
    case Acquire(p) =>
      if PhaseOf(s, p).Waiting? && s.owner.None?
      then Some(SetPhase(s, p, Locked(PhaseOf(s, p).op)).(owner := Some(p),
                                                            turns := s.turns + [Turn(PhaseOf(s, p).op, false)]))
      else None
    case Read(p) =>
      if PhaseOf(s, p).Locked? then Some(SetPhase(s, p, HasRead(PhaseOf(s, p).op, s.file))) else None
    case Commit(p, fault) =>
      if PhaseOf(s, p).HasRead? then Some(CommitStep(s, p, PhaseOf(s, p).op, PhaseOf(s, p).seen, fault)) else None
    case Release(p) => if PhaseOf(s, p).Finished? then Some(Freed(SetPhase(s, p, Outside), p)) else None
    case Crash(p) => Some(Freed(SetPhase(s, p, Outside), p))
  }

  function Run(s: State, actions: seq<Action>): Option<State> {
    if actions == [] then Some(s)
    else
      var before := Run(s, actions[..|actions| - 1]);
      if before.None? then None else Step(before.value, actions[|actions| - 1])
  }

  /** The effective operations, one after another. */
  function Fold(file: File, turns: seq<Turn>): File {
    if turns == [] then file
    else
      var before, last := Fold(file, turns[..|turns| - 1]), turns[|turns| - 1];
      if last.effective then Apply(last.op, before) else before
  }

  /** The holder's turn is the last one, and still without effect. */
  predicate OwnTurn(s: State, op: Operation) {
    s.turns != [] && s.turns[|s.turns| - 1] == Turn(op, false)
  }

  predicate PhaseInv(s: State, p: Process) {
    match PhaseOf(s, p)
    case Outside => s.owner != Some(p)
    case Waiting(_) => s.owner != Some(p)
    case Locked(op) => s.owner == Some(p) && OwnTurn(s, op)
    case HasRead(op, seen) => s.owner == Some(p) && OwnTurn(s, op) && seen == s.file
    case Finished(op, raised) =>
      && s.owner == Some(p)
      && (!raised ==> s.turns != [] && s.turns[|s.turns| - 1] == Turn(op, true))
  }

  ghost predicate Inv(file: File, s: State) {
    s.file == Fold(file, s.turns) && forall p: Process :: PhaseInv(s, p)
  }

  predicate Fresh(s: State) {
    s.owner.None? && s.turns == [] && forall p <- s.phases :: s.phases[p].Outside?
  }

  lemma CommitKeepsInv(file: File, s: State, p: Process, fault: Fault)
    requires Inv(file, s) && PhaseOf(s, p).HasRead?
    ensures Inv(file, Step(s, Commit(p, fault)).value)
  {
    assert PhaseInv(s, p);
    var t, n := Step(s, Commit(p, fault)).value, |s.turns| - 1;
    assert t.turns[..n] == s.turns[..n];
    forall q: Process
      ensures PhaseInv(t, q)
    {
      assert PhaseInv(s, q);
    }
  }

  lemma AcquireKeepsInv(file: File, s: State, p: Process)
    requires Inv(file, s) && Step(s, Acquire(p)).Some?
    ensures Inv(file, Step(s, Acquire(p)).value)
  {
    var t := Step(s, Acquire(p)).value;
    assert t.turns[..|s.turns|] == s.turns;
    forall q: Process
      ensures PhaseInv(t, q)
    {
      assert PhaseInv(s, q);
    }
  }

  lemma StepKeepsInv(file: File, s: State, a: Action)
    requires Inv(file, s) && Step(s, a).Some?
    ensures Inv(file, Step(s, a).value)
  {
    match a {
      case Acquire(p) => AcquireKeepsInv(file, s, p);
      case Commit(p, fault) => CommitKeepsInv(file, s, p, fault);
      case _ =>
        var t := Step(s, a).value;
        assert t.turns == s.turns && t.file == s.file;
        forall q: Process
          ensures PhaseInv(t, q)
        {
          assert PhaseInv(s, q) && PhaseInv(s, a.p);
        }
    }
  }

  lemma {:induction false} RunKeepsInv(s: State, actions: seq<Action>)
    requires Fresh(s) && Run(s, actions).Some?
    ensures Inv(s.file, Run(s, actions).value)
  {
    if actions != [] {
      var n := |actions| - 1;
      RunKeepsInv(s, actions[..n]);
      StepKeepsInv(s.file, Run(s, actions[..n]).value, actions[n]);
    }
  }

  /** In every state of every interleaving the file is the fold of the effective operations in lock order. */
  lemma FileIsFoldInLockOrder(s: State, actions: seq<Action>)
    requires Fresh(s) && Run(s, actions).Some?
    ensures Run(s, actions).value.file == Fold(s.file, Run(s, actions).value.turns)
  {
    RunKeepsInv(s, actions);
  }

  /** A call that is about to return normally has taken effect, and nobody has had the lock since. */
  lemma ReturningCallTookEffect(s: State, actions: seq<Action>, p: Process)
    requires Fresh(s) && Run(s, actions).Some?
    requires PhaseOf(Run(s, actions).value, p).Finished? && !PhaseOf(Run(s, actions).value, p).raised
    ensures var t := Run(s, actions).value;
            t.turns != [] && t.turns[|t.turns| - 1] == Turn(PhaseOf(t, p).op, true)
  {
    RunKeepsInv(s, actions);
    assert PhaseInv(Run(s, actions).value, p);
  }

  predicate Touches(turn: Turn, name: string) {
    turn.effective && turn.op.cfg.agent == name
  }

  /** An agent that no effective operation names, and every other top-level value, is as it was. */
  lemma {:induction false} FoldLeavesOthers(file: File, turns: seq<Turn>, key: string, name: string)
    ensures key != "default_mcp_settings" && key != "agent_servers" ==> Top(Fold(file, turns), key) == Top(file, key)
    ensures (forall t <- turns :: !Touches(t, name)) ==> Agent(Fold(file, turns), name) == Agent(file, name)
  {
    if turns != [] {
      var n := |turns| - 1;
      FoldLeavesOthers(file, turns[..n], key, name);
      OthersUnchanged(turns[n].op, Fold(file, turns[..n]), key, name);
      assert turns[n] in turns && forall t <- turns[..n] :: t in turns;
    }
  }

  lemma UnrelatedUnchanged(s: State, actions: seq<Action>, key: string, name: string)
    requires Fresh(s) && Run(s, actions).Some?
    requires key != "default_mcp_settings" && key != "agent_servers"
    requires forall t <- Run(s, actions).value.turns :: !Touches(t, name)
    ensures Top(Run(s, actions).value.file, key) == Top(s.file, key)
    ensures Agent(Run(s, actions).value.file, name) == Agent(s.file, name)
  {
    RunKeepsInv(s, actions);
    FoldLeavesOthers(s.file, Run(s, actions).value.turns, key, name);
  }

  lemma {:induction false} FoldKeepsWellFormed(file: File, turns: seq<Turn>)
    requires WellFormed(file)
    ensures WellFormed(Fold(file, turns))
  {
    if turns != [] {
      var n := |turns| - 1;
      FoldKeepsWellFormed(file, turns[..n]);
      OwnEntry(turns[n].op, Fold(file, turns[..n]));
    }
  }

  /** Turn `i` is the last effective one for its agent. */
  predicate LastWord(turns: seq<Turn>, i: nat) {
    && i < |turns|
    && turns[i].effective
    && forall j :: i < j < |turns| ==> !Touches(turns[j], turns[i].op.cfg.agent)
  }

  /** What the last word for an agent leaves in the file. */
  predicate Stands(op: Operation, file: File) {
    var found := Agent(file, op.cfg.agent);
    if op.Ensure? then Starts(file, op.cfg.agent, op.cfg.command) else found.None? || found.value.Null?
  }

  lemma {:induction false} FoldKeepsLastWord(file: File, turns: seq<Turn>, i: nat)
    requires WellFormed(file) && LastWord(turns, i)
    ensures Stands(turns[i].op, Fold(file, turns))
  {
    var n := |turns| - 1;
    FoldKeepsWellFormed(file, turns[..n]);
    if i == n {
      OwnEntry(turns[n].op, Fold(file, turns[..n]));
    } else {
      FoldKeepsLastWord(file, turns[..n], i);
      OthersUnchanged(turns[n].op, Fold(file, turns[..n]), "", turns[i].op.cfg.agent);
    }
  }

  /** No update is lost: what the last effective operation for an agent did is what the file says of it. */
  lemma NoLostUpdate(s: State, actions: seq<Action>, i: nat)
    requires Fresh(s) && WellFormed(s.file) && Run(s, actions).Some?
    requires LastWord(Run(s, actions).value.turns, i)
    ensures var op, file := Run(s, actions).value.turns[i].op, Run(s, actions).value.file;
            var found := Agent(file, op.cfg.agent);
            if op.Ensure? then Starts(file, op.cfg.agent, op.cfg.command) else found.None? || found.value.Null?
  {
    RunKeepsInv(s, actions);
    FoldKeepsLastWord(s.file, Run(s, actions).value.turns, i);
  }

  lemma RunMore(s: State, actions: seq<Action>, t: State, a: Action) returns (more: seq<Action>, u: State)
    requires Run(s, actions) == Some(t) && Step(t, a).Some?
    ensures Run(s, more) == Some(u) && Step(t, a) == Some(u)
  {
    more, u := actions + [a], Step(t, a).value;
    assert more[..|more| - 1] == actions;
  }

  /** While the lock is free a call can go through: it does to the file what its operation does, and frees the lock. */
  lemma CallGoesThrough(s: State, actions: seq<Action>, t: State, p: Process, op: Operation)
    returns (more: seq<Action>, u: State)
    requires Run(s, actions) == Some(t) && t.owner.None? && PhaseOf(t, p).Outside?
    ensures Run(s, more) == Some(u) && u.owner.None? && u.phases == t.phases[p := Outside]
    ensures u.file == Apply(op, t.file) && u.turns == t.turns + [Turn(op, true)]
  {
    more, u := RunMore(s, actions, t, Call(p, op));
    more, u := RunMore(s, more, u, Acquire(p));
    more, u := RunMore(s, more, u, Read(p));
    more, u := RunMore(s, more, u, Commit(p, NoFault));
    more, u := RunMore(s, more, u, Release(p));
  }

  // ----- the same processes without the lock -----

  /** `Acquire` that does not wait for the owner. */
  function UnlockedStep(s: State, a: Action): Option<State> {
    match a
    case Acquire(p) =>
      if PhaseOf(s, p).Waiting?
      then Some(SetPhase(s, p, Locked(PhaseOf(s, p).op)).(turns := s.turns + [Turn(PhaseOf(s, p).op, false)]))
      else None
    case _ => Step(s, a)
  }

  function UnlockedRun(s: State, actions: seq<Action>): Option<State> {
    if actions == [] then Some(s)
    else
      var before := UnlockedRun(s, actions[..|actions| - 1]);
      if before.None? then None else UnlockedStep(before.value, actions[|actions| - 1])
  }

  lemma UnlockedMore(s: State, actions: seq<Action>, t: State, a: Action) returns (more: seq<Action>, u: State)
    requires UnlockedRun(s, actions) == Some(t) && UnlockedStep(t, a).Some?
    ensures UnlockedRun(s, more) == Some(u) && UnlockedStep(t, a) == Some(u)
  {
    more, u := actions + [a], UnlockedStep(t, a).value;
    assert more[..|more| - 1] == actions;
  }

  /** Process `p` calls, passes the missing lock and reads. */
  lemma UnlockedRead(s: State, actions: seq<Action>, t: State, p: Process, op: Operation)
    returns (more: seq<Action>, u: State)
    requires UnlockedRun(s, actions) == Some(t) && PhaseOf(t, p).Outside?
    ensures UnlockedRun(s, more) == Some(u) && u.file == t.file && u.turns != []
    ensures u.phases == t.phases[p := HasRead(op, t.file)]
  {
    more, u := UnlockedMore(s, actions, t, Call(p, op));
    more, u := UnlockedMore(s, more, u, Acquire(p));
    more, u := UnlockedMore(s, more, u, Read(p));
  }

  /** A write of what was read before the other registration drops that one. */
  lemma StaleWriteDrops(file: File, a: Config, b: Config)
    requires WellFormed(file) && a.agent != b.agent && Agent(file, a.agent).None?
    ensures Decide(Ensure(a), file).Replace? && Decide(Ensure(b), file).Replace?
    ensures Agent(Apply(Ensure(b), file), a.agent).None? && Starts(Apply(Ensure(b), file), b.agent, b.command)
  {
    EnsureRefusesIff(a, file);
    EnsureRefusesIff(b, file);
    OwnEntry(Ensure(b), file);
    OthersUnchanged(Ensure(b), file, "", a.agent);
  }

  /** Process `p` writes what it decided on the file it has read. */
  lemma UnlockedCommit(s: State, actions: seq<Action>, t: State, p: Process, op: Operation, seen: File)
    returns (more: seq<Action>, u: State)
    requires UnlockedRun(s, actions) == Some(t) && PhaseOf(t, p) == HasRead(op, seen) && t.turns != []
    requires Decide(op, seen).Replace?
    ensures UnlockedRun(s, more) == Some(u) && u.file == Apply(op, seen) && u.turns != []
    ensures u.phases == t.phases[p := Finished(op, false)]
  {
    more, u := UnlockedMore(s, actions, t, Commit(p, NoFault));
  }

  /** Without the lock two registrations that both return normally can leave the file without one of them. */
  lemma StaleWriteLosesUpdate(s: State, a: Config, b: Config) returns (actions: seq<Action>, t: State)
    requires Fresh(s) && WellFormed(s.file) && a.agent != b.agent && Agent(s.file, a.agent).None?
    ensures UnlockedRun(s, actions) == Some(t)
    ensures PhaseOf(t, 0) == Finished(Ensure(a), false) && PhaseOf(t, 1) == Finished(Ensure(b), false)
    ensures Agent(t.file, a.agent).None? && Starts(t.file, b.agent, b.command)
  {
    StaleWriteDrops(s.file, a, b);
    actions, t := UnlockedRead(s, [], s, 0, Ensure(a));
    actions, t := UnlockedRead(s, actions, t, 1, Ensure(b));
    actions, t := UnlockedCommit(s, actions, t, 0, Ensure(a), s.file);
    actions, t := UnlockedCommit(s, actions, t, 1, Ensure(b), s.file);
  }
}
