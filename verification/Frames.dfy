/** Which steps leave the provider and the creations in the log alone. */
module Frames {
  import opened Lifecycle

  /** The requests that make, stop or start a pod. */
  predicate RequestsChange(pc: Pc) {
    pc.UpCreate? || pc.RepCreate? || pc.UpStart? || pc.RepStop? || pc.DownStop?
  }

  /** `w` with other files and at most one more event, which is no creation. */
  ghost predicate Quiet(w: World, after: World) {
    after.pods == w.pods
    && (after.log == w.log || exists e :: after.log == Extend(w.log, e) && !e.Created?)
  }

  lemma SelectQuiet(w: World, cmd: Command, pc: Pc, c: Choice)
    requires InSelect(pc) && !RequestsChange(pc)
    ensures var n := SelectStep(w, cmd, pc, c); n.Then? ==> Quiet(w, n.w)
  {
  }

  lemma AdoptQuiet(w: World, cmd: Command, pc: Pc, c: Choice)
    requires InAdopt(pc) && !RequestsChange(pc)
    ensures var n := AdoptStep(w, cmd, pc, c); n.Then? ==> Quiet(w, n.w)
  {
  }

  lemma ForgetQuiet(w: World, cmd: Command, pc: Pc, c: Choice)
    requires InForget(pc) && !RequestsChange(pc)
    ensures var n := ForgetStep(w, cmd, pc, c); n.Then? ==> Quiet(w, n.w)
  {
  }

  lemma CreateQuiet(w: World, cmd: Command, pc: Pc, c: Choice)
    requires InCreate(pc) && !RequestsChange(pc)
    ensures var n := CreateStep(w, cmd, pc, c); n.Then? ==> Quiet(w, n.w)
  {
  }

  lemma ReuseQuiet(w: World, cmd: Command, pc: Pc, c: Choice)
    requires InReuse(pc) && !RequestsChange(pc)
    ensures var n := ReuseStep(w, cmd, pc, c); n.Then? ==> Quiet(w, n.w)
  {
  }

  lemma ReplaceQuiet(w: World, cmd: Command, pc: Pc, c: Choice)
    requires InReplace(pc) && !RequestsChange(pc)
    ensures var n := ReplaceStep(w, cmd, pc, c); n.Then? ==> Quiet(w, n.w)
  {
  }

  lemma PrepareQuiet(w: World, cmd: Command, pc: Pc, c: Choice)
    requires InPrepare(pc) && !RequestsChange(pc)
    ensures var n := PrepareStep(w, cmd, pc, c); n.Then? ==> Quiet(w, n.w)
  {
  }

  lemma ConnectQuiet(w: World, cmd: Command, pc: Pc, c: Choice)
    requires InConnect(pc) && !RequestsChange(pc)
    ensures var n := ConnectStep(w, cmd, pc, c); n.Then? ==> Quiet(w, n.w)
  {
  }

  lemma FinishQuiet(w: World, cmd: Command, pc: Pc, c: Choice)
    requires InFinish(pc) && !RequestsChange(pc)
    ensures var n := FinishStep(w, cmd, pc, c); n.Then? ==> Quiet(w, n.w)
  {
  }

  lemma OthersQuiet(w: World, cmd: Command, pc: Pc, c: Choice)
    requires !RequestsChange(pc)
    ensures var n := BodyStep(w, cmd, pc, c); n.Then? ==> Quiet(w, n.w)
  {
    if InSelect(pc) {
      SelectQuiet(w, cmd, pc, c);
      assert BodyStep(w, cmd, pc, c) == SelectStep(w, cmd, pc, c);
    } else if InAdopt(pc) {
      AdoptQuiet(w, cmd, pc, c);
      assert BodyStep(w, cmd, pc, c) == AdoptStep(w, cmd, pc, c);
    } else if InForget(pc) {
      ForgetQuiet(w, cmd, pc, c);
      assert BodyStep(w, cmd, pc, c) == ForgetStep(w, cmd, pc, c);
    } else if InCreate(pc) {
      CreateQuiet(w, cmd, pc, c);
      assert BodyStep(w, cmd, pc, c) == CreateStep(w, cmd, pc, c);
    } else if InReuse(pc) {
      ReuseQuiet(w, cmd, pc, c);
      assert BodyStep(w, cmd, pc, c) == ReuseStep(w, cmd, pc, c);
    } else if InReplace(pc) {
      ReplaceQuiet(w, cmd, pc, c);
      assert BodyStep(w, cmd, pc, c) == ReplaceStep(w, cmd, pc, c);
    } else if InPrepare(pc) {
      PrepareQuiet(w, cmd, pc, c);
      assert BodyStep(w, cmd, pc, c) == PrepareStep(w, cmd, pc, c);
    } else if InConnect(pc) {
      ConnectQuiet(w, cmd, pc, c);
      assert BodyStep(w, cmd, pc, c) == ConnectStep(w, cmd, pc, c);
    } else if InFinish(pc) {
      FinishQuiet(w, cmd, pc, c);
      assert BodyStep(w, cmd, pc, c) == FinishStep(w, cmd, pc, c);
    }
  }
}
