/**
 `lifecycle_lock`: an exclusive file lock taken with a bounded wait, in exact arithmetic.

 The clock and the other holders of the lock belong to the environment: time passes at every call, a
 sleep takes at least as long as asked, and each attempt is answered as the environment likes.
 */
module LifecycleLock {
  import opened Wrappers
  import opened Text

  const RETRY_SECONDS: real := 0.1

  const KNOWN_OPERATIONS: set<string> := {"install", "shutdown", "startup", "uninstall"}

  datatype Attempt = Locked | Busy | LockError

  datatype Entry =
    | Entered
    | UnknownOperation
    | NegativeTimeout
    | OpenFailed
    | TimedOut(competing: string)
    | Failed

  /** Which system calls the environment grants: opening, writing and reading the lock file, and unlocking it. */
  datatype Surroundings = Surroundings(opens: bool, writes: bool, readable: bool, unlocks: bool)

  /** The least integer that is not below `x`. */
  function Ceiling(x: real): int {
    -((-x).Floor)
  }

  lemma CeilingBounds(x: real)
    ensures Ceiling(x) as real - 1.0 < x <= Ceiling(x) as real
  {
  }

  function Min(x: real, y: real): real {
    if x < y then x else y
  }

  function Max(x: real, y: real): real {
    if x < y then y else x
  }

  function Total(naps: seq<real>): real {
    if naps == [] then 0.0 else Total(naps[..|naps| - 1]) + naps[|naps| - 1]
  }

  predicate IsOperation(name: string) {
    name == "install" || name == "shutdown" || name == "startup" || name == "uninstall"
  }

  /** What the timeout message calls the holder. */
  function Competing(contents: string): string {
    var holder := Strip(contents);
    if holder in KNOWN_OPERATIONS then holder else "another lifecycle operation"
  }

  /** The lock file holds that name, in white space. */
  predicate HoldsName(contents: string, name: string, pre: string, post: string) {
    contents == pre + name + post && Blank(pre) && Blank(post) && IsOperation(name)
  }

  /** The message names an operation exactly if the lock file does. */
  lemma HolderIsNamedIff(contents: string, name: string)
    requires IsOperation(name)
    ensures Competing(contents) == name <==> exists pre, post :: HoldsName(contents, name, pre, post)
    ensures Competing(contents) == "another lifecycle operation" <==>
            forall other, pre, post :: !HoldsName(contents, other, pre, post)
  {
    forall other, pre, post | HoldsName(contents, other, pre, post)
      ensures Competing(contents) == other
    {
      assert Tight(other);
      StripTakesOuterSpace(pre, other, post);
    }
    assert forall other: string :: IsOperation(other) ==> other[1] != "another lifecycle operation"[1] ||
                                                          |other| != |"another lifecycle operation"|;
    if IsOperation(Competing(contents)) {
      var pre, post := StripSplits(contents);
      assert HoldsName(contents, Competing(contents), pre, post);
    }
  }

  /** How the body under the lock ends; `Exits` is a `BaseException` that is no `Exception`. */
  datatype BodyEnd = Returns | Raises(message: string) | Exits

  /** `on_error`: `down` passes none, and one may raise itself. */
  datatype Handler = Absent | Listens | Breaks

  /** How the whole `with` statement ends. */
  datatype Ending = Completed | Propagates(message: string) | Exited | HandlerFailed | UnlockFailed

  /** What the caller sees of the body's end: a normal return of a normal return alone, and else its exception. */
  predicate Conveys(end: BodyEnd, handler: Handler, unlocks: bool, ending: Ending) {
    && (ending.UnlockFailed? <==> !unlocks)
    && (unlocks ==>
          && (ending.Completed? <==> end.Returns?)
          && (ending.Exited? <==> end.Exits?)
          && (ending.HandlerFailed? <==> end.Raises? && handler.Breaks?)
          && (end.Raises? && !handler.Breaks? ==> ending == Propagates(end.message)))
  }

  class Lock {
    const env: Surroundings
    var now: real
    /** Whether the lock file is open in this process. */
    var isOpen: bool
    /** Whether this process holds the lock, and what the lock file says. */
    var held: bool
    var contents: string
    /** What `on_error` was told. */
    var reported: seq<string>
    /** How the attempts were answered, and the sleeps that were asked for. */
    ghost var answers: seq<Attempt>
    ghost var naps: seq<real>

    constructor (env: Surroundings, contents: string)
      ensures this.env == env && !held && !isOpen && this.contents == contents
      ensures answers == [] && naps == [] && reported == []
    {
      this.env := env;
      now, isOpen, held, this.contents, reported := 0.0, false, false, contents, [];
      answers, naps := [], [];
    }

    /** Not in the lock, and nothing tried yet. */
    ghost predicate Untouched()
      reads this
    {
      !held && !isOpen && answers == [] && naps == []
    }

    /** The answer fits the arguments and the environment, and the last attempt if there was one. */
    ghost predicate Answered(operation: string, timeout: real, r: Entry)
      reads this
    {
      && (r.UnknownOperation? <==> !IsOperation(operation))
      && (r.NegativeTimeout? <==> IsOperation(operation) && timeout < 0.0)
      && (r.OpenFailed? <==> IsOperation(operation) && timeout >= 0.0 && !env.opens)
      && (r.UnknownOperation? || r.NegativeTimeout? || r.OpenFailed? <==> answers == [])
      && (answers != [] ==>
            var last := answers[|answers| - 1];
            && (r.Entered? <==> last.Locked? && env.writes)
            && (r.TimedOut? <==> last.Busy? && env.readable))
    }

    method Monotonic() returns (t: real)
      modifies `now
      ensures t == now >= old(now)
    {
      var passed: real := *;
      if passed > 0.0 {
        now := now + passed;
      }
      return now;
    }

    method Sleep(seconds: real)
      requires seconds >= 0.0
      modifies `now, `naps
      ensures now >= old(now) + seconds && naps == old(naps) + [seconds]
    {
      var longer: real := *;
      now := now + seconds + Max(longer, 0.0);
      naps := naps + [seconds];
    }

    /** The sleep between two attempts: a tenth of a second, or what is left until `end`. */
    method Pause(end: real)
      modifies `now, `naps
      ensures |naps| == |old(naps)| + 1 && naps[..|old(naps)|] == old(naps)
      ensures var nap := naps[|old(naps)|];
              && 0.0 <= nap <= 0.1 && nap <= Max(0.0, end - old(now)) && (nap < 0.1 ==> now >= end)
              && now >= old(now) + nap && Total(naps) == Total(old(naps)) + nap
    {
      var again := Monotonic();
      Sleep(Min(RETRY_SECONDS, Max(0.0, end - again)));
    }

    /** A nonblocking `flock`. */
    method Flock() returns (a: Attempt)
      requires !held
      modifies `now, `held, `answers
      ensures now >= old(now) && answers == old(answers) + [a] && held == a.Locked?
    {
      var passed: real, answer: Attempt := *, *;
      now := now + Max(passed, 0.0);
      answers := answers + [answer];
      held := answer.Locked?;
      return answer;
    }

    /** The lock file as others have written it meanwhile. */
    method ReadHolder() returns (text: Option<string>)
      modifies `contents
      ensures text == if env.readable then Some(contents) else None
    {
      contents := *;
      return if env.readable then Some(contents) else None;
    }

    /** Unlocking may fail; closing the file drops the lock all the same.  `clean` says that nothing raised. */
    method Release() returns (clean: bool)
      requires isOpen
      modifies `held, `isOpen
      ensures !held && !isOpen
      ensures clean <==> old(held) ==> env.unlocks
    {
      clean := true;
      if held {
        clean := env.unlocks;
        held := !clean;
      }
      isOpen := false;
      held := false;
    }

    /**
     Entering the lock.  The last answer decides: the lock is tried again after a sleep as long as it is busy
     and the deadline, `timeout` after the call, has not passed; a lock that is still busy then is a timeout;
     any other error of `flock` fails at once.  The sleeps are of a tenth of a second, the last one perhaps
     shorter; they add up to at most `timeout`, and there are at most ten attempts a second and one more.
     */
    method Enter(operation: string, timeout: real) returns (r: Entry, ghost deadline: real)
      requires Untouched()
      modifies `now, `held, `isOpen, `contents, `answers, `naps
      ensures Answered(operation, timeout, r)
      ensures answers != [] && answers[|answers| - 1].Busy? ==> now >= deadline
      ensures answers != [] ==> deadline >= old(now) + timeout
      ensures forall i :: 0 <= i < |answers| - 1 ==> answers[i].Busy?
      ensures answers != [] ==> |naps| == |answers| - 1 <= Ceiling(10.0 * timeout)
      ensures forall i :: 0 <= i < |naps| ==> 0.0 <= naps[i] <= 0.1
      ensures forall i :: 0 <= i < |naps| - 1 ==> naps[i] == 0.1
      ensures timeout >= 0.0 ==> Total(naps) <= timeout
      ensures held == isOpen == r.Entered?
      ensures r.Entered? ==> contents == operation + "\n"
      ensures r.TimedOut? ==> r.competing == Competing(contents)
    {
      deadline := 0.0;
      if operation !in KNOWN_OPERATIONS {
        return UnknownOperation, deadline;
      }
      if timeout < 0.0 {
        return NegativeTimeout, deadline;
      }
      if !env.opens {
        return OpenFailed, deadline;
      }
      isOpen := true;
      var began := Monotonic();
      var end := began + timeout;
      deadline := end;
      CeilingBounds(10.0 * timeout);
      while true
        invariant !held && isOpen && now >= began && |answers| as real < 10.0 * timeout + 1.0
        invariant |naps| == |answers| && Total(naps) <= timeout && Total(naps) <= now - began
        invariant forall i :: 0 <= i < |answers| ==> answers[i].Busy?
        invariant now < end ==> |naps| as real * 0.1 <= now - began
        invariant forall i :: 0 <= i < |naps| ==> 0.0 <= naps[i] <= 0.1
        invariant forall i :: 0 <= i < |naps| && (now < end || i < |naps| - 1) ==> naps[i] == 0.1
        decreases Ceiling(10.0 * timeout) + 1 - |answers|
      {
        var a := Flock();
        match a
        case Locked => break;
        case LockError => {
          var _ := Release();
          return Failed, deadline;
        }
        case Busy =>
        var t := Monotonic();
        if t >= end {
          var holder := ReadHolder();
          var _ := Release();
          return if holder.Some? then TimedOut(Competing(holder.value)) else Failed, deadline;
        }
        Pause(end);
      }
      if !env.writes {
        var _ := Release();
        return Failed, deadline;
      }
      contents := operation + "\n";
      return Entered, deadline;
    }

    /**
     Leaving.  However the body ended, whether or not there is a handler, and even if the handler raises or
     unlocking fails: the lock is free and the file closed.  The handler hears exactly once of an
     `Exception`, and of nothing else; a failure of the body never becomes a normal return.
     */
    method Leave(end: BodyEnd, handler: Handler) returns (ending: Ending)
      requires held && isOpen
      modifies `held, `isOpen, `reported
      ensures !held && !isOpen
      ensures reported == old(reported) + if end.Raises? && !handler.Absent? then [end.message] else []
      ensures Conveys(end, handler, env.unlocks, ending)
    {
      match end {
        case Returns => ending := Completed;
        case Exits => ending := Exited;
        case Raises(message) =>
          ending := Propagates(message);
          if !handler.Absent? {
            reported := reported + [message];
            if handler.Breaks? {
              ending := HandlerFailed;
            }
          }
      }
      var clean := Release();
      if !clean {
        ending := UnlockFailed;
      }
    }

    /**
     The `with` statement.  The body runs exactly if the lock was entered, inside it, and on every path from
     the call to its end the lock is free again; a refused or timed-out entry is not reported to the handler.
     */
    method WithLock(operation: string, timeout: real, end: BodyEnd, handler: Handler)
      returns (entry: Entry, ending: Option<Ending>)
      requires Untouched()
      modifies this
      ensures !held && !isOpen
      ensures Answered(operation, timeout, entry)
      ensures ending.Some? <==> entry.Entered?
      ensures ending.Some? ==> Conveys(end, handler, env.unlocks, ending.value)
      ensures reported == old(reported) +
                          if entry.Entered? && end.Raises? && !handler.Absent? then [end.message] else []
    {
      ending := None;
      ghost var deadline: real;
      entry, deadline := Enter(operation, timeout);
      if entry.Entered? {
        var left := Leave(end, handler);
        ending := Some(left);
      }
    }
  }
}
