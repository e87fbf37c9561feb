/**
 * Bookkeeping around a spawned operating-system process: the write-once exit
 * status, and the killable process wrapper's command line, environment list
 * and start/kill guards. The worker thread and the operating system are not
 * modelled; the worker's completion is an explicit `Finish` step.
 */
module Process {
  import opened Common

  /** Java's `int`. */
  type Int32 = x: int | -0x8000_0000 <= x < 0x8000_0000

  /** `Integer.MIN_VALUE`, the return value of a status that was never set. */
  const INVALID_RETURN_VALUE: Int32 := -0x8000_0000

  /** An exit code a finished process can report; `waitFor` never yields the sentinel. */
  type ExitCode = x: Int32 | x != INVALID_RETURN_VALUE witness 0

  /** An exception raised while launching or wiring the process. */
  datatype ProcessException = ProcessException(className: string, message: Option<string>)

  /** The returning status of a spawned process: each part is kept from the first time it is set. */
  class ProcessStatus {
    var returnValue: Int32
    var exception: Option<ProcessException>

    constructor ()
      ensures returnValue == INVALID_RETURN_VALUE && exception == None
      ensures NeverRan()
    {
      returnValue := INVALID_RETURN_VALUE;
      exception := None;
    }

    /** No exit code and no exception was ever recorded. */
    predicate NeverRan()
      reads this
    {
      exception.None? && returnValue == INVALID_RETURN_VALUE
    }

    /** Records the exit code unless one was already recorded. */
    method SetReturnValue(v: Int32)
      modifies this
      ensures returnValue == if old(returnValue) == INVALID_RETURN_VALUE then v else old(returnValue)
      ensures exception == old(exception)
    {
      if returnValue == INVALID_RETURN_VALUE {
        returnValue := v;
      }
    }

    /** Records the exception unless one was already recorded. */
    method SetException(e: ProcessException)
      modifies this
      ensures exception == if old(exception).None? then Some(e) else old(exception)
      ensures returnValue == old(returnValue)
    {
      if exception.None? {
        exception := Some(e);
      }
    }
  }

  /** Two exit codes set in turn: the first one sticks. */
  method FirstReturnValueSticks(first: ExitCode, second: Int32) returns (kept: Int32)
    ensures kept == first
  {
    var status := new ProcessStatus();
    status.SetReturnValue(first);
    status.SetReturnValue(second);
    kept := status.returnValue;
  }

  /** Two exceptions set in turn: the first one sticks, and the exit code stays the sentinel. */
  method FirstExceptionSticks(first: ProcessException, second: ProcessException) returns (kept: Option<ProcessException>, code: Int32)
    ensures kept == Some(first) && code == INVALID_RETURN_VALUE
  {
    var status := new ProcessStatus();
    status.SetException(first);
    status.SetException(second);
    kept, code := status.exception, status.returnValue;
  }

  /** How the worker thread ends. */
  datatype WorkerOutcome =
    | Exited(code: ExitCode)
    | LaunchFailed(launchError: ProcessException)
    | WiringFailed(wiringError: ProcessException)

  /** The command line with an optional component appended when it is present and non-empty. */
  function WithComponent(cmdLine: seq<string>, comp: Option<string>): (r: seq<string>)
    ensures comp.Some? && |comp.value| > 0 ==> r == cmdLine + [comp.value]
    ensures comp.None? || comp.value == "" ==> r == cmdLine
  {
    if comp.Some? && |comp.value| > 0 then cmdLine + [comp.value] else cmdLine
  }

  /** The environment the worker hands to the process: the inherited one with each pair applied in order. */
  function ApplyPairs(inherited: map<string, string>, pairs: seq<(string, string)>): map<string, string>
  {
    if pairs == [] then inherited
    else ApplyPairs(inherited, pairs[..|pairs| - 1])[pairs[|pairs| - 1].0 := pairs[|pairs| - 1].1]
  }

  /** Whether some pair names `name`. */
  predicate Names(pairs: seq<(string, string)>, name: string)
  {
    exists k | 0 <= k < |pairs| :: pairs[k].0 == name
  }

  /** A name no pair sets keeps its inherited value, or stays absent. */
  lemma {:induction false} UnnamedInherited(inherited: map<string, string>, pairs: seq<(string, string)>, name: string)
    requires !Names(pairs, name)
    ensures name in ApplyPairs(inherited, pairs) <==> name in inherited
    ensures name in inherited ==> ApplyPairs(inherited, pairs)[name] == inherited[name]
  {
    if pairs != [] {
      var init := pairs[..|pairs| - 1];
      assert !Names(init, name) by {
        forall k | 0 <= k < |init| ensures init[k].0 != name {
          assert init[k] == pairs[k];
        }
      }
      UnnamedInherited(inherited, init, name);
    }
  }

  /** A name that pairs set takes the value of the last pair naming it. */
  lemma {:induction false} LastPairWins(inherited: map<string, string>, pairs: seq<(string, string)>, name: string, k: nat)
    requires k < |pairs| && pairs[k].0 == name
    requires forall k' | k < k' < |pairs| :: pairs[k'].0 != name
    ensures name in ApplyPairs(inherited, pairs) && ApplyPairs(inherited, pairs)[name] == pairs[k].1
    decreases |pairs|
  {
    if k < |pairs| - 1 {
      var init := pairs[..|pairs| - 1];
      assert pairs[|pairs| - 1].0 != name;
      assert init[k] == pairs[k];
      assert forall k' | k < k' < |init| :: init[k'] == pairs[k'];
      LastPairWins(inherited, init, name, k);
    }
  }

  /**
   * A process wrapper that can be started, killed and asked whether it is
   * running. `running` stands for the finish semaphore having no permit;
   * `destroyRequests` counts the terminations `kill` has issued in the
   * current run.
   */
  class KillableProcess {
    const status: ProcessStatus
    var cmdLine: seq<string>
    var envVars: seq<(string, string)>
    var killRequested: bool
    var running: bool
    var destroyRequests: nat

    /** At most one termination per run, issued exactly when a kill was requested. */
    ghost predicate Valid()
      reads this
    {
      destroyRequests <= 1 && (destroyRequests == 1 <==> killRequested)
    }

    /** A process for `execCmd`, added to the command line the way a single component is. */
    constructor (execCmd: Option<string>)
      ensures Valid() && fresh(status) && status.NeverRan()
      ensures cmdLine == WithComponent([], execCmd) && envVars == []
      ensures !running && !killRequested
    {
      status := new ProcessStatus();
      cmdLine := [];
      envVars := [];
      killRequested := false;
      running := false;
      destroyRequests := 0;
      new;
      AddCommandLine(execCmd);
    }

    /** Appends one component, only when it is present and non-empty. */
    method AddCommandLine(comp: Option<string>)
      modifies this
      ensures cmdLine == WithComponent(old(cmdLine), comp)
      ensures envVars == old(envVars) && running == old(running) && killRequested == old(killRequested)
      ensures destroyRequests == old(destroyRequests)
    {
      if comp.Some? && |comp.value| > 0 {
        cmdLine := cmdLine + [comp.value];
      }
    }

    /** Appends every component of the list in order, without filtering. */
    method AddCommandLineList(comps: seq<string>)
      modifies this
      ensures cmdLine == old(cmdLine) + comps
      ensures envVars == old(envVars) && running == old(running) && killRequested == old(killRequested)
      ensures destroyRequests == old(destroyRequests)
    {
      var i := 0;
      while i < |comps|
        invariant 0 <= i <= |comps|
        invariant cmdLine == old(cmdLine) + comps[..i]
        invariant envVars == old(envVars) && running == old(running) && killRequested == old(killRequested)
        invariant destroyRequests == old(destroyRequests)
      {
        cmdLine := cmdLine + [comps[i]];
        i := i + 1;
        assert comps[..i] == comps[..i - 1] + [comps[i - 1]];
      }
      assert comps[..|comps|] == comps;
    }

    method AddEnvironmentVariable(name: string, value: string)
      modifies this
      ensures envVars == old(envVars) + [(name, value)]
      ensures cmdLine == old(cmdLine) && running == old(running) && killRequested == old(killRequested)
      ensures destroyRequests == old(destroyRequests)
    {
      envVars := envVars + [(name, value)];
    }

    /** The environment the worker builds over the inherited one. */
    method BuildEnvironment(inherited: map<string, string>) returns (procEnv: map<string, string>)
      ensures procEnv == ApplyPairs(inherited, envVars)
    {
      procEnv := inherited;
      var i := 0;
      while i < |envVars|
        invariant 0 <= i <= |envVars|
        invariant procEnv == ApplyPairs(inherited, envVars[..i])
      {
        assert envVars[..i + 1][..i] == envVars[..i];
        procEnv := procEnv[envVars[i].0 := envVars[i].1];
        i := i + 1;
      }
      assert envVars[..|envVars|] == envVars;
    }

    /** Starts a run unless one is in progress: the process becomes running and no kill is requested. */
    method Start()
      requires Valid()
      modifies this
      ensures Valid()
      ensures old(running) ==> running && killRequested == old(killRequested) && destroyRequests == old(destroyRequests)
      ensures !old(running) ==> running && !killRequested && destroyRequests == 0
      ensures cmdLine == old(cmdLine) && envVars == old(envVars)
    {
      if !running {
        running := true;
        killRequested := false;
        destroyRequests := 0;
      }
    }

    /** Terminates the process, only while it runs and only once per run. */
    method Kill()
      requires Valid()
      modifies this
      ensures Valid()
      ensures !old(killRequested) && old(running) ==> killRequested && destroyRequests == old(destroyRequests) + 1
      ensures old(killRequested) || !old(running) ==> killRequested == old(killRequested) && destroyRequests == old(destroyRequests)
      ensures running == old(running) && cmdLine == old(cmdLine) && envVars == old(envVars)
    {
      if !killRequested && running {
        destroyRequests := destroyRequests + 1;
        killRequested := true;
      }
    }

    function IsRunning(): bool
      reads this
    {
      running
    }

    /**
     * The worker thread ends: the exit code or the exception is recorded in
     * the status, and the process is no longer running on any path.
     */
    method Finish(outcome: WorkerOutcome)
      requires Valid() && running
      modifies this, status
      ensures Valid() && !running
      ensures killRequested == old(killRequested) && destroyRequests == old(destroyRequests)
      ensures cmdLine == old(cmdLine) && envVars == old(envVars)
      ensures outcome.Exited? ==>
        (status.returnValue == (if old(status.returnValue) == INVALID_RETURN_VALUE then outcome.code else old(status.returnValue))
         && status.exception == old(status.exception))
      ensures !outcome.Exited? ==>
        (var e := if outcome.LaunchFailed? then outcome.launchError else outcome.wiringError;
         status.returnValue == old(status.returnValue)
         && status.exception == (if old(status.exception).None? then Some(e) else old(status.exception)))
      ensures !status.NeverRan()
    {
      match outcome {
        case Exited(code) => status.SetReturnValue(code);
        case LaunchFailed(e) => status.SetException(e);
        case WiringFailed(e) => status.SetException(e);
      }
      running := false;
    }

    /** The components separated by single spaces. */
    method GetCommandLine() returns (s: string)
      ensures s == Join(cmdLine, " ")
    {
      s := "";
      var n := |cmdLine|;
      var idx := 0;
      while idx < n
        invariant 0 <= idx <= n
        invariant idx == 0 ==> s == ""
        invariant 0 < idx < n ==> s == Join(cmdLine[..idx], " ") + " "
        invariant idx == n > 0 ==> s == Join(cmdLine, " ")
      {
        if idx > 0 {
          JoinSnoc(cmdLine[..idx], cmdLine[idx], " ");
          assert cmdLine[..idx + 1] == cmdLine[..idx] + [cmdLine[idx]];
        } else {
          assert cmdLine[..1] == [cmdLine[0]];
        }
        s := s + cmdLine[idx];
        if idx < n - 1 {
          s := s + " ";
        }
        idx := idx + 1;
        assert idx == n ==> cmdLine[..idx] == cmdLine;
      }
    }
  }

  /**
   * A command line whose components are non-empty and hold no space splits
   * back into those components: the joined string loses nothing.
   */
  lemma {:induction false} CommandLineSplitsBack(comps: seq<string>)
    requires |comps| >= 1
    requires forall i | 0 <= i < |comps| :: ' ' !in comps[i]
    ensures SplitAt(Join(comps, " "), ' ') == comps
  {
    if |comps| == 1 {
      NoSeparator(comps[0], ' ');
    } else {
      CommandLineSplitsBack(comps[1..]);
      SplitConcat(comps[0], Join(comps[1..], " "), ' ');
    }
  }
}
