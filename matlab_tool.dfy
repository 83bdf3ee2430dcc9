/**
 * agent_tool.py: `MATLABTool`, a process-wide singleton that starts the MATLAB
 * engine at most once and forwards scripts to it. The engine is a foreign
 * process: starting it is modelled by its outcome, and running a script by a
 * function from the engine handle and the script to what `eval` did.
 */
module MatlabEngine {
  import opened Wrappers
  import opened Text

  /** The handle `matlab.engine.start_matlab()` returns. */
  datatype EngineHandle = EngineHandle(session: nat)

  /** What `start_matlab()` did: returned a handle or raised. */
  datatype StartOutcome = Started(handle: EngineHandle) | StartFailed(error: string)

  /** What `engine.eval(code, stdout=out, stderr=err)` did: finished with the captured streams, or raised. */
  datatype EvalOutcome = Completed(stdout: string, stderr: string) | EvalRaised(error: string)

  const NotRunning: string := "Error: MATLAB Engine is not running."
  const DoneMarker: string := "[Done]"

  /** The engine a start leaves in `_engine`: the handle, or `None` after a failure. */
  function EngineAfter(start: StartOutcome): (e: Option<EngineHandle>)
    ensures e.Some? <==> start.Started?
    ensures start.Started? ==> e == Some(start.handle)
  {
    match start
    case Started(h) => Some(h)
    case StartFailed(_) => None
  }

  /**
   * `out.getvalue().strip() or err.getvalue().strip() or "[Done]"`: one of the
   * trimmed streams or the done marker, and never empty.
   */
  function SelectOutput(stdout: string, stderr: string): (r: string)
    ensures r != ""
    ensures r == Strip(stdout) || r == Strip(stderr) || r == DoneMarker
  {
    if Strip(stdout) != "" then Strip(stdout)
    else if Strip(stderr) != "" then Strip(stderr)
    else DoneMarker
  }

  /** The text `run` returns for what `eval` did: never empty, and an exception is reported by its text. */
  function EvalText(outcome: EvalOutcome): (r: string)
    ensures r != ""
    ensures outcome.Completed? ==> r == SelectOutput(outcome.stdout, outcome.stderr)
    ensures outcome.EvalRaised? ==> "Execution Error: " <= r && r[|"Execution Error: "|..] == outcome.error
  {
    match outcome
    case Completed(out, err) => SelectOutput(out, err)
    case EvalRaised(e) => "Execution Error: " + e
  }

  /**
   * The selection after a finished `eval` is never padded: trimmed stdout
   * when it has text, else trimmed stderr when it has text, else the done
   * marker.
   */
  lemma SelectOutputProperties(stdout: string, stderr: string)
    ensures Strip(SelectOutput(stdout, stderr)) == SelectOutput(stdout, stderr)
    ensures Strip(stdout) != "" ==> SelectOutput(stdout, stderr) == Strip(stdout)
    ensures Strip(stdout) == "" && Strip(stderr) != "" ==> SelectOutput(stdout, stderr) == Strip(stderr)
    ensures Strip(stdout) == "" && Strip(stderr) == "" ==> SelectOutput(stdout, stderr) == DoneMarker
  {
    if Strip(stdout) != "" {
      StripIdempotent(stdout);
    } else if Strip(stderr) != "" {
      StripIdempotent(stderr);
    } else {
      StripTrimmed(DoneMarker);
    }
  }

  /**
   * The Python class object `MATLABTool`: its class attributes `_instance`
   * and `_engine`, shared by every construction. `startAttempts` counts the
   * calls to `start_matlab()`.
   */
  class MatlabToolClass {
    var instance: MatlabTool?
    var engine: Option<EngineHandle>
    ghost var startAttempts: nat

    /** At most one instance and at most one start attempt, made together. */
    ghost predicate Valid()
      reads this, instance
    {
      && (instance == null ==> startAttempts == 0 && engine.None?)
      && (instance != null ==> startAttempts == 1 && instance.cls == this)
    }

    /** The class body: `_instance = None`, `_engine = None`. */
    constructor ()
      ensures Valid()
      ensures instance == null && engine.None? && startAttempts == 0
    {
      instance := null;
      engine := None;
      startAttempts := 0;
    }

    /**
     * `MATLABTool()`, that is `__new__`: the first call creates the instance
     * and tries to start the engine once, keeping `None` if that fails; every
     * later call returns the same instance and leaves the engine alone, even
     * when the first start failed. `start` is what `start_matlab()` would do
     * if it were called now.
     */
    method New(start: StartOutcome) returns (t: MatlabTool)
      requires Valid()
      modifies this
      ensures Valid()
      ensures instance == t && t.cls == this
      ensures old(instance) == null ==>
        fresh(t) && engine == EngineAfter(start) && startAttempts == 1
      ensures old(instance) != null ==>
        t == old(instance) && engine == old(engine) && startAttempts == old(startAttempts)
    {
      if instance == null {
        var created := new MatlabTool(this);
        instance := created;
        startAttempts := startAttempts + 1;
        match start
        case Started(h) =>
          engine := Some(h);
        case StartFailed(_) =>
          engine := None;
      }
      t := instance;
    }
  }

  /** An instance of `MATLABTool`; its `_engine` is the class attribute. */
  class MatlabTool {
    const cls: MatlabToolClass

    constructor (cls: MatlabToolClass)
      ensures this.cls == cls
    {
      this.cls := cls;
    }

    /**
     * `run(code)`: the fixed error when no engine is running, without calling
     * `eval`; otherwise the text for what `eval(code)` did, exceptions included.
     */
    function Run(code: string, eval: (EngineHandle, string) -> EvalOutcome): (r: string)
      reads cls
      ensures cls.engine.None? ==> r == NotRunning
      ensures cls.engine.Some? ==> r == EvalText(eval(cls.engine.value, code))
    {
      if cls.engine.None? then NotRunning
      else EvalText(eval(cls.engine.value, code))
    }
  }

  /**
   * `run` never returns the empty string, whether the engine is missing,
   * `eval` raised, or both streams were empty.
   */
  lemma RunNeverEmpty(t: MatlabTool, code: string, eval: (EngineHandle, string) -> EvalOutcome)
    ensures t.Run(code, eval) != ""
  {
    if t.cls.engine.Some? {
      match eval(t.cls.engine.value, code)
      case Completed(out, err) => SelectOutputProperties(out, err);
      case EvalRaised(_) =>
    }
  }

  /**
   * Two constructions in a row: the second returns the first instance and
   * does not retry the start, so a first failure leaves every instance
   * reporting that the engine is not running.
   */
  method ConstructTwice(c: MatlabToolClass, first: StartOutcome, second: StartOutcome, code: string,
                        eval: (EngineHandle, string) -> EvalOutcome)
      returns (t1: MatlabTool, t2: MatlabTool)
    requires c.Valid() && c.instance == null
    modifies c
    ensures t1 == t2 && c.startAttempts == 1
    ensures c.engine == EngineAfter(first)
    ensures first.StartFailed? ==> t2.Run(code, eval) == NotRunning
  {
    t1 := c.New(first);
    t2 := c.New(second);
  }
}
