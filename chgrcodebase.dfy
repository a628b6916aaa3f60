/** The application scaffolding of `lib/chgrcodebase.py`: error codes and log
    levels, the error state every component carries, the stopwatch timer
    with its process-wide table of named totals, and the exit-code choice
    of the application context. Clock readings (milliseconds, as
    `AppTimer.timer()` returns them) are parameters. */
module ChgrCodeBase {
  import opened Values

  datatype AppErrorCode = OK | ERROR | EXCEPTION | TIMEOUT {
    /** The integer value of the enum member (`EXCEPTION = ERROR + 1`,
        `TIMEOUT = ERROR + 2`). */
    function Value(): (v: int)
      ensures 0 <= v <= 3
    {
      match this
      case OK => 0
      case ERROR => 1
      case EXCEPTION => 1 + 1
      case TIMEOUT => 1 + 2
    }
  }

  datatype AppLogLevel = CRITICAL | ERROR | WARNING | INFO | DEBUG | NOTSET {
    function Value(): (v: int)
      ensures 0 <= v <= 50 && v % 10 == 0
    {
      match this
      case CRITICAL => 50
      case ERROR => 40
      case WARNING => 30
      case INFO => 20
      case DEBUG => 10
      case NOTSET => 0
    }
  }

  /** Console verbosity (the number of `-v` flags) to a logging level. */
  function VLevelToLogLevel(verboseLevel: int): (level: AppLogLevel)
    ensures level == AppLogLevel.DEBUG <==> verboseLevel >= 3
    ensures level == AppLogLevel.INFO <==> verboseLevel == 2
    ensures level == AppLogLevel.ERROR <==> verboseLevel < 2
  {
    if verboseLevel >= 3 then AppLogLevel.DEBUG
    else if verboseLevel == 2 then AppLogLevel.INFO
    else AppLogLevel.ERROR
  }

  /** More verbosity never raises the threshold: the level only admits more
      messages as the verbosity grows. */
  lemma VLevelAntitone(v1: int, v2: int)
    requires v1 <= v2
    ensures VLevelToLogLevel(v2).Value() <= VLevelToLogLevel(v1).Value()
  {
  }

  /** The error state shared by every component (`AppBase`). */
  class AppBase {
    var baseId: string
    var error: int
    var errorStr: string

    constructor (id: string)
      ensures baseId == id && error == AppErrorCode.OK.Value() && errorStr == ""
      ensures !HasError(None)
    {
      baseId := id;
      error := AppErrorCode.OK.Value();
      errorStr := "";
    }

    method SetErrorStr(e: int, s: string) returns (r: bool)
      modifies this`error, this`errorStr
      ensures error == e && errorStr == s && r
      ensures HasError(Some(e))
      ensures HasError(None) <==> e != AppErrorCode.OK.Value()
    {
      error := e;
      errorStr := s;
      r := true;
    }

    function GetErrorStr(): string
      reads this
    {
      errorStr
    }

    function GetError(): int
      reads this
    {
      error
    }

    /** With an argument: is the current code exactly that one; without:
        is there any error at all. */
    function HasError(e: Option<int>): (r: bool)
      reads this
      ensures e.Some? ==> (r <==> error == e.value)
      ensures e.None? ==> (r <==> error != AppErrorCode.OK.Value())
    {
      if e.Some? then error == e.value
      else error != AppErrorCode.OK.Value()
    }

    method ClearError()
      modifies this`error, this`errorStr
      ensures error == AppErrorCode.OK.Value() && errorStr == ""
      ensures !HasError(None) && HasError(Some(AppErrorCode.OK.Value()))
    {
      error := AppErrorCode.OK.Value();
      errorStr := "";
    }
  }

  // ---------------------------------------------------------------------
  // AppTimer

  /** The three instance attributes of an `AppTimer`. */
  datatype TimerState = TimerState(startTime: Option<int>, endTime: Option<int>, elapsedTime: Option<int>) {
    predicate Running() { startTime.Some? }
  }

  const IdleTimer := TimerState(None, None, None)

  /** `start()`: raises on a running timer, else forgets the last run and
      records the start time. */
  function TimerStart(t: TimerState, now: int): (r: Result<TimerState>)
    ensures r.Err? <==> t.Running()
    ensures r.Err? ==> r.error == AppTimerError
    ensures r.Ok? ==> r.value.Running() && r.value.startTime == Some(now)
    ensures r.Ok? ==> r.value.endTime.None? && r.value.elapsedTime.None?
  {
    if t.Running() then Err(AppTimerError)
    else Ok(TimerState(Some(now), None, None))
  }

  /** `stop()` without the named total: raises on an idle timer, else
      records the end, the elapsed time, and goes idle. */
  function TimerStop(t: TimerState, now: int): (r: Result<TimerState>)
    ensures r.Err? <==> !t.Running()
    ensures r.Err? ==> r.error == AppTimerError
    ensures r.Ok? ==> !r.value.Running() && r.value.endTime == Some(now)
    ensures r.Ok? ==> r.value.elapsedTime == Some(now - t.startTime.value)
  {
    if !t.Running() then Err(AppTimerError)
    else Ok(TimerState(None, Some(now), Some(now - t.startTime.value)))
  }

  /** `is_elapsed(timeout)`: raises on an idle timer, else stores the time
      since the start and tells whether it reached `timeout`; the timer keeps
      running. */
  function TimerCheck(t: TimerState, timeout: int, now: int): (r: Result<(TimerState, bool)>)
    ensures r.Err? <==> !t.Running()
    ensures r.Err? ==> r.error == AppTimerError
    ensures r.Ok? ==> r.value.0.startTime == t.startTime && r.value.0.endTime == t.endTime
    ensures r.Ok? ==> r.value.0.elapsedTime == Some(now - t.startTime.value)
    ensures r.Ok? ==> (r.value.1 <==> now - t.startTime.value >= timeout)
  {
    if !t.Running() then Err(AppTimerError)
    else
      var e := now - t.startTime.value;
      Ok((t.(elapsedTime := Some(e)), e >= timeout))
  }

  /** A timer name counts only when it is truthy (`if name:`). */
  predicate Named(name: Option<string>)
  {
    name.Some? && name.value != ""
  }

  /** `timers.setdefault(name, 0)` for a truthy name. */
  function RegisterTimer(timers: map<string, int>, name: Option<string>): (r: map<string, int>)
    ensures Named(name) ==> name.value in r && r[name.value] == (if name.value in timers then timers[name.value] else 0)
    ensures forall k :: k in timers ==> k in r && r[k] == timers[k]
    ensures forall k :: k in r ==> k in timers || (Named(name) && k == name.value)
  {
    if Named(name) && name.value !in timers then timers[name.value := 0] else timers
  }

  /** `timers[name] += elapsed` for a truthy name (a `KeyError` when the
      name was never registered). */
  function Accumulate(timers: map<string, int>, name: Option<string>, elapsed: int): (r: Result<map<string, int>>)
    ensures r.Err? <==> Named(name) && name.value !in timers
    ensures r.Ok? && Named(name) ==> r.value == timers[name.value := timers[name.value] + elapsed]
    ensures r.Ok? && !Named(name) ==> r.value == timers
  {
    if !Named(name) then Ok(timers)
    else if name.value in timers then Ok(timers[name.value := timers[name.value] + elapsed])
    else Err(KeyError)
  }

  /** `stop()` including the update of the shared table. */
  function TimerStopNamed(t: TimerState, timers: map<string, int>, name: Option<string>, now: int): Result<(TimerState, map<string, int>)>
  {
    match TimerStop(t, now)
    case Err(e) => Err(e)
    case Ok(t') =>
      match Accumulate(timers, name, t'.elapsedTime.value)
      case Err(e) => Err(e)
      case Ok(m) => Ok((t', m))
  }

  /** Runs of one timer: each pair is the clock at `start()` and at `stop()`. */
  function RunTimer(t: TimerState, timers: map<string, int>, name: Option<string>, runs: seq<(int, int)>): Result<(TimerState, map<string, int>)>
    decreases |runs|
  {
    if runs == [] then Ok((t, timers))
    else
      match TimerStart(t, runs[0].0)
      case Err(e) => Err(e)
      case Ok(t1) =>
        match TimerStopNamed(t1, timers, name, runs[0].1)
        case Err(e) => Err(e)
        case Ok(p) => RunTimer(p.0, p.1, name, runs[1..])
  }

  function Durations(runs: seq<(int, int)>): int
  {
    if runs == [] then 0 else (runs[0].1 - runs[0].0) + Durations(runs[1..])
  }

  /** Start/stop runs of an idle, registered timer never raise; the shared
      total of its name grows by the sum of the run lengths and every other
      name keeps its total. */
  lemma {:induction false} RunTimerAccumulates(t: TimerState, timers: map<string, int>, name: Option<string>, runs: seq<(int, int)>)
    requires !t.Running()
    requires Named(name) && name.value in timers
    ensures RunTimer(t, timers, name, runs).Ok?
    ensures !RunTimer(t, timers, name, runs).value.0.Running()
    ensures RunTimer(t, timers, name, runs).value.1.Keys == timers.Keys
    ensures RunTimer(t, timers, name, runs).value.1[name.value] == timers[name.value] + Durations(runs)
    ensures forall k :: k in timers && k != name.value ==> RunTimer(t, timers, name, runs).value.1[k] == timers[k]
    decreases |runs|
  {
    if runs != [] {
      var t1 := TimerStart(t, runs[0].0).value;
      var t2 := TimerStop(t1, runs[0].1).value;
      var m := timers[name.value := timers[name.value] + (runs[0].1 - runs[0].0)];
      assert TimerStopNamed(t1, timers, name, runs[0].1) == Ok((t2, m));
      RunTimerAccumulates(t2, m, name, runs[1..]);
    }
  }

  /** The class attribute `AppTimer.timers`: one table of named totals that
      every timer shares. */
  class TimerTable {
    var timers: map<string, int>

    constructor ()
      ensures timers == map[]
    {
      timers := map[];
    }
  }

  class AppTimer {
    var startTime: Option<int>
    var endTime: Option<int>
    var elapsedTime: Option<int>
    const name: Option<string>
    const table: TimerTable

    function State(): TimerState
      reads this
    {
      TimerState(startTime, endTime, elapsedTime)
    }

    /** `AppTimer(name)`: a new idle timer; a truthy name gets a total of 0
        unless it already has one. */
    constructor (name: Option<string>, table: TimerTable)
      modifies table
      ensures State() == IdleTimer && this.name == name && this.table == table
      ensures table.timers == RegisterTimer(old(table.timers), name)
    {
      startTime, endTime, elapsedTime := None, None, None;
      this.name := name;
      this.table := table;
      new;
      if Named(name) && name.value !in table.timers {
        table.timers := table.timers[name.value := 0];
      }
    }

    method Start(now: int) returns (r: Outcome)
      modifies this
      ensures TimerStart(old(State()), now).Err? ==> r == Fail(AppTimerError) && State() == old(State())
      ensures TimerStart(old(State()), now).Ok? ==> r == Pass && State() == TimerStart(old(State()), now).value
    {
      if startTime.Some? {
        return Fail(AppTimerError);
      }
      elapsedTime := None;
      endTime := None;
      startTime := Some(now);
      r := Pass;
    }

    method Stop(now: int) returns (r: Result<int>)
      modifies this, table
      ensures old(State()).Running() ==> State() == TimerStop(old(State()), now).value
      ensures !old(State()).Running() ==> r == Err(AppTimerError) && State() == old(State()) && table.timers == old(table.timers)
      ensures old(State()).Running() ==>
        var s := TimerStop(old(State()), now).value;
        var acc := Accumulate(old(table.timers), name, s.elapsedTime.value);
        (acc.Ok? ==> r == Ok(s.elapsedTime.value) && table.timers == acc.value) &&
        (acc.Err? ==> r == Err(KeyError) && table.timers == old(table.timers))
    {
      if startTime.None? {
        return Err(AppTimerError);
      }
      endTime := Some(now);
      elapsedTime := Some(now - startTime.value);
      startTime := None;
      if Named(name) {
        if name.value !in table.timers {
          return Err(KeyError);
        }
        table.timers := table.timers[name.value := table.timers[name.value] + elapsedTime.value];
      }
      r := Ok(elapsedTime.value);
    }

    method IsElapsed(timeout: int, now: int) returns (r: Result<bool>)
      modifies this
      ensures TimerCheck(old(State()), timeout, now).Err? ==> r == Err(AppTimerError) && State() == old(State())
      ensures TimerCheck(old(State()), timeout, now).Ok? ==>
        r == Ok(TimerCheck(old(State()), timeout, now).value.1) &&
        State() == TimerCheck(old(State()), timeout, now).value.0
    {
      if startTime.None? {
        return Err(AppTimerError);
      }
      elapsedTime := Some(now - startTime.value);
      r := Ok(elapsedTime.value >= timeout);
    }

    /** With a name: that name's shared total (raises for an unknown name).
        Without: the stored elapsed time, measured first when there is
        none yet (which raises on an idle timer). */
    method GetElapsed(which: Option<string>, now: int) returns (r: Result<int>)
      modifies this
      ensures which.Some? ==> State() == old(State())
      ensures which.Some? ==> r == (if which.value in table.timers then Ok(table.timers[which.value]) else Err(AppTimerError))
      ensures which.None? && old(elapsedTime).Some? ==> r == Ok(old(elapsedTime).value) && State() == old(State())
      ensures which.None? && old(elapsedTime).None? && !old(State()).Running() ==> r == Err(AppTimerError) && State() == old(State())
      ensures which.None? && old(elapsedTime).None? && old(State()).Running() ==>
        r == Ok(now - old(startTime).value) && State() == TimerCheck(old(State()), 0, now).value.0
    {
      if which.Some? {
        if which.value in table.timers {
          return Ok(table.timers[which.value]);
        }
        return Err(AppTimerError);
      }
      if elapsedTime.None? {
        var c := IsElapsed(0, now);
        if c.Err? {
          return Err(c.error);
        }
      }
      r := Ok(elapsedTime.value);
    }
  }

  /** A timer started at `t0` and stopped at `t1` reports `t1 - t0`, is idle
      again, and a second `stop()` raises. */
  lemma StartStopElapsed(t: TimerState, t0: int, t1: int)
    requires !t.Running()
    ensures TimerStart(t, t0).Ok?
    ensures TimerStop(TimerStart(t, t0).value, t1).Ok?
    ensures TimerStop(TimerStart(t, t0).value, t1).value.elapsedTime == Some(t1 - t0)
    ensures TimerStop(TimerStop(TimerStart(t, t0).value, t1).value, t1) == Err(AppTimerError)
  {
  }

  // ---------------------------------------------------------------------
  // AppContext

  /** What `exit_context` is given: an `Exception` instance, a
      `KeyboardInterrupt` (a `BaseException` that is not an `Exception`), or
      an integer code. */
  datatype Reason = ExceptionReason | InterruptReason | CodeReason(code: int)

  /** The exit code as `exit_context` computes it: `int(reason)` raises
      `TypeError` for a `KeyboardInterrupt`. */
  function ExitCodeAsWritten(reason: Reason): (r: Result<int>)
    ensures reason.ExceptionReason? ==> r == Ok(AppErrorCode.EXCEPTION.Value())
    ensures reason.CodeReason? ==> r == Ok(reason.code)
  {
    match reason
    case ExceptionReason => Ok(AppErrorCode.EXCEPTION.Value())
    case InterruptReason => Err(TypeError)
    case CodeReason(c) => Ok(c)
  }

  /** The interrupt path of `main` hands its `KeyboardInterrupt` to
      `exit_context`, which then raises instead of returning a code. */
  lemma ExitCodeAsWrittenRaisesOnInterrupt()
    ensures ExitCodeAsWritten(InterruptReason) == Err(TypeError)
  {
  }

  /** The exit code as intended: `EXCEPTION` for any exception, the code
      itself otherwise. */
  function ExitCode(reason: Reason): (code: int)
    ensures reason.CodeReason? ==> code == reason.code
    ensures !reason.CodeReason? ==> code == AppErrorCode.EXCEPTION.Value()
  {
    if reason.CodeReason? then reason.code else AppErrorCode.EXCEPTION.Value()
  }

  /** The intended code agrees with the written one wherever that one does
      not raise. */
  lemma ExitCodeAgrees(reason: Reason)
    ensures ExitCodeAsWritten(reason).Ok? ==> ExitCodeAsWritten(reason).value == ExitCode(reason)
    ensures ExitCodeAsWritten(reason).Err? <==> reason.InterruptReason?
  {
  }

  /** The run flag of `AppContext`. */
  class AppContext {
    var run: bool

    constructor ()
      ensures !run
    {
      run := false;
    }

    method RunContext() returns (r: bool)
      modifies this
      ensures run && r
    {
      run := true;
      r := true;
    }

    /** `exit_context(reason)` as written: the `TypeError` of `int(reason)`
        escapes before the run flag is cleared. */
    method ExitContextAsWritten(reason: Reason) returns (code: Result<int>)
      modifies this
      ensures code == ExitCodeAsWritten(reason)
      ensures code.Ok? ==> !run
      ensures code.Err? ==> run == old(run)
    {
      code := ExitCodeAsWritten(reason);
      if code.Err? {
        return;
      }
      run := false;
    }

    /** `exit_context(reason)` with the intended exit code: every reason
        stops the context and yields a code. */
    method ExitContext(reason: Reason) returns (code: int)
      modifies this
      ensures !run
      ensures code == ExitCode(reason)
    {
      code := ExitCode(reason);
      run := false;
    }

    method StopRunContext(reason: Value) returns (r: bool)
      modifies this
      ensures !run && r
    {
      run := false;
      r := true;
    }
  }
}
