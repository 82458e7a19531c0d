/**
 * `browser_shutdown`: the process-wide record of how shutdown started, the
 * trying-to-quit flag, and the renderer-process counts taken when shutdown
 * starts. The globals are the fields of one `ShutdownState` object; what each
 * render process answers to `FastShutdownIfPossible` is an input, and the
 * start time is a flag.
 */
module BrowserShutdown {
  datatype ShutdownType = NotValid | WindowClose | BrowserExit | EndSession | SilentExit | OtherExit

  /** `ToShutdownTypeString`: the crash-key value of a shutdown type; `kNotValid` must not reach it. */
  function ToShutdownTypeString(t: ShutdownType): (r: string)
    requires t != NotValid
    ensures 1 <= |r| <= 11
  {
    match t
    case WindowClose => "close"
    case BrowserExit => "exit"
    case EndSession => "end"
    case SilentExit => "silent_exit"
    case OtherExit => "other_exit"
  }

  /** Distinct shutdown types give distinct crash-key values. */
  lemma ToShutdownTypeStringInjective(a: ShutdownType, b: ShutdownType)
    requires a != NotValid && b != NotValid && a != b
    ensures ToShutdownTypeString(a) != ToShutdownTypeString(b)
  {
  }

  /** The number of processes that answered "not fast". */
  function SlowCount(fast: seq<bool>): (n: nat)
    ensures n <= |fast|
    ensures n == 0 <==> forall i :: 0 <= i < |fast| ==> fast[i]
  {
    if fast == [] then 0 else SlowCount(fast[..|fast| - 1]) + (if fast[|fast| - 1] then 0 else 1)
  }

  /** The counting loop of `OnShutdownStarting`: every host counts, the ones that could not shut down fast count as slow. */
  method CountProcesses(fast: seq<bool>) returns (total: nat, slow: nat)
    ensures total == |fast| && slow == SlowCount(fast)
    ensures slow <= total
  {
    total, slow := 0, 0;
    while total < |fast|
      invariant total <= |fast| && slow == SlowCount(fast[..total])
    {
      assert fast[..total + 1][..total] == fast[..total];
      if !fast[total] {
        slow := slow + 1;
      }
      total := total + 1;
    }
    assert fast[..total] == fast;
  }

  class ShutdownState {
    /** `g_trying_to_quit`. */
    var tryingToQuit: bool
    /** `g_shutdown_type`. */
    var shutdownType: ShutdownType
    /** Whether `g_shutdown_started` holds a time. */
    var started: bool
    /** The crash-key value set when shutdown started. */
    var crashKey: string
    /** `g_shutdown_num_processes`, `g_shutdown_num_processes_slow`. */
    var numProcesses: nat
    var numProcessesSlow: nat

    ghost predicate Valid()
      reads this
    {
      (started <==> shutdownType != NotValid) && numProcessesSlow <= numProcesses
    }

    /** Process start: no shutdown, not quitting, counters zero. */
    constructor ()
      ensures Valid()
      ensures !tryingToQuit && shutdownType == NotValid && !started && crashKey == ""
      ensures numProcesses == 0 && numProcessesSlow == 0
    {
      tryingToQuit := false;
      shutdownType := NotValid;
      started := false;
      crashKey := "";
      numProcesses := 0;
      numProcessesSlow := 0;
    }

    /**
     * `OnShutdownStarting`: only the first call takes effect. It records the
     * type and the start, and, when a `BrowserProcess` exists, counts the
     * render processes (`fast[i]`: host `i` shut down fast).
     */
    method OnShutdownStarting(t: ShutdownType, hasBrowserProcess: bool, fast: seq<bool>)
      requires Valid()
      requires shutdownType == NotValid ==> t != NotValid
      modifies this
      ensures Valid()
      ensures tryingToQuit == old(tryingToQuit)
      ensures old(shutdownType) != NotValid ==>
              shutdownType == old(shutdownType) && crashKey == old(crashKey) &&
              numProcesses == old(numProcesses) && numProcessesSlow == old(numProcessesSlow)
      ensures old(shutdownType) == NotValid ==>
              shutdownType == t && started && crashKey == ToShutdownTypeString(t) &&
              (hasBrowserProcess ==> numProcesses == |fast| && numProcessesSlow == SlowCount(fast)) &&
              (!hasBrowserProcess ==> numProcesses == old(numProcesses) && numProcessesSlow == old(numProcessesSlow))
    {
      if shutdownType != NotValid {
        return;
      }
      crashKey := ToShutdownTypeString(t);
      shutdownType := t;
      started := true;
      if hasBrowserProcess {
        var total, slow := CountProcesses(fast);
        numProcesses, numProcessesSlow := total, slow;
      }
    }

    /** `HasShutdownStarted`. */
    function HasShutdownStarted(): (r: bool)
      requires Valid()
      reads this
      ensures r <==> started
    {
      shutdownType != NotValid
    }

    /** `ShouldIgnoreUnloadHandlers`: only an ended session or a silent exit skips unload handlers. */
    function ShouldIgnoreUnloadHandlers(): (r: bool)
      requires Valid()
      reads this
      ensures r ==> started
      ensures r <==> shutdownType in {EndSession, SilentExit}
    {
      shutdownType == EndSession || shutdownType == SilentExit
    }

    /** `SetTryingToQuit`. */
    method SetTryingToQuit(quitting: bool)
      modifies this
      ensures tryingToQuit == quitting
      ensures shutdownType == old(shutdownType) && started == old(started) && crashKey == old(crashKey)
      ensures numProcesses == old(numProcesses) && numProcessesSlow == old(numProcessesSlow)
    {
      tryingToQuit := quitting;
    }

    /** `IsTryingToQuit`: reads back the last value set. */
    function IsTryingToQuit(): bool
      reads this
    {
      tryingToQuit
    }
  }

  /** The first shutdown type wins: a second `OnShutdownStarting` changes nothing. */
  method FirstTypeWins(first: ShutdownType, second: ShutdownType, fast: seq<bool>) returns (recorded: ShutdownType)
    requires first != NotValid
    ensures recorded == first
  {
    var s := new ShutdownState();
    s.OnShutdownStarting(first, true, fast);
    s.OnShutdownStarting(second, true, fast);
    recorded := s.shutdownType;
  }

  /** `SetTryingToQuit` then `IsTryingToQuit` gives back the value set. */
  method SetThenGet(quitting: bool) returns (r: bool)
    ensures r == quitting
  {
    var s := new ShutdownState();
    s.SetTryingToQuit(quitting);
    r := s.IsTryingToQuit();
  }
}
