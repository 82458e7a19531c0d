/**
 * `BrowserProcess` on desktop builds: the process-wide instance pointer, the
 * quit closure, and the reaction to the keep-alive registry. Closures are
 * named by numbers; running one is recorded.
 */
module BrowserProcess {
  import opened Wrappers

  /** `g_browser_process`. */
  class Globals {
    var browserProcess: BrowserProcess?

    constructor ()
      ensures browserProcess == null
    {
      browserProcess := null;
    }

    /** `BrowserProcess::Get`. */
    function Get(): BrowserProcess?
      reads this
    {
      browserProcess
    }
  }

  /** What running `Unpin` did. */
  datatype UnpinResult =
    | RanQuit(closure: nat)   // the quit closure ran and is consumed
    | RanNull                 // the closure had already been consumed or never set: running it fails

  class BrowserProcess {
    /** `quit_closure_`. */
    var quitClosure: Option<nat>
    /** The keep-alive registry's shutting-down flag, as `Init` leaves it, and whether this object observes it. */
    var registryShuttingDown: bool
    var observing: bool
    /** The closures run so far. */
    var ran: seq<nat>

    /** The constructor makes the new object the global instance. */
    constructor (g: Globals)
      modifies g
      ensures g.browserProcess == this
      ensures quitClosure == None && !observing && ran == []
    {
      quitClosure := None;
      registryShuttingDown := false;
      observing := false;
      ran := [];
      new;
      g.browserProcess := this;
    }

    /** The destructor clears the global instance. */
    method Destroy(g: Globals)
      modifies g
      ensures g.browserProcess == null
    {
      g.browserProcess := null;
    }

    /** `Init`: the registry is told the process is not shutting down, and this object starts observing it. */
    method Init()
      modifies this
      ensures !registryShuttingDown && observing
      ensures quitClosure == old(quitClosure) && ran == old(ran)
    {
      registryShuttingDown := false;
      observing := true;
    }

    /** `SetQuitClosure`: the caller passes a real closure and none may be set yet. */
    method SetQuitClosure(closure: nat)
      requires quitClosure == None
      modifies this
      ensures quitClosure == Some(closure)
      ensures ran == old(ran) && observing == old(observing) && registryShuttingDown == old(registryShuttingDown)
    {
      quitClosure := Some(closure);
    }

    /** `gpu_mode_manager`: there is none. */
    method GpuModeManager() returns (r: Option<nat>)
      ensures r == None
    {
      r := None;
    }

    /** `Pin`: a sequence check only; no state changes. */
    method Pin()
      ensures quitClosure == old(quitClosure) && ran == old(ran)
    {
    }

    /** `Unpin`: run and consume the quit closure. */
    method Unpin() returns (r: UnpinResult)
      modifies this
      ensures quitClosure == None
      ensures old(quitClosure).Some? ==> r == RanQuit(old(quitClosure).value) && ran == old(ran) + [old(quitClosure).value]
      ensures old(quitClosure).None? ==> r == RanNull && ran == old(ran)
      ensures observing == old(observing) && registryShuttingDown == old(registryShuttingDown)
    {
      if quitClosure.Some? {
        r := RanQuit(quitClosure.value);
        ran := ran + [quitClosure.value];
      } else {
        r := RanNull;
      }
      quitClosure := None;
    }

    /** `OnKeepAliveStateChanged`: keeping alive pins, letting go unpins. */
    method OnKeepAliveStateChanged(isKeepingAlive: bool) returns (r: Option<UnpinResult>)
      modifies this
      ensures isKeepingAlive ==> r == None && quitClosure == old(quitClosure) && ran == old(ran)
      ensures !isKeepingAlive ==>
              quitClosure == None &&
              (old(quitClosure).Some? ==> r == Some(RanQuit(old(quitClosure).value)) && ran == old(ran) + [old(quitClosure).value]) &&
              (old(quitClosure).None? ==> r == Some(RanNull) && ran == old(ran))
      ensures observing == old(observing) && registryShuttingDown == old(registryShuttingDown)
    {
      if isKeepingAlive {
        Pin();
        r := None;
      } else {
        var u := Unpin();
        r := Some(u);
      }
    }
  }

  /** The quit closure runs at most once: a set closure runs on the first unpin, and a second unpin finds nothing. */
  method QuitClosureRunsOnce(closure: nat) returns (first: UnpinResult, second: UnpinResult, instance: BrowserProcess?)
    ensures first == RanQuit(closure) && second == RanNull
    ensures instance != null && instance.ran == [closure]
  {
    var g := new Globals();
    var p := new BrowserProcess(g);
    p.Init();
    p.SetQuitClosure(closure);
    first := p.Unpin();
    second := p.Unpin();
    instance := g.Get();
  }
}
