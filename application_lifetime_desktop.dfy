/**
 * `application_lifetime_desktop`: closing all browsers, shutting down once
 * none is left, and the two once-per-process steps (`SessionEnding`,
 * `OnAppExiting`). The function-local statics are fields of one `Lifetime`
 * object; the browser list, the shutdown globals and the close manager are
 * the objects of their own modules. Whether a `BrowserProcess` exists, what
 * each browser answers and what the render processes answer are inputs;
 * notifications, platform exit handling and process termination are recorded.
 */
module ApplicationLifetimeDesktop {
  import opened Wrappers
  import BS = BrowserShutdown
  import BL = BrowserList
  import CM = BrowserCloseManager

  datatype Event =
    | AppTerminating            // `browser_shutdown::NotifyAppTerminating`
    | PlatformExit              // `HandleAppExitingForPlatform`
    | ClosingAllBrowsers(closing: bool)
    | EndSession                // `BrowserProcess::EndSession`
    | Terminated                // `TerminateCurrentProcessImmediately(0)`

  /** The number of `PlatformExit` events in `es`. */
  function PlatformExits(es: seq<Event>): (n: nat)
    ensures n <= |es|
    ensures n == 0 <==> PlatformExit !in es
  {
    if es == [] then 0 else PlatformExits(es[..|es| - 1]) + (if es[|es| - 1] == PlatformExit then 1 else 0)
  }

  lemma {:induction false} PlatformExitsAppend(a: seq<Event>, b: seq<Event>)
    ensures PlatformExits(a + b) == PlatformExits(a) + PlatformExits(b)
    decreases |b|
  {
    if b != [] {
      assert (a + b)[..|a + b| - 1] == a + b[..|b| - 1];
      PlatformExitsAppend(a, b[..|b| - 1]);
    } else {
      assert a + b == a;
    }
  }

  /**
   * `AreAllBrowsersCloseable`: true for an empty list, and otherwise false
   * exactly when some browser still needs beforeunload fired
   * (`needsBeforeUnload`, `Browser::TabsNeedBeforeUnloadFired`).
   */
  method AreAllBrowsersCloseable(browsers: seq<nat>, needsBeforeUnload: set<nat>) returns (r: bool)
    ensures browsers == [] ==> r
    ensures r <==> forall i :: 0 <= i < |browsers| ==> browsers[i] !in needsBeforeUnload
  {
    if browsers == [] {
      return true;
    }
    var i := 0;
    while i < |browsers|
      invariant i <= |browsers|
      invariant forall j :: 0 <= j < i ==> browsers[j] !in needsBeforeUnload
    {
      if browsers[i] in needsBeforeUnload {
        return false;
      }
      i := i + 1;
    }
    r := true;
  }

  class Lifetime {
    /** `notified` in `OnAppExiting`. */
    var notified: bool
    /** `already_ended` in `SessionEnding`. */
    var alreadyEnded: bool
    var events: seq<Event>

    /** `notified` holds exactly when platform exit handling has run, and it runs at most once. */
    ghost predicate Valid()
      reads this
    {
      (notified <==> PlatformExit in events) && PlatformExits(events) <= 1
    }

    constructor ()
      ensures Valid() && !notified && !alreadyEnded && events == []
    {
      notified := false;
      alreadyEnded := false;
      events := [];
    }

    /** `OnAppExiting`: platform exit handling runs the first time only. */
    method OnAppExiting()
      requires Valid()
      modifies this
      ensures Valid() && notified && alreadyEnded == old(alreadyEnded)
      ensures events == old(events) + (if old(notified) then [] else [PlatformExit])
      ensures PlatformExits(events) == 1
    {
      if notified {
        return;
      }
      notified := true;
      PlatformExitsAppend(events, [PlatformExit]);
      events := events + [PlatformExit];
    }

    /**
     * `ShutdownIfNoBrowsers`: nothing while browsers exist; otherwise the
     * application is marked as quitting, termination is announced and the
     * application exits.
     */
    method ShutdownIfNoBrowsers(list: BL.BrowserList, shutdown: BS.ShutdownState)
      requires Valid()
      modifies this, shutdown
      ensures Valid() && alreadyEnded == old(alreadyEnded)
      ensures shutdown.shutdownType == old(shutdown.shutdownType) && shutdown.started == old(shutdown.started)
      ensures shutdown.numProcesses == old(shutdown.numProcesses) && shutdown.numProcessesSlow == old(shutdown.numProcessesSlow)
      ensures |list.browsers| > 0 ==>
              events == old(events) && notified == old(notified) && shutdown.tryingToQuit == old(shutdown.tryingToQuit)
      ensures |list.browsers| == 0 ==>
              shutdown.tryingToQuit && notified &&
              events == old(events) + [AppTerminating] + (if old(notified) then [] else [PlatformExit])
    {
      if |list.browsers| > 0 {
        return;
      }
      shutdown.SetTryingToQuit(true);
      PlatformExitsAppend(events, [AppTerminating]);
      events := events + [AppTerminating];
      OnAppExiting();
    }

    /** `CloseAllBrowsers`: with no browser, shut down at once; otherwise a new close manager starts closing. */
    method CloseAllBrowsers(list: BL.BrowserList, shutdown: BS.ShutdownState, waits: nat -> bool)
      returns (manager: CM.BrowserCloseManager?, outcome: CM.Outcome)
      requires Valid() && shutdown.Valid()
      modifies this, shutdown
      ensures Valid() && shutdown.Valid()
      ensures |list.browsers| == 0 ==>
              manager == null && outcome == CM.ClosedAll && shutdown.tryingToQuit && notified &&
              events == old(events) + [AppTerminating] + (if old(notified) then [] else [PlatformExit])
      ensures |list.browsers| > 0 ==>
              manager != null && fresh(manager) && events == old(events) && notified == old(notified) &&
              (!shutdown.ShouldIgnoreUnloadHandlers() && CM.FirstWaiting(list.browsers, waits).Some? ==>
                 outcome == CM.WaitingFor(list.browsers[CM.FirstWaiting(list.browsers, waits).value])) &&
              (!shutdown.ShouldIgnoreUnloadHandlers() && CM.FirstWaiting(list.browsers, waits).None? ==>
                 outcome == CM.ClosedAll) &&
              (shutdown.ShouldIgnoreUnloadHandlers() ==> outcome == CM.Crashed)
      ensures shutdown.shutdownType == old(shutdown.shutdownType)
      ensures |list.browsers| > 0 && shutdown.ShouldIgnoreUnloadHandlers() ==>
              manager != null && shutdown.tryingToQuit && manager.current == None
      ensures |list.browsers| > 0 && !shutdown.ShouldIgnoreUnloadHandlers() ==>
              manager != null && shutdown.tryingToQuit == old(shutdown.tryingToQuit)
      ensures |list.browsers| > 0 && !shutdown.ShouldIgnoreUnloadHandlers() && CM.FirstWaiting(list.browsers, waits).Some? ==>
              var i := CM.FirstWaiting(list.browsers, waits).value;
              manager != null && manager.current == Some(list.browsers[i]) && manager.timing &&
              manager.events == CM.TryEvents(list.browsers[..i + 1])
      ensures |list.browsers| > 0 && !shutdown.ShouldIgnoreUnloadHandlers() && CM.FirstWaiting(list.browsers, waits).None? ==>
              manager != null && manager.current == None && !manager.timing &&
              manager.events == CM.TryEvents(list.browsers) + CM.CloseEvents(list.browsers)
    {
      if |list.browsers| == 0 {
        ShutdownIfNoBrowsers(list, shutdown);
        return null, CM.ClosedAll;
      }
      manager := new CM.BrowserCloseManager();
      outcome := manager.StartClosingBrowsers(list, shutdown, waits);
    }

    /** `ShutdownIfNeeded`: nothing when already quitting; otherwise shut down if no browser is left. */
    method ShutdownIfNeeded(list: BL.BrowserList, shutdown: BS.ShutdownState)
      requires Valid()
      modifies this, shutdown
      ensures Valid() && alreadyEnded == old(alreadyEnded)
      ensures old(shutdown.tryingToQuit) || |list.browsers| > 0 ==>
              events == old(events) && notified == old(notified) && shutdown.tryingToQuit == old(shutdown.tryingToQuit)
      ensures !old(shutdown.tryingToQuit) && |list.browsers| == 0 ==>
              shutdown.tryingToQuit && notified &&
              events == old(events) + [AppTerminating] + (if old(notified) then [] else [PlatformExit])
    {
      if shutdown.IsTryingToQuit() {
        return;
      }
      ShutdownIfNoBrowsers(list, shutdown);
    }

    /**
     * `SessionEnding`: the first call with a `BrowserProcess` records an
     * end-session shutdown, announces that all browsers are closing, has the
     * browser process write its data and terminates the process; every other
     * call does nothing. `fast` is what each render process answers.
     */
    method SessionEnding(hasBrowserProcess: bool, shutdown: BS.ShutdownState, fast: seq<bool>)
      requires Valid() && shutdown.Valid()
      modifies this, shutdown
      ensures Valid() && shutdown.Valid() && notified == old(notified)
      ensures old(alreadyEnded) || !hasBrowserProcess ==>
              alreadyEnded == old(alreadyEnded) && events == old(events) &&
              shutdown.shutdownType == old(shutdown.shutdownType)
      ensures !old(alreadyEnded) && hasBrowserProcess ==>
              alreadyEnded && events == old(events) + [ClosingAllBrowsers(true), EndSession, Terminated] &&
              shutdown.started &&
              (old(shutdown.shutdownType) == BS.NotValid ==> shutdown.shutdownType == BS.EndSession)
    {
      if alreadyEnded || !hasBrowserProcess {
        return;
      }
      alreadyEnded := true;
      shutdown.OnShutdownStarting(BS.EndSession, true, fast);
      PlatformExitsAppend(events, [ClosingAllBrowsers(true), EndSession, Terminated]);
      events := events + [ClosingAllBrowsers(true), EndSession, Terminated];
    }
  }

  /** However often `OnAppExiting` is called, platform exit handling runs once. */
  method OnAppExitingOnce(calls: nat) returns (exits: nat)
    requires calls >= 1
    ensures exits == 1
  {
    var lifetime := new Lifetime();
    var k := 0;
    while k < calls
      invariant k <= calls && lifetime.Valid()
      invariant k > 0 ==> PlatformExits(lifetime.events) == 1
      modifies lifetime
    {
      lifetime.OnAppExiting();
      k := k + 1;
    }
    exits := PlatformExits(lifetime.events);
  }

  /** A second `SessionEnding` adds nothing: the session ends once. */
  method SessionEndsOnce(fast: seq<bool>) returns (logged: seq<Event>)
    ensures logged == [ClosingAllBrowsers(true), EndSession, Terminated]
  {
    var lifetime := new Lifetime();
    var shutdown := new BS.ShutdownState();
    lifetime.SessionEnding(true, shutdown, fast);
    lifetime.SessionEnding(true, shutdown, fast);
    logged := lifetime.events;
  }
}
