/**
 * `BrowserCloseManager`: closes every browser when the application quits,
 * stopping at the first browser whose beforeunload handlers ask the user and
 * resuming when that browser reports back. Whether a browser asks to wait
 * (`Browser::TryToCloseWindow`) is an input; what the manager asks of each
 * browser is recorded. The `NOTREACHED()` in `CloseBrowsers` ends the model
 * with a `Crashed` outcome.
 */
module BrowserCloseManager {
  import opened Wrappers
  import BS = BrowserShutdown
  import BL = BrowserList

  datatype Event =
    | TryToClose(browser: nat)
    | ResetTryToClose(browser: nat)
    | SkipWarning(browser: nat, skip: bool)
    | CloseWindow(browser: nat)

  /** How a round of closing ended. */
  datatype Outcome =
    | WaitingFor(browser: nat)   // a browser asked the user; the manager waits for its report
    | ClosedAll                   // every browser was asked to close its window
    | Cancelled                   // the user refused; closing was abandoned
    | Ignored                     // a report arrived while no browser was awaited
    | Crashed                     // `NOTREACHED()` was hit

  /** The position of the first browser that asks to wait, if any. */
  function FirstWaiting(bs: seq<nat>, waits: nat -> bool): (r: Option<nat>)
    ensures r.Some? ==> r.value < |bs| && waits(bs[r.value]) && forall j :: 0 <= j < r.value ==> !waits(bs[j])
    ensures r.None? ==> forall j :: 0 <= j < |bs| ==> !waits(bs[j])
  {
    if bs == [] then None
    else if waits(bs[0]) then Some(0)
    else
      var rest := FirstWaiting(bs[1..], waits);
      if rest.Some? then Some(rest.value + 1) else None
  }

  /** `TryToClose` for each browser of `bs`, in order. */
  function TryEvents(bs: seq<nat>): (es: seq<Event>)
    ensures |es| == |bs| && forall i :: 0 <= i < |bs| ==> es[i] == TryToClose(bs[i])
  {
    if bs == [] then [] else [TryToClose(bs[0])] + TryEvents(bs[1..])
  }

  /** `ResetTryToCloseWindow` on each browser of `bs`, in order. */
  function ResetEvents(bs: seq<nat>): (es: seq<Event>)
    ensures |es| == |bs| && forall i :: 0 <= i < |bs| ==> es[i] == ResetTryToClose(bs[i])
  {
    if bs == [] then [] else [ResetTryToClose(bs[0])] + ResetEvents(bs[1..])
  }

  /** Each browser keeps its warning and closes its window. */
  function CloseEvents(bs: seq<nat>): (es: seq<Event>)
    ensures |es| == 2 * |bs|
    ensures forall i :: 0 <= i < |bs| ==> es[2 * i] == SkipWarning(bs[i], false) && es[2 * i + 1] == CloseWindow(bs[i])
  {
    if bs == [] then [] else [SkipWarning(bs[0], false), CloseWindow(bs[0])] + CloseEvents(bs[1..])
  }

  /** Appending one browser's step to the prefix of the list. */
  lemma TryEventsSnoc(bs: seq<nat>, i: nat)
    requires i < |bs|
    ensures TryEvents(bs[..i + 1]) == TryEvents(bs[..i]) + [TryToClose(bs[i])]
  {
  }

  lemma ResetEventsSnoc(bs: seq<nat>, i: nat)
    requires i < |bs|
    ensures ResetEvents(bs[..i + 1]) == ResetEvents(bs[..i]) + [ResetTryToClose(bs[i])]
  {
  }

  /** Closing two lists of browsers one after the other is closing their concatenation. */
  lemma {:induction false} CloseEventsAppend(a: seq<nat>, b: seq<nat>)
    ensures CloseEvents(a + b) == CloseEvents(a) + CloseEvents(b)
  {
    if a == [] {
      assert a + b == b;
    } else {
      assert (a + b)[1..] == a[1..] + b;
      CloseEventsAppend(a[1..], b);
    }
  }

  lemma CloseEventsSnoc(bs: seq<nat>, i: nat)
    requires i < |bs|
    ensures CloseEvents(bs[..i + 1]) == CloseEvents(bs[..i]) + [SkipWarning(bs[i], false), CloseWindow(bs[i])]
  {
    assert bs[..i + 1] == bs[..i] + [bs[i]];
    CloseEventsAppend(bs[..i], [bs[i]]);
  }

  /**
   * The loop of `TryToCloseBrowsers`: ask each browser in turn to close,
   * stopping at the first that asks to wait.
   */
  method FindWaiting(bs: seq<nat>, waits: nat -> bool) returns (r: Option<nat>, es: seq<Event>)
    ensures r == FirstWaiting(bs, waits)
    ensures r.Some? ==> es == TryEvents(bs[..r.value + 1])
    ensures r.None? ==> es == TryEvents(bs)
  {
    var i := 0;
    es := [];
    r := None;
    while i < |bs|
      invariant i <= |bs| && es == TryEvents(bs[..i])
      invariant forall j :: 0 <= j < i ==> !waits(bs[j])
    {
      TryEventsSnoc(bs, i);
      es := es + [TryToClose(bs[i])];
      if waits(bs[i]) {
        r := Some(i);
        return;
      }
      i := i + 1;
    }
    assert bs[..i] == bs;
  }

  /** The loop of `CloseBrowsers` when unload handlers are honoured. */
  method CloseEach(bs: seq<nat>) returns (es: seq<Event>)
    ensures es == CloseEvents(bs)
  {
    var i := 0;
    es := [];
    while i < |bs|
      invariant i <= |bs| && es == CloseEvents(bs[..i])
    {
      CloseEventsSnoc(bs, i);
      es := es + [SkipWarning(bs[i], false), CloseWindow(bs[i])];
      i := i + 1;
    }
    assert bs[..i] == bs;
  }

  /** The loop of `CancelBrowserClose`. */
  method ResetEach(bs: seq<nat>) returns (es: seq<Event>)
    ensures es == ResetEvents(bs)
  {
    var i := 0;
    es := [];
    while i < |bs|
      invariant i <= |bs| && es == ResetEvents(bs[..i])
    {
      ResetEventsSnoc(bs, i);
      es := es + [ResetTryToClose(bs[i])];
      i := i + 1;
    }
    assert bs[..i] == bs;
  }

  /**
   * `CloseBrowsers` over the browsers `bs`: ignoring unload handlers, the
   * first browser skips its warning and closes, then `NOTREACHED()` is hit;
   * otherwise every browser closes with its warning kept.
   */
  method CloseBrowsers(bs: seq<nat>, ignoreUnloadHandlers: bool) returns (outcome: Outcome, es: seq<Event>)
    ensures ignoreUnloadHandlers && bs != [] ==>
            outcome == Crashed && es == [SkipWarning(bs[0], true), CloseWindow(bs[0])]
    ensures !(ignoreUnloadHandlers && bs != []) ==> outcome == ClosedAll && es == CloseEvents(bs)
  {
    if ignoreUnloadHandlers && bs != [] {
      es := [SkipWarning(bs[0], true), CloseWindow(bs[0])];
      outcome := Crashed;
    } else {
      es := CloseEach(bs);
      outcome := ClosedAll;
    }
  }

  class BrowserCloseManager {
    /** `current_browser_`. */
    var current: Option<nat>
    /** Whether `close_timer_` holds a timer. */
    var timing: bool
    var events: seq<Event>

    constructor ()
      ensures current == None && !timing && events == []
    {
      current := None;
      timing := false;
      events := [];
    }

    /**
     * `TryToCloseBrowsers`: the first browser that asks to wait becomes the
     * current browser; when none does, the timer stops and the browsers close.
     */
    method TryToCloseBrowsers(list: BL.BrowserList, shutdown: BS.ShutdownState, waits: nat -> bool) returns (outcome: Outcome)
      requires shutdown.Valid()
      modifies this
      ensures FirstWaiting(list.browsers, waits).Some? ==>
              var i := FirstWaiting(list.browsers, waits).value;
              outcome == WaitingFor(list.browsers[i]) && current == Some(list.browsers[i]) && timing == old(timing) &&
              events == old(events) + TryEvents(list.browsers[..i + 1])
      ensures FirstWaiting(list.browsers, waits).None? ==>
              current == old(current) && !timing &&
              (outcome == Crashed <==> shutdown.ShouldIgnoreUnloadHandlers() && list.browsers != []) &&
              (outcome != Crashed ==> outcome == ClosedAll && events == old(events) + TryEvents(list.browsers) + CloseEvents(list.browsers))
    {
      var i, tried := FindWaiting(list.browsers, waits);
      events := events + tried;
      if i.Some? {
        current := Some(list.browsers[i.value]);
        outcome := WaitingFor(list.browsers[i.value]);
      } else {
        timing := false;
        var closes;
        outcome, closes := CloseBrowsers(list.browsers, shutdown.ShouldIgnoreUnloadHandlers());
        events := events + closes;
      }
    }

    /**
     * `StartClosingBrowsers`: start the timer; when unload handlers are to be
     * ignored, mark the application as quitting and close at once, otherwise
     * try to close.
     */
    method StartClosingBrowsers(list: BL.BrowserList, shutdown: BS.ShutdownState, waits: nat -> bool) returns (outcome: Outcome)
      requires shutdown.Valid()
      modifies this, shutdown
      ensures shutdown.Valid() && shutdown.shutdownType == old(shutdown.shutdownType)
      ensures shutdown.ShouldIgnoreUnloadHandlers() ==>
              shutdown.tryingToQuit && (outcome == Crashed <==> list.browsers != []) &&
              (outcome != Crashed ==> outcome == ClosedAll && events == old(events)) && current == old(current)
      ensures !shutdown.ShouldIgnoreUnloadHandlers() ==> shutdown.tryingToQuit == old(shutdown.tryingToQuit)
      ensures !shutdown.ShouldIgnoreUnloadHandlers() && FirstWaiting(list.browsers, waits).Some? ==>
              var i := FirstWaiting(list.browsers, waits).value;
              outcome == WaitingFor(list.browsers[i]) && current == Some(list.browsers[i]) && timing &&
              events == old(events) + TryEvents(list.browsers[..i + 1])
      ensures !shutdown.ShouldIgnoreUnloadHandlers() && FirstWaiting(list.browsers, waits).None? ==>
              outcome == ClosedAll && !timing && current == old(current) &&
              events == old(events) + TryEvents(list.browsers) + CloseEvents(list.browsers)
    {
      timing := true;
      if shutdown.ShouldIgnoreUnloadHandlers() {
        shutdown.SetTryingToQuit(true);
        var closes;
        outcome, closes := CloseBrowsers(list.browsers, shutdown.ShouldIgnoreUnloadHandlers());
        events := events + closes;
        return;
      }
      outcome := TryToCloseBrowsers(list, shutdown, waits);
    }

    /** `CancelBrowserClose`: stop the timer, stop quitting, and reset every browser's close attempt. */
    method CancelBrowserClose(list: BL.BrowserList, shutdown: BS.ShutdownState)
      requires shutdown.Valid()
      modifies this, shutdown
      ensures shutdown.Valid() && !shutdown.tryingToQuit && shutdown.shutdownType == old(shutdown.shutdownType)
      ensures !timing && current == old(current)
      ensures events == old(events) + ResetEvents(list.browsers)
    {
      timing := false;
      shutdown.SetTryingToQuit(false);
      var resets := ResetEach(list.browsers);
      events := events + resets;
    }

    /**
     * `OnBrowserReportCloseable`: ignored while no browser is awaited;
     * otherwise the awaited browser is released, and closing resumes on
     * `proceed` or is cancelled on refusal.
     */
    method OnBrowserReportCloseable(proceed: bool, list: BL.BrowserList, shutdown: BS.ShutdownState, waits: nat -> bool)
      returns (outcome: Outcome)
      requires shutdown.Valid()
      modifies this, shutdown
      ensures shutdown.Valid() && shutdown.shutdownType == old(shutdown.shutdownType)
      ensures old(current).None? ==>
              outcome == Ignored && current == None && timing == old(timing) && events == old(events) &&
              shutdown.tryingToQuit == old(shutdown.tryingToQuit)
      ensures old(current).Some? && !proceed ==>
              outcome == Cancelled && current == None && !timing && !shutdown.tryingToQuit &&
              events == old(events) + ResetEvents(list.browsers)
      ensures old(current).Some? && proceed ==> shutdown.tryingToQuit == old(shutdown.tryingToQuit)
      ensures old(current).Some? && proceed && FirstWaiting(list.browsers, waits).Some? ==>
              var i := FirstWaiting(list.browsers, waits).value;
              outcome == WaitingFor(list.browsers[i]) && current == Some(list.browsers[i]) && timing == old(timing) &&
              events == old(events) + TryEvents(list.browsers[..i + 1])
      ensures old(current).Some? && proceed && FirstWaiting(list.browsers, waits).None? ==>
              current == None && !timing &&
              (outcome == Crashed <==> shutdown.ShouldIgnoreUnloadHandlers() && list.browsers != []) &&
              (outcome != Crashed ==> outcome == ClosedAll && events == old(events) + TryEvents(list.browsers) + CloseEvents(list.browsers))
    {
      if current.None? {
        return Ignored;
      }
      current := None;
      if proceed {
        outcome := TryToCloseBrowsers(list, shutdown, waits);
      } else {
        CancelBrowserClose(list, shutdown);
        outcome := Cancelled;
      }
    }
  }

  /** With every browser agreeing and handlers honoured, starting closes all windows in list order. */
  method CloseAllWhenNoneWaits(bs: seq<nat>, waits: nat -> bool) returns (outcome: Outcome, es: seq<Event>)
    requires forall b :: b in bs ==> !waits(b)
    ensures outcome == ClosedAll
    ensures es == TryEvents(bs) + CloseEvents(bs)
  {
    var i, tried := FindWaiting(bs, waits);
    var closes;
    outcome, closes := CloseBrowsers(bs, false);
    es := tried + closes;
  }
}
