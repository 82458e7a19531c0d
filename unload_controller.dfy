/**
 * `UnloadController`: while a browser window closes, the tabs that still
 * have to run their beforeunload handler, then the tabs whose unload
 * handler has to run, and the step that processes the next pending tab.
 * Tabs are numbered as `std::set` orders its pointers. The browser's tabs,
 * which of them need the events, and which still have a render view host
 * are inputs; dispatching events, closing pages and posting the delayed
 * task are recorded.
 */
module UnloadController {
  /** What the controller does to a tab or reports. */
  datatype Event =
    | DispatchBeforeUnload(tab: nat)
    | ClosePage(tab: nat)
    | NotClosedByUserGesture(tab: nat)
    | CloseConfirmed(proceed: bool)
    | ClosingAllBrowsers(closing: bool)
    | PostedProcessPendingTabs

  /**
   * The browser's tabs; those for which `NeedToFireBeforeUnloadOrUnloadEvents`
   * holds; those whose primary main frame still has a render view host.
   */
  datatype Tabs = Tabs(all: set<nat>, needEvents: set<nat>, live: set<nat>)

  /** A tab that needs its unload events has a live renderer to run them. */
  predicate Consistent(env: Tabs)
  {
    env.needEvents <= env.live
  }

  /** `GetTabsNeedingBeforeUnloadFired`'s answer: tabs needing events and not already queued for unload. */
  function NeedingBeforeUnload(env: Tabs, unload: set<nat>): set<nat>
  {
    set t | t in env.all && t in env.needEvents && t !in unload
  }

  /** Every non-empty set of naturals has a least element. */
  lemma {:induction false} LeastWitness(s: set<nat>) returns (m: nat)
    requires s != {}
    ensures m in s && forall y :: y in s ==> m <= y
    decreases |s|
  {
    var x :| x in s;
    var rest := s - {x};
    if rest == {} {
      m := x;
      forall y | y in s
        ensures m <= y
      {
        assert y !in rest;
      }
    } else {
      var k := LeastWitness(rest);
      m := if x < k then x else k;
      forall y | y in s
        ensures m <= y
      {
        if y != x {
          assert y in rest;
        }
      }
    }
  }

  lemma LeastExists(s: set<nat>)
    requires s != {}
    ensures exists m :: m in s && forall y :: y in s ==> m <= y
  {
    var m := LeastWitness(s);
  }

  /** A set inside another set without one of its elements is strictly smaller. */
  lemma {:induction false} SmallerWithout(a: set<nat>, b: set<nat>, t: nat)
    requires t in b && a <= b - {t}
    ensures |a| < |b|
  {
    assert b - {t} <= b;
    SubsetSize(a, b - {t});
  }

  lemma {:induction false} SubsetSize(a: set<nat>, b: set<nat>)
    requires a <= b
    ensures |a| <= |b|
    decreases |b|
  {
    if a != {} {
      var x :| x in a;
      SubsetSize(a - {x}, b - {x});
    }
  }

  /** The log `after` continues the log `before`. */
  predicate Extends(before: seq<Event>, after: seq<Event>)
  {
    |before| <= |after| && after[..|before|] == before
  }

  /** `set.begin()`: the least element. */
  ghost function LeastOf(s: set<nat>): (m: nat)
    requires s != {}
    ensures m in s
  {
    LeastExists(s);
    var m :| m in s && forall y :: y in s ==> m <= y;
    m
  }

  lemma LeastOfIsLeast(s: set<nat>)
    requires s != {}
    ensures forall y :: y in s ==> LeastOf(s) <= y
  {
  }

  /** The tabs the refill picks need their events. */
  lemma NeedingNeedEvents(env: Tabs, unload: set<nat>)
    ensures NeedingBeforeUnload(env, unload) <= env.needEvents
  {
  }

  /** The least element, found by scanning the set. */
  method First(s: set<nat>) returns (m: nat)
    requires s != {}
    ensures m == LeastOf(s)
  {
    m :| m in s;
    var rest := s - {m};
    while rest != {}
      invariant rest <= s && m in s
      invariant forall y :: y in s && y !in rest ==> m <= y
      decreases rest
    {
      var y :| y in rest;
      if y < m {
        m := y;
      }
      rest := rest - {y};
    }
  }

  /** The controller's fields at one moment. */
  datatype State = State(beforeUnload: set<nat>, unload: set<nat>, closing: bool, confirming: bool,
                         posted: bool, events: seq<Event>)

  /**
   * From `s0` to `s1` the unload queue only loses tabs, loses every tab in
   * `gone`, and keeps every tab with a live renderer that is not in `gone`;
   * the beforeunload set gains only tabs that need their events; and the
   * log only grows.
   */
  ghost predicate Shrinks(s0: State, s1: State, env: Tabs, gone: set<nat>)
  {
    s1.unload <= s0.unload - gone &&
    s1.beforeUnload <= s0.beforeUnload + env.needEvents &&
    (forall t :: t in s0.unload && t in env.live && t !in gone ==> t in s1.unload) &&
    Extends(s0.events, s1.events)
  }

  lemma ExtendsTrans(a: seq<Event>, b: seq<Event>, c: seq<Event>)
    requires Extends(a, b) && Extends(b, c)
    ensures Extends(a, c)
  {
    assert c[..|a|] == c[..|b|][..|a|];
  }

  /** An event logged after position `k` of `b` is still logged after `k` in any continuation of `b`. */
  lemma ExtendsKeepsLater(b: seq<Event>, c: seq<Event>, k: nat, e: Event)
    requires Extends(b, c) && k <= |b| && e in b[k..]
    ensures e in c[k..]
  {
    var i :| k <= i < |b| && b[i] == e;
    assert c[i] == b[i];
  }

  lemma ShrinksGrow(s0: State, s1: State, env: Tabs)
    requires s1.unload == s0.unload && s1.beforeUnload <= s0.beforeUnload + env.needEvents
    requires Extends(s0.events, s1.events)
    ensures Shrinks(s0, s1, env, {})
  {
  }

  /** Staying put shrinks when no queued tab is to be lost. */
  lemma ShrinksNothing(s: State, env: Tabs, gone: set<nat>)
    requires s.unload !! gone
    ensures Shrinks(s, s, env, gone)
  {
    assert s.events[..|s.events|] == s.events;
  }

  /** Removing the tabs in `gone` from both sets and logging more shrinks. */
  lemma ShrinksRemoving(s0: State, s1: State, env: Tabs, gone: set<nat>)
    requires s1.unload == s0.unload - gone && s1.beforeUnload == s0.beforeUnload - gone
    requires s1.events == s0.events || s1.events == s0.events + [PostedProcessPendingTabs]
    ensures Shrinks(s0, s1, env, gone)
  {
    assert s0.events[..|s0.events|] == s0.events;
  }

  /** Losing a tab without a renderer still shrinks in the plain sense. */
  lemma ShrinksForget(s0: State, s1: State, env: Tabs, tab: nat)
    requires Shrinks(s0, s1, env, {tab}) && tab !in env.live
    ensures Shrinks(s0, s1, env, {})
  {
  }

  /** A tab waits for at most one of the two events; nothing waits for unload unless the window is closing. */
  ghost predicate Valid(s: State)
  {
    s.beforeUnload !! s.unload && (!s.closing ==> s.unload == {})
  }

  /** `HasCompletedUnloadProcessing`: closing, and no tab waits for either event. */
  predicate HasCompletedUnloadProcessing(s: State): (done: bool)
    ensures done ==> Valid(s)
  {
    s.closing && s.beforeUnload == {} && s.unload == {}
  }

  /** `RemoveFromSet`: whether the tab was in the set, and the set without it. The window must be closing. */
  method RemoveFromSet(s: State, from: set<nat>, tab: nat) returns (present: bool, rest: set<nat>)
    requires s.closing
    ensures present <==> tab in from
    ensures rest == from - {tab}
  {
    present := tab in from;
    rest := if present then from - {tab} else from;
  }

  /** `GetTabsNeedingBeforeUnloadFired`: a pass over the browser's tabs. */
  method GetTabsNeedingBeforeUnloadFired(s: State, env: Tabs) returns (r: set<nat>)
    requires Valid(s)
    ensures r == NeedingBeforeUnload(env, s.unload)
  {
    r := {};
    var rest := env.all;
    while rest != {}
      invariant rest <= env.all
      invariant forall t :: t in r <==> t in env.all && t !in rest && t in env.needEvents && t !in s.unload
      decreases rest
    {
      var t :| t in rest;
      if t !in s.unload && t in env.needEvents {
        r := r + {t};
      }
      rest := rest - {t};
    }
  }

  /** The fields once `ProcessPendingTabs` has cancelled the posted task and refilled a completed window's beforeunload set. */
  function Refilled(s: State, env: Tabs): State
  {
    if HasCompletedUnloadProcessing(s) then s.(beforeUnload := NeedingBeforeUnload(env, {}), posted := false)
    else s.(posted := false)
  }

  /** `skip_beforeunload`: every tab waiting for beforeunload joins the unload queue instead. */
  function Skipped(s: State, skipBeforeUnload: bool): State
  {
    if skipBeforeUnload then s.(unload := s.unload + s.beforeUnload, beforeUnload := {}) else s
  }

  /** The fields `ProcessPendingTabs` dispatches from. */
  function Prepared(s: State, skipBeforeUnload: bool, env: Tabs): State
  {
    Skipped(Refilled(s, env), skipBeforeUnload)
  }

  /**
   * What dispatching from the prepared fields `m` leads to (`r`): with
   * nothing waiting, nothing happens; otherwise the least tab waiting for
   * beforeunload runs its handler when it has a renderer and is dropped from
   * both sets when it has none; otherwise a pending confirmer is told `true`
   * (not when skipping) and stays set while tabs wait for unload; otherwise
   * every page waiting for unload with a renderer is closed and every other
   * one leaves the queue. In every case live tabs waiting for unload stay
   * queued (`Shrinks`).
   */
  ghost predicate DispatchedFrom(m: State, skipBeforeUnload: bool, env: Tabs, r: State)
  {
    Shrinks(m, r, env, {}) &&
    (m.beforeUnload == {} && m.unload == {} ==> r == m) &&
    (m.beforeUnload != {} && LeastOf(m.beforeUnload) in env.live ==>
       r == m.(events := m.events + [DispatchBeforeUnload(LeastOf(m.beforeUnload))])) &&
    (m.beforeUnload != {} && LeastOf(m.beforeUnload) !in env.live ==>
       LeastOf(m.beforeUnload) !in r.beforeUnload && LeastOf(m.beforeUnload) !in r.unload) &&
    (m.beforeUnload == {} && m.unload != {} && m.confirming ==>
       r == m.(events := m.events + (if skipBeforeUnload then [] else [CloseConfirmed(true)]))) &&
    (m.beforeUnload == {} && m.unload != {} && !m.confirming ==>
       (forall t :: t in m.unload && t in env.live ==> ClosePage(t) in r.events[|m.events|..]) &&
       (forall t :: t in m.unload && t !in env.live ==> t !in r.unload))
  }

  /** The outcome of `ProcessPendingTabs(skipBeforeUnload)` on the fields `s` of a closing window. */
  ghost predicate Processed(s: State, skipBeforeUnload: bool, env: Tabs, r: State)
  {
    DispatchedFrom(Prepared(s, skipBeforeUnload, env), skipBeforeUnload, env, r)
  }

  /**
   * `ProcessPendingTabs` on the controller's fields `s`: refill the
   * beforeunload set once everything is done, optionally skip beforeunload,
   * then fire the first pending beforeunload handler, or report to a
   * confirmer, or close every page waiting for unload. A tab without a
   * render view host is dropped through `ClearUnloadState`, which processes
   * again.
   */
  method Process(s: State, skipBeforeUnload: bool, env: Tabs) returns (r: State)
    requires Valid(s) && Consistent(env)
    decreases |s.unload| + (if skipBeforeUnload then |s.beforeUnload| else 0), |s.beforeUnload|, 4
    ensures Valid(r) && r.closing == s.closing && !r.posted
    ensures !s.closing ==> r == s.(posted := false)
    ensures s.closing ==> Processed(s, skipBeforeUnload, env, r)
  {
    r := s.(posted := false);
    if !r.closing {
      return;
    }
    if HasCompletedUnloadProcessing(r) {
      var t := GetTabsNeedingBeforeUnloadFired(r, env);
      NeedingNeedEvents(env, r.unload);
      r := r.(beforeUnload := t);
      assert Prepared(s, skipBeforeUnload, env) == Skipped(r, skipBeforeUnload);
      if t == {} {
        ShrinksNothing(r, env, {});
        return;
      }
      r := DispatchOrClose(r, skipBeforeUnload, true, env);
    } else {
      assert Prepared(s, skipBeforeUnload, env) == Skipped(r, skipBeforeUnload);
      r := DispatchOrClose(r, skipBeforeUnload, false, env);
    }
  }

  /**
   * The rest of `ProcessPendingTabs` once the window is closing and the
   * beforeunload set is refilled if everything had completed. The
   * confirmer is reset only when no tab waits for unload, which cannot
   * happen here, since some tab waits for one of the events.
   */
  method DispatchOrClose(s: State, skipBeforeUnload: bool, ghost refilled: bool, env: Tabs) returns (r: State)
    requires Valid(s) && Consistent(env) && s.closing && !s.posted && (s.beforeUnload != {} || s.unload != {})
    requires refilled ==> s.unload == {} && s.beforeUnload != {} && s.beforeUnload <= env.needEvents
    decreases if refilled then 0 else |s.unload| + (if skipBeforeUnload then |s.beforeUnload| else 0),
              if refilled then 0 else |s.beforeUnload|, 3
    ensures Valid(r) && r.closing && !r.posted
    ensures DispatchedFrom(Skipped(s, skipBeforeUnload), skipBeforeUnload, env, r)
  {
    hide Shrinks, NeedingBeforeUnload, LeastOf;
    r := s;
    if skipBeforeUnload {
      r := r.(unload := r.unload + r.beforeUnload, beforeUnload := {});
    }
    assert r == Skipped(s, skipBeforeUnload);
    if r.beforeUnload != {} {
      r := DispatchFirst(r, refilled, env);
    } else if r.confirming {
      ghost var m := r;
      if r.unload == {} {
        r := r.(confirming := false);
      }
      if !skipBeforeUnload {
        r := r.(events := r.events + [CloseConfirmed(true)]);
      }
      ShrinksGrow(m, r, env);
    } else {
      // Nothing waits for beforeunload, so something waits for unload.
      r := CloseWaiting(r, refilled, env);
    }
  }

  /** `ProcessPendingTabs` with tabs waiting for beforeunload: the first one runs its handler, or is dropped without a renderer. */
  method DispatchFirst(s: State, ghost refilled: bool, env: Tabs) returns (r: State)
    requires Valid(s) && Consistent(env) && s.closing && !s.posted && s.beforeUnload != {}
    requires refilled ==> s.unload == {} && s.beforeUnload <= env.needEvents
    decreases if refilled then 0 else |s.unload|, if refilled then 0 else |s.beforeUnload|, 2
    ensures Valid(r) && r.closing && !r.posted
    ensures Shrinks(s, r, env, {})
    ensures LeastOf(s.beforeUnload) in env.live ==>
            r == s.(events := s.events + [DispatchBeforeUnload(LeastOf(s.beforeUnload))])
    ensures LeastOf(s.beforeUnload) !in env.live ==>
            LeastOf(s.beforeUnload) !in r.beforeUnload && LeastOf(s.beforeUnload) !in r.unload
  {
    hide Shrinks, NeedingBeforeUnload;
    var first := First(s.beforeUnload);
    if first in env.live {
      r := s.(events := s.events + [DispatchBeforeUnload(first)]);
      ShrinksGrow(s, r, env);
    } else {
      r := Clear(s, first, true, env);
      ShrinksForget(s, r, env, first);
    }
  }

  /** The last step of `ProcessPendingTabs`: every page waiting for unload is closed, or dropped without a renderer. */
  method CloseWaiting(s: State, ghost refilled: bool, env: Tabs) returns (r: State)
    requires Valid(s) && Consistent(env) && s.closing && s.beforeUnload == {} && !s.posted
    requires refilled ==> s.unload <= env.needEvents
    decreases if refilled then 0 else |s.unload|, 0, 1
    ensures Valid(r) && r.closing && !r.posted
    ensures Shrinks(s, r, env, {})
    ensures forall t :: t in s.unload && t in env.live ==> ClosePage(t) in r.events[|s.events|..]
    ensures forall t :: t in s.unload && t !in env.live ==> t !in r.unload
  {
    r := s;
    var rest := s.unload;
    while rest != {}
      invariant Valid(r) && r.closing && !r.posted
      invariant rest <= s.unload && r.unload <= s.unload
      invariant r.unload == s.unload || |r.unload| < |s.unload|
      invariant Shrinks(s, r, env, {})
      invariant forall t :: t in s.unload && t !in rest && t in env.live ==> ClosePage(t) in r.events[|s.events|..]
      invariant forall t :: t in s.unload && t !in rest && t !in env.live ==> t !in r.unload
      decreases rest
    {
      var t := First(rest);
      ghost var r0 := r;
      if t in env.live {
        r := r.(events := r.events + [ClosePage(t)]);
        assert r.events[|s.events|..] == r0.events[|s.events|..] + [ClosePage(t)];
      } else {
        if r.unload == s.unload {
          SmallerWithout(r.unload - {t}, s.unload, t);
        } else {
          SubsetSize(r.unload - {t}, r.unload);
        }
        r := Clear(r, t, true, env);
        SmallerWithout(r.unload, s.unload, t);
        ExtendsTrans(s.events, r0.events, r.events);
        forall u | u in s.unload && u !in rest && u in env.live
          ensures ClosePage(u) in r.events[|s.events|..]
        {
          ExtendsKeepsLater(r0.events, r.events, |s.events|, ClosePage(u));
        }
      }
      rest := rest - {t};
    }
  }

  /**
   * `ClearUnloadState` on the controller's fields `s`: while closing, the
   * tab leaves both sets; then processing runs now, or a delayed run is
   * posted unless one is pending.
   */
  method Clear(s: State, tab: nat, processNow: bool, env: Tabs) returns (r: State)
    requires Valid(s) && Consistent(env)
    decreases |s.unload - {tab}|, |s.beforeUnload - {tab}|, 6
    ensures Valid(r) && r.closing == s.closing
    ensures !s.closing ==> r == s
    ensures s.closing && !processNow ==>
            r == s.(beforeUnload := s.beforeUnload - {tab}, unload := s.unload - {tab}, posted := true,
                    events := s.events + (if s.posted then [] else [PostedProcessPendingTabs]))
    ensures s.closing && processNow ==>
            !r.posted && Processed(s.(beforeUnload := s.beforeUnload - {tab}, unload := s.unload - {tab}), false, env, r)
    ensures Shrinks(s, r, env, {tab})
    ensures s.closing && tab !in env.needEvents ==> tab !in r.beforeUnload && tab !in r.unload
  {
    if s.closing {
      r := ClearClosing(s, tab, processNow, env);
    } else {
      r := s;
      ShrinksNothing(s, env, {tab});
    }
  }

  /** `ClearUnloadState` while closing. */
  method ClearClosing(s: State, tab: nat, processNow: bool, env: Tabs) returns (r: State)
    requires Valid(s) && Consistent(env) && s.closing
    decreases |s.unload - {tab}|, |s.beforeUnload - {tab}|, 5
    ensures Valid(r) && r.closing
    ensures !processNow ==>
            r == s.(beforeUnload := s.beforeUnload - {tab}, unload := s.unload - {tab}, posted := true,
                    events := s.events + (if s.posted then [] else [PostedProcessPendingTabs]))
    ensures processNow ==>
            !r.posted && Processed(s.(beforeUnload := s.beforeUnload - {tab}, unload := s.unload - {tab}), false, env, r)
    ensures Shrinks(s, r, env, {tab})
    ensures tab !in env.needEvents ==> tab !in r.beforeUnload && tab !in r.unload
  {
    hide Shrinks, NeedingBeforeUnload, LeastOf, Processed, DispatchedFrom;
    var present, before, unload;
    present, before := RemoveFromSet(s, s.beforeUnload, tab);
    present, unload := RemoveFromSet(s, s.unload, tab);
    var s1 := s.(beforeUnload := before, unload := unload);
    if processNow {
      r := Process(s1, false, env);
      ProcessedShrinks(s, s1, r, env, tab);
    } else {
      r := s1;
      if !s1.posted {
        r := s1.(posted := true, events := s1.events + [PostedProcessPendingTabs]);
      }
      ShrinksRemoving(s, r, env, {tab});
    }
  }

  /** Processing after removing `tab` from both sets loses `tab` and keeps every other live tab queued. */
  lemma ProcessedShrinks(s: State, s1: State, r: State, env: Tabs, tab: nat)
    requires s1 == s.(beforeUnload := s.beforeUnload - {tab}, unload := s.unload - {tab}) && s.closing
    requires Processed(s1, false, env, r)
    ensures Shrinks(s, r, env, {tab})
    ensures r.beforeUnload <= (s.beforeUnload - {tab}) + env.needEvents
    ensures r.unload <= s.unload - {tab}
  {
    var m := Prepared(s1, false, env);
    assert Shrinks(m, r, env, {});
    NeedingNeedEvents(env, {});
    assert m.unload == s1.unload && m.events == s1.events;
    assert m.beforeUnload <= s1.beforeUnload + env.needEvents;
  }

  /** Skipping beforeunload leaves every live tab that was waiting for beforeunload queued for unload. */
  lemma SkipQueuesForUnload(s: State, env: Tabs, r: State)
    requires s.closing && !HasCompletedUnloadProcessing(s) && Processed(s, true, env, r)
    ensures forall t :: t in s.beforeUnload + s.unload && t in env.live ==> t in r.unload
  {
  }

  class UnloadController {
    /** `tabs_needing_before_unload_fired_`. */
    var beforeUnload: set<nat>
    /** `tabs_needing_unload_fired_`. */
    var unload: set<nat>
    /** `is_attempting_to_close_browser_`. */
    var closing: bool
    /** `on_close_confirmed_` is set. */
    var confirming: bool
    /** A delayed `ProcessPendingTabs` is posted and not yet cancelled. */
    var posted: bool
    var events: seq<Event>

    /** The fields as one value. */
    function Snapshot(): State
      reads this
    {
      State(beforeUnload, unload, closing, confirming, posted, events)
    }

    constructor ()
      ensures Snapshot() == State({}, {}, false, false, false, [])
    {
      beforeUnload, unload := {}, {};
      closing, confirming, posted := false, false, false;
      events := [];
    }

    method Store(s: State)
      modifies this
      ensures Snapshot() == s
    {
      beforeUnload, unload, closing := s.beforeUnload, s.unload, s.closing;
      confirming, posted, events := s.confirming, s.posted, s.events;
    }

    /** `OnWebContentsEmpty`: from now on the window is closing. */
    method OnWebContentsEmpty()
      requires Valid(Snapshot())
      modifies this
      ensures Valid(Snapshot()) && Snapshot() == old(Snapshot()).(closing := true)
    {
      closing := true;
    }

    /**
     * `CancelWindowClose`: the unload queue is dropped, a pending confirmer
     * hears `false`, and the window is no longer closing. The beforeunload
     * set is left as it is.
     */
    method CancelWindowClose()
      requires Valid(Snapshot())
      modifies this
      ensures Valid(Snapshot()) && !closing && !confirming && unload == {}
      ensures beforeUnload == old(beforeUnload) && posted == old(posted)
      ensures events == old(events) + (if old(confirming) then [CloseConfirmed(false)] else []) + [ClosingAllBrowsers(false)]
    {
      unload := {};
      if confirming {
        events := events + [CloseConfirmed(false)];
        confirming := false;
      }
      closing := false;
      events := events + [ClosingAllBrowsers(false)];
    }

    /** `ProcessPendingTabs`. */
    method ProcessPendingTabs(skipBeforeUnload: bool, env: Tabs)
      requires Valid(Snapshot()) && Consistent(env)
      modifies this
      ensures Valid(Snapshot()) && closing == old(closing) && !posted
      ensures !old(closing) ==> Snapshot() == old(Snapshot()).(posted := false)
      ensures old(closing) ==> Processed(old(Snapshot()), skipBeforeUnload, env, Snapshot())
    {
      var r := Process(Snapshot(), skipBeforeUnload, env);
      Store(r);
    }

    /** `ClearUnloadState`. */
    method ClearUnloadState(tab: nat, processNow: bool, env: Tabs)
      requires Valid(Snapshot()) && Consistent(env)
      modifies this
      ensures Valid(Snapshot()) && closing == old(closing)
      ensures !old(closing) ==> Snapshot() == old(Snapshot())
      ensures old(closing) && !processNow ==>
              Snapshot() == old(Snapshot()).(beforeUnload := old(beforeUnload) - {tab}, unload := old(unload) - {tab},
                                             posted := true,
                                             events := old(events) + (if old(posted) then [] else [PostedProcessPendingTabs]))
      ensures old(closing) && processNow ==>
              !posted && Processed(old(Snapshot()).(beforeUnload := old(beforeUnload) - {tab}, unload := old(unload) - {tab}),
                                   false, env, Snapshot())
      ensures Shrinks(old(Snapshot()), Snapshot(), env, {tab})
      ensures old(closing) && tab !in env.needEvents ==> tab !in beforeUnload && tab !in unload
    {
      var r := Clear(Snapshot(), tab, processNow, env);
      Store(r);
    }

    /**
     * `BeforeUnloadFired`: whether the tab's unload handler should run now.
     * Outside a window close the answer is the user's; a refusal during a
     * close cancels it; otherwise a tab that was waiting moves to the unload
     * queue and processing continues.
     */
    method BeforeUnloadFired(tab: nat, proceed: bool, env: Tabs) returns (r: bool)
      requires Valid(Snapshot()) && Consistent(env)
      modifies this
      ensures Valid(Snapshot())
      ensures !old(closing) ==>
              r == proceed && Snapshot() == old(Snapshot()).(events := old(events) + (if proceed then [] else [NotClosedByUserGesture(tab)]))
      ensures old(closing) && !proceed ==>
              !r &&
              Snapshot() == old(Snapshot()).(unload := {}, closing := false, confirming := false,
                                             events := old(events) + (if old(confirming) then [CloseConfirmed(false)] else []) +
                                                       [ClosingAllBrowsers(false), NotClosedByUserGesture(tab)])
      ensures old(closing) && proceed ==> closing && (r <==> tab !in old(beforeUnload))
      ensures old(closing) && proceed && tab !in old(beforeUnload) ==> Snapshot() == old(Snapshot())
      ensures old(closing) && proceed && tab in old(beforeUnload) && tab in env.live ==> tab in unload
      ensures old(closing) && proceed && tab in old(beforeUnload) ==>
              Processed(old(Snapshot()).(beforeUnload := old(beforeUnload) - {tab}, unload := old(unload) + {tab}),
                        false, env, Snapshot())
    {
      if !closing {
        if !proceed {
          events := events + [NotClosedByUserGesture(tab)];
        }
        return proceed;
      }
      if !proceed {
        CancelWindowClose();
        events := events + [NotClosedByUserGesture(tab)];
        return false;
      }
      var present;
      present, beforeUnload := RemoveFromSet(Snapshot(), beforeUnload, tab);
      if present {
        unload := unload + {tab};
        ProcessPendingTabs(false, env);
        return false;
      }
      return true;
    }

    /** `RenderProcessGone`: a crashed tab stops blocking the close; processing is posted. */
    method RenderProcessGone(tab: nat, env: Tabs)
      requires Valid(Snapshot()) && Consistent(env)
      modifies this
      ensures Valid(Snapshot())
      ensures old(closing) ==> tab !in beforeUnload && tab !in unload && posted
      ensures old(closing) ==>
              Snapshot() == old(Snapshot()).(beforeUnload := old(beforeUnload) - {tab}, unload := old(unload) - {tab},
                                             posted := true,
                                             events := old(events) + (if old(posted) then [] else [PostedProcessPendingTabs]))
      ensures !old(closing) ==> Snapshot() == old(Snapshot())
    {
      if closing {
        ClearUnloadState(tab, false, env);
      }
    }

    /** The posted task runs unless processing since cancelled it (`InvalidateWeakPtrs`). */
    method RunPostedTask(env: Tabs)
      requires Valid(Snapshot()) && Consistent(env)
      modifies this
      ensures Valid(Snapshot()) && !posted
      ensures !old(posted) ==> Snapshot() == old(Snapshot())
      ensures old(posted) && old(closing) ==> closing && Processed(old(Snapshot()), false, env, Snapshot())
      ensures old(posted) && !old(closing) ==> Snapshot() == old(Snapshot()).(posted := false)
    {
      if posted {
        ProcessPendingTabs(false, env);
      }
    }
  }

  /** Once every tab has reported, a closing window with no tab needing events has completed unload processing. */
  method CloseWithoutHandlers(env: Tabs) returns (completed: bool)
    requires Consistent(env) && NeedingBeforeUnload(env, {}) == {}
    ensures completed
  {
    var c := new UnloadController();
    c.OnWebContentsEmpty();
    c.ProcessPendingTabs(false, env);
    completed := HasCompletedUnloadProcessing(c.Snapshot());
  }

  /** A tab whose beforeunload handler agrees moves to the unload queue and the window keeps closing. */
  method ProceedQueuesUnload(tab: nat, env: Tabs) returns (queued: bool, r: bool)
    requires Consistent(env) && tab in env.all && tab in env.needEvents
    ensures queued && !r
  {
    var c := new UnloadController();
    c.OnWebContentsEmpty();
    c.ProcessPendingTabs(false, env);
    assert tab in NeedingBeforeUnload(env, {});
    r := c.BeforeUnloadFired(tab, true, env);
    queued := c.closing && tab in c.unload;
  }
}
