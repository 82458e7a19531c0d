/**
 * `Browser`: a window's set of tabs (web contents, named by their
 * addresses), its unload controller, and its registration in the browser
 * list. What the web contents and their render processes answer is an input;
 * observer notifications, fast shutdowns and closes are recorded.
 */
module Browser {
  import opened Wrappers
  import BL = BrowserList
  import UC = UnloadController

  datatype Event =
    | WebContentsAdded(contents: nat)
    | WebContentsRemoved(contents: nat)
    | WebContentsEmpty
    | FastShutdown(process: nat, count: nat)
    | Closed(contents: nat)

  /**
   * What the tabs answer while the window closes: which need beforeunload or
   * unload events, which the unload controller's `ShouldRunUnloadEventsHelper`
   * and `RunUnloadEventsHelper` claim, and each tab's render process.
   */
  datatype ClosingTabs = ClosingTabs(needEvents: set<nat>, shouldRunHelper: set<nat>, runsHelper: set<nat>,
                                     processOf: nat -> nat)

  /** A tab whose process may be shut down fast: it needs no unload events and the controller does not claim it. */
  predicate FastClosable(t: nat, env: ClosingTabs)
  {
    t !in env.needEvents && t !in env.shouldRunHelper
  }

  /** The processes holding at least one fast-closable tab of `s`. */
  ghost function Processes(s: set<nat>, env: ClosingTabs): set<nat>
  {
    set t | t in s && FastClosable(t, env) :: env.processOf(t)
  }

  /** How many fast-closable tabs of `s` live in process `p`. */
  ghost function Count(s: set<nat>, env: ClosingTabs, p: nat): nat
  {
    |set t | t in s && FastClosable(t, env) && env.processOf(t) == p|
  }

  /** The process-to-tab-count map `OnWindowClosing` builds. */
  ghost function Counts(s: set<nat>, env: ClosingTabs): map<nat, nat>
  {
    map p | p in Processes(s, env) :: Count(s, env, p)
  }

  /** One fast-shutdown request per process, in ascending process order. */
  ghost function ShutdownEvents(m: map<nat, nat>): seq<Event>
    decreases |m|
  {
    if m == map[] then []
    else
      var p := UC.LeastOf(m.Keys);
      [FastShutdown(p, m[p])] + ShutdownEvents(m - {p})
  }

  /** `Close` on every tab, in tab order, that the unload helper did not take over. */
  ghost function CloseEvents(s: set<nat>, env: ClosingTabs): seq<Event>
    decreases |s|
  {
    if s == {} then []
    else
      var t := UC.LeastOf(s);
      (if t in env.runsHelper then [] else [Closed(t)]) + CloseEvents(s - {t}, env)
  }

  /** Every process in the map holds at least one counted tab. */
  lemma CountsPositive(s: set<nat>, env: ClosingTabs, p: nat)
    requires p in Counts(s, env)
    ensures Counts(s, env)[p] >= 1
  {
    var t :| t in s && FastClosable(t, env) && env.processOf(t) == p;
    var c := set u | u in s && FastClosable(u, env) && env.processOf(u) == p;
    assert t in c;
    assert Counts(s, env)[p] == |c|;
  }

  /** A process with no counted tab has count zero. */
  lemma CountZero(s: set<nat>, env: ClosingTabs, p: nat)
    requires p !in Processes(s, env)
    ensures Count(s, env, p) == 0
  {
  }

  /** Adding one tab raises the count of its own process by one when it is fast-closable, and no other. */
  lemma CountOneMore(d: set<nat>, t: nat, env: ClosingTabs, q: nat)
    requires t !in d
    ensures Count(d + {t}, env, q) == Count(d, env, q) + (if FastClosable(t, env) && env.processOf(t) == q then 1 else 0)
  {
    var before := set u | u in d && FastClosable(u, env) && env.processOf(u) == q;
    var after := set u | u in d + {t} && FastClosable(u, env) && env.processOf(u) == q;
    if FastClosable(t, env) && env.processOf(t) == q {
      assert after == before + {t};
    } else {
      assert after == before;
    }
  }

  /** Counting one more tab. */
  lemma CountsAdd(d: set<nat>, t: nat, env: ClosingTabs)
    requires t !in d
    ensures var p := env.processOf(t);
            Counts(d + {t}, env) ==
            if FastClosable(t, env) then Counts(d, env)[p := (if p in Counts(d, env) then Counts(d, env)[p] else 0) + 1]
            else Counts(d, env)
  {
    var p := env.processOf(t);
    var e := d + {t};
    var before := Counts(d, env);
    var after := Counts(e, env);
    if FastClosable(t, env) {
      assert Processes(e, env) == Processes(d, env) + {p};
      var expected := before[p := (if p in before then before[p] else 0) + 1];
      assert after.Keys == expected.Keys;
      forall q | q in after.Keys
        ensures after[q] == expected[q]
      {
        CountOneMore(d, t, env, q);
        if q == p && p !in before {
          CountZero(d, env, p);
        }
      }
    } else {
      assert Processes(e, env) == Processes(d, env);
      forall q | q in after.Keys
        ensures after[q] == before[q]
      {
        CountOneMore(d, t, env, q);
      }
    }
  }

  /** Process `p` is asked for a fast shutdown with count `c` iff the map gives it exactly that count. */
  lemma {:induction false} ShutdownIff(m: map<nat, nat>, p: nat, c: nat)
    ensures FastShutdown(p, c) in ShutdownEvents(m) <==> p in m && m[p] == c
    decreases |m|
  {
    if m != map[] {
      var q := UC.LeastOf(m.Keys);
      ShutdownIff(m - {q}, p, c);
    }
  }

  /** Each process holding a fast-closable tab is asked once, with the number of such tabs it holds. */
  lemma ShutdownCounts(s: set<nat>, env: ClosingTabs, t: nat)
    requires t in s && FastClosable(t, env)
    ensures FastShutdown(env.processOf(t), Count(s, env, env.processOf(t))) in ShutdownEvents(Counts(s, env))
  {
    ShutdownIff(Counts(s, env), env.processOf(t), Count(s, env, env.processOf(t)));
  }

  /** A tab is closed directly iff it is one of the tabs and the unload helper did not take it over. */
  lemma {:induction false} ClosedIff(s: set<nat>, env: ClosingTabs, t: nat)
    ensures Closed(t) in CloseEvents(s, env) <==> t in s && t !in env.runsHelper
    decreases |s|
  {
    if s != {} {
      var m := UC.LeastOf(s);
      ClosedIff(s - {m}, env, t);
    }
  }

  class Browser {
    /** The browser's address. */
    const id: nat
    /** `tabs_`. */
    var tabs: set<nat>
    /** The contents whose delegate is this browser. */
    var delegated: set<nat>
    var events: seq<Event>
    /** `unload_controller_`. */
    const unloadController: UC.UnloadController

    /** The constructor: the new browser is registered with the list as its last step. */
    constructor (id: nat, list: BL.BrowserList)
      modifies list
      ensures this.id == id && tabs == {} && delegated == {} && events == []
      ensures fresh(unloadController) && unloadController.Snapshot() == UC.State({}, {}, false, false, false, [])
      ensures list.browsers == old(list.browsers) + [id]
      ensures list.events == old(list.events) + [BL.KeepAliveRegistered(id), BL.BrowserAdded(id)]
    {
      this.id := id;
      tabs := {};
      delegated := {};
      events := [];
      unloadController := new UC.UnloadController();
      new;
      list.AddBrowser(id);
    }

    /** The destructor: the browser leaves the list as its first step. */
    method Destroy(list: BL.BrowserList)
      modifies list
      ensures list.browsers == BL.RemoveFirst(old(list.browsers), id)
      ensures list.events == old(list.events) + [BL.BrowserRemoved(id), BL.KeepAliveUnregistered(id)]
    {
      list.RemoveBrowser(id);
    }

    /** `AddWebContents`: the browser becomes the delegate, holds the contents, and notifies. */
    method AddWebContents(contents: nat)
      requires contents !in tabs
      modifies this
      ensures tabs == old(tabs) + {contents} && delegated == old(delegated) + {contents}
      ensures events == old(events) + [WebContentsAdded(contents)]
    {
      delegated := delegated + {contents};
      tabs := tabs + {contents};
      events := events + [WebContentsAdded(contents)];
    }

    /** `CreateWebContents`: a newly created contents (`created`) is added and returned. */
    method CreateWebContents(created: nat) returns (contents: nat)
      requires created !in tabs
      modifies this
      ensures contents == created && contents in tabs
      ensures tabs == old(tabs) + {created} && delegated == old(delegated) + {created}
      ensures events == old(events) + [WebContentsAdded(created)]
    {
      AddWebContents(created);
      contents := created;
    }

    /**
     * `RemoveWebContents`: an absent contents gives nothing; a present one
     * loses this browser as delegate, leaves the set, is reported removed,
     * and "empty" is reported when it was the last tab.
     */
    method RemoveWebContents(contents: nat) returns (r: Option<nat>)
      modifies this
      ensures contents !in old(tabs) ==> r == None && tabs == old(tabs) && delegated == old(delegated) && events == old(events)
      ensures contents in old(tabs) ==>
              r == Some(contents) && tabs == old(tabs) - {contents} && delegated == old(delegated) - {contents} &&
              events == old(events) + [WebContentsRemoved(contents)] + (if tabs == {} then [WebContentsEmpty] else [])
    {
      if contents !in tabs {
        return None;
      }
      delegated := delegated - {contents};
      tabs := tabs - {contents};
      events := events + [WebContentsRemoved(contents)];
      if tabs == {} {
        events := events + [WebContentsEmpty];
      }
      r := Some(contents);
    }

    /**
     * `OnWindowClosing`: count, per render process, the tabs that can go
     * without unload events, ask each process for a fast shutdown with its
     * count, then close every tab the unload helper does not take over.
     * Each `contents->Close()` is recorded as a `Closed` event: the close
     * that re-enters `CloseContents` at once and removes the tab is not
     * modelled here, so the tabs stay as they were.
     */
    method OnWindowClosing(env: ClosingTabs)
      modifies this
      ensures tabs == old(tabs) && delegated == old(delegated)
      ensures events == old(events) + ShutdownEvents(Counts(tabs, env)) + CloseEvents(tabs, env)
    {
      var counts := CountClosable(tabs, env);
      var shutdowns := ShutdownAll(counts);
      var closes := CloseAll(tabs, env);
      events := events + shutdowns + closes;
    }

    /** `CloseContents`: the contents is removed only when the unload controller's `CanCloseContents` allows it. */
    method CloseContents(source: nat, canClose: bool)
      modifies this
      ensures !canClose || source !in old(tabs) ==> tabs == old(tabs) && delegated == old(delegated) && events == old(events)
      ensures canClose && source in old(tabs) ==>
              tabs == old(tabs) - {source} && delegated == old(delegated) - {source} &&
              events == old(events) + [WebContentsRemoved(source)] + (if tabs == {} then [WebContentsEmpty] else [])
    {
      if canClose {
        var removed := RemoveWebContents(source);
      }
    }

    /**
     * `BeforeUnloadFired`: whether to go on to the unload event is the unload
     * controller's answer, and the controller's new state is the one its own
     * `BeforeUnloadFired` leaves.
     */
    method BeforeUnloadFired(contents: nat, proceed: bool, env: UC.Tabs) returns (proceedToFireUnload: bool)
      requires env.all == tabs && UC.Valid(unloadController.Snapshot()) && UC.Consistent(env)
      modifies unloadController
      ensures UC.Valid(unloadController.Snapshot())
      ensures !old(unloadController.closing) ==> proceedToFireUnload == proceed
      ensures old(unloadController.closing) ==>
              (proceedToFireUnload <==> proceed && contents !in old(unloadController.beforeUnload))
      ensures !old(unloadController.closing) ==>
              unloadController.Snapshot() ==
              old(unloadController.Snapshot()).(events := old(unloadController.events) +
                                                          (if proceed then [] else [UC.NotClosedByUserGesture(contents)]))
      ensures old(unloadController.closing) && !proceed ==>
              unloadController.Snapshot() ==
              old(unloadController.Snapshot()).(unload := {}, closing := false, confirming := false,
                                                events := old(unloadController.events) +
                                                          (if old(unloadController.confirming) then [UC.CloseConfirmed(false)] else []) +
                                                          [UC.ClosingAllBrowsers(false), UC.NotClosedByUserGesture(contents)])
      ensures old(unloadController.closing) && proceed && contents !in old(unloadController.beforeUnload) ==>
              unloadController.Snapshot() == old(unloadController.Snapshot())
      ensures old(unloadController.closing) && proceed && contents in old(unloadController.beforeUnload) ==>
              UC.Processed(old(unloadController.Snapshot()).(beforeUnload := old(unloadController.beforeUnload) - {contents},
                                                            unload := old(unloadController.unload) + {contents}),
                           false, env, unloadController.Snapshot())
    {
      proceedToFireUnload := unloadController.BeforeUnloadFired(contents, proceed, env);
    }
  }

  /** The counting pass of `OnWindowClosing`. */
  method CountClosable(tabs: set<nat>, env: ClosingTabs) returns (counts: map<nat, nat>)
    ensures counts == Counts(tabs, env)
  {
    counts := map[];
    var rest := tabs;
    assert Counts({}, env) == map[];
    while rest != {}
      invariant rest <= tabs
      invariant counts == Counts(tabs - rest, env)
      decreases rest
    {
      var t :| t in rest;
      CountsAdd(tabs - rest, t, env);
      assert (tabs - rest) + {t} == tabs - (rest - {t});
      if FastClosable(t, env) {
        var p := env.processOf(t);
        counts := counts[p := (if p in counts then counts[p] else 0) + 1];
      }
      rest := rest - {t};
    }
    assert tabs - rest == tabs;
  }

  /** The fast-shutdown pass of `OnWindowClosing`: one request per process of the map, in map order. */
  method ShutdownAll(counts: map<nat, nat>) returns (es: seq<Event>)
    ensures es == ShutdownEvents(counts)
  {
    var m := counts;
    es := [];
    while m != map[]
      invariant ShutdownEvents(counts) == es + ShutdownEvents(m)
      decreases |m|
    {
      var p := UC.First(m.Keys);
      es := es + [FastShutdown(p, m[p])];
      m := m - {p};
    }
  }

  /** The closing pass of `OnWindowClosing`: every tab, in order, unless the unload helper takes it. */
  method CloseAll(tabs: set<nat>, env: ClosingTabs) returns (es: seq<Event>)
    ensures es == CloseEvents(tabs, env)
  {
    var rest := tabs;
    es := [];
    while rest != {}
      invariant CloseEvents(tabs, env) == es + CloseEvents(rest, env)
      decreases |rest|
    {
      var t := UC.First(rest);
      if t !in env.runsHelper {
        es := es + [Closed(t)];
      }
      rest := rest - {t};
    }
  }
}
