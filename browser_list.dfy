/**
 * `BrowserList`: the process-wide vector of open browsers, in the order
 * they were added. Browsers are named by their addresses; the keep-alive a
 * browser registers and the observer notifications are recorded.
 */
module BrowserList {
  datatype Event =
    | KeepAliveRegistered(browser: nat)
    | BrowserAdded(browser: nat)
    | BrowserRemoved(browser: nat)
    | KeepAliveUnregistered(browser: nat)
    | Visited(browser: nat)     // the caller's function ran on `browser`

  /** The visits of `ForEachCurrentBrowser` over `v`, one per browser, in order. */
  function Visits(v: seq<nat>): (es: seq<Event>)
    ensures |es| == |v|
    ensures forall i :: 0 <= i < |v| ==> es[i] == Visited(v[i])
  {
    if v == [] then [] else [Visited(v[0])] + Visits(v[1..])
  }

  /** `v` without its first occurrence of `b`; `v` itself when `b` is absent. */
  function RemoveFirst(v: seq<nat>, b: nat): seq<nat>
  {
    if v == [] then []
    else if v[0] == b then v[1..]
    else [v[0]] + RemoveFirst(v[1..], b)
  }

  /** Removing an absent browser changes nothing. */
  lemma {:induction false} RemoveAbsent(v: seq<nat>, b: nat)
    requires b !in v
    ensures RemoveFirst(v, b) == v
  {
    if v != [] {
      assert b !in v[1..];
      RemoveAbsent(v[1..], b);
    }
  }

  /** Removing a present browser cuts out exactly its first occurrence and keeps the others in order. */
  lemma {:induction false} RemoveAt(v: seq<nat>, b: nat, i: nat)
    requires i < |v| && v[i] == b && b !in v[..i]
    ensures RemoveFirst(v, b) == v[..i] + v[i + 1..]
  {
    if i > 0 {
      assert v[0] in v[..i];
      assert v[1..][..i - 1] == v[1..i];
      assert b !in v[1..][..i - 1];
      RemoveAt(v[1..], b, i - 1);
      assert v[..i] == [v[0]] + v[1..][..i - 1];
      assert v[1..][i..] == v[i + 1..];
    }
  }

  /** Removing a present browser removes one occurrence: the multiset loses exactly `b`. */
  lemma {:induction false} RemoveFirstMultiset(v: seq<nat>, b: nat)
    ensures multiset(RemoveFirst(v, b)) == if b in v then multiset(v) - multiset{b} else multiset(v)
  {
    if v != [] {
      assert v == [v[0]] + v[1..];
      RemoveFirstMultiset(v[1..], b);
      if v[0] != b {
        assert b in v <==> b in v[1..];
      }
    }
  }

  /** `RemoveBrowserFrom`: find the first occurrence, erase it if found. */
  method RemoveBrowserFrom(b: nat, v: seq<nat>) returns (r: seq<nat>)
    ensures r == RemoveFirst(v, b)
  {
    var i := 0;
    while i < |v| && v[i] != b
      invariant i <= |v| && b !in v[..i]
    {
      assert v[..i + 1] == v[..i] + [v[i]];
      i := i + 1;
    }
    if i < |v| {
      RemoveAt(v, b, i);
      r := v[..i] + v[i + 1..];
    } else {
      assert v[..i] == v;
      RemoveAbsent(v, b);
      r := v;
    }
  }

  class BrowserList {
    /** `browsers_`. */
    var browsers: seq<nat>
    var events: seq<Event>

    constructor ()
      ensures browsers == [] && events == []
    {
      browsers := [];
      events := [];
    }

    /** `AddBrowser`: append at the end, then register the browser's keep-alive, then notify. */
    method AddBrowser(b: nat)
      modifies this
      ensures browsers == old(browsers) + [b]
      ensures events == old(events) + [KeepAliveRegistered(b), BrowserAdded(b)]
    {
      browsers := browsers + [b];
      events := events + [KeepAliveRegistered(b)];
      events := events + [BrowserAdded(b)];
    }

    /** `RemoveBrowser`: erase the first occurrence, notify, then drop the browser's keep-alive. */
    method RemoveBrowser(b: nat)
      modifies this
      ensures browsers == RemoveFirst(old(browsers), b)
      ensures events == old(events) + [BrowserRemoved(b), KeepAliveUnregistered(b)]
    {
      browsers := RemoveBrowserFrom(b, browsers);
      events := events + [BrowserRemoved(b)];
      events := events + [KeepAliveUnregistered(b)];
    }

    /**
     * `ForEachCurrentBrowser`: the function runs once on each browser of a
     * copy of the list taken at the start, from the oldest to the newest;
     * the list itself is left alone.
     */
    method ForEachCurrentBrowser()
      modifies this
      ensures browsers == old(browsers)
      ensures events == old(events) + Visits(old(browsers))
    {
      var copy := browsers;
      var i := 0;
      while i < |copy|
        invariant i <= |copy| && browsers == copy
        invariant events == old(events) + Visits(copy[..i])
      {
        VisitsStep(copy, i);
        events := events + [Visited(copy[i])];
        i := i + 1;
      }
      assert copy[..i] == copy;
    }
  }

  /** One more step of the walk over `v` adds the visit of `v[i]`. */
  lemma VisitsStep(v: seq<nat>, i: nat)
    requires i < |v|
    ensures Visits(v[..i + 1]) == Visits(v[..i]) + [Visited(v[i])]
  {
    assert v[..i + 1] == v[..i] + [v[i]];
    VisitsAppend(v[..i], v[i]);
  }

  /** Visiting one more browser adds its visit at the end. */
  lemma {:induction false} VisitsAppend(v: seq<nat>, b: nat)
    ensures Visits(v + [b]) == Visits(v) + [Visited(b)]
  {
    if v != [] {
      assert (v + [b])[1..] == v[1..] + [b];
      VisitsAppend(v[1..], b);
    }
  }

  /** Adding a browser that was not listed and removing it again restores the list. */
  lemma AppendThenRemove(v: seq<nat>, b: nat)
    requires b !in v
    ensures RemoveFirst(v + [b], b) == v
  {
    var w := v + [b];
    assert w[..|v|] == v;
    RemoveAt(w, b, |v|);
  }
}
