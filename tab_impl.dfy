/**
 * The Java half of the Android tab bridge (TabImpl.java): one `long` field
 * holding the address of the native TabAndroid, 0 while unbound.
 */
module TabImpl {
  import opened Wrappers

  /** A call the native side makes on the Java tab. */
  datatype Call = SetNativePtr(ptr: int) | ClearNativePtr | GetNativePtr

  /**
   * One call on a handle `h`: `None` when a Java assertion of the call fails,
   * otherwise the handle afterwards.
   */
  function Step(h: int, c: Call): Option<int>
  {
    match c
    case SetNativePtr(p) => if p != 0 && h == 0 then Some(p) else None
    case ClearNativePtr => if h != 0 then Some(0) else None
    case GetNativePtr => Some(h)
  }

  /** A sequence of calls from handle `h`; `None` as soon as one assertion fails. */
  function Run(h: int, calls: seq<Call>): Option<int>
    decreases |calls|
  {
    if calls == [] then Some(h)
    else match Step(h, calls[0])
      case None => None
      case Some(h') => Run(h', calls[1..])
  }

  /** The calls that change the handle, in order. */
  function Mutations(calls: seq<Call>): (ms: seq<Call>)
    ensures forall i :: 0 <= i < |ms| ==> !ms[i].GetNativePtr?
    ensures |ms| <= |calls|
  {
    if calls == [] then []
    else if calls[0].GetNativePtr? then Mutations(calls[1..])
    else [calls[0]] + Mutations(calls[1..])
  }

  /**
   * Binds and clears alternate, starting with a bind of a non-zero address
   * when `bound` is false and with a clear when it is true.
   */
  predicate Alternating(bound: bool, ms: seq<Call>)
    decreases |ms|
  {
    ms == [] ||
    (if bound then ms[0].ClearNativePtr? && Alternating(false, ms[1..])
     else ms[0].SetNativePtr? && ms[0].ptr != 0 && Alternating(true, ms[1..]))
  }

  /** The Java tab object; the field is the only state the bridge touches. */
  class TabImpl {
    var nativeTabAndroid: int

    /** A new Java tab starts unbound. */
    constructor ()
      ensures nativeTabAndroid == 0
    {
      nativeTabAndroid := 0;
    }

    /** Returns the current handle (0 when unbound) and changes nothing. */
    method GetNativePtr() returns (p: int)
      ensures p == nativeTabAndroid
      ensures Step(nativeTabAndroid, Call.GetNativePtr) == Some(p)
    {
      p := nativeTabAndroid;
    }

    /** Clearing asserts that the tab is bound, so a double clear fails. */
    method ClearNativePtr()
      requires nativeTabAndroid != 0
      modifies this
      ensures nativeTabAndroid == 0
      ensures Step(old(nativeTabAndroid), Call.ClearNativePtr) == Some(nativeTabAndroid)
    {
      nativeTabAndroid := 0;
    }

    /** Binding asserts a non-zero address and an unbound tab, so a double bind fails. */
    method SetNativePtr(nativePtr: int)
      requires nativePtr != 0
      requires nativeTabAndroid == 0
      modifies this
      ensures nativeTabAndroid == nativePtr
      ensures Step(old(nativeTabAndroid), Call.SetNativePtr(nativePtr)) == Some(nativeTabAndroid)
    {
      nativeTabAndroid := nativePtr;
    }
  }

  /** A call fails exactly when the precondition of the matching method is false. */
  lemma StepFails(h: int, c: Call)
    ensures Step(h, c).None? <==>
      (c.SetNativePtr? && (c.ptr == 0 || h != 0)) || (c.ClearNativePtr? && h == 0)
    ensures Step(h, c).Some? && !c.GetNativePtr? ==> (Step(h, c).value == 0 <==> c.ClearNativePtr?)
  {
  }

  /**
   * A call sequence from a handle `h` runs without a failed assertion iff its
   * binds and clears alternate, and it then ends unbound iff the number of
   * binds and clears has the parity that brings `h` back to 0.
   */
  lemma {:induction false} RunAlternates(h: int, calls: seq<Call>)
    ensures Run(h, calls).Some? <==> Alternating(h != 0, Mutations(calls))
    ensures Run(h, calls).Some? ==>
      ((Run(h, calls).value != 0) <==> ((h != 0) != (|Mutations(calls)| % 2 == 1)))
    decreases |calls|
  {
    if calls != [] {
      var c := calls[0];
      assert Mutations(calls) == (if c.GetNativePtr? then [] else [c]) + Mutations(calls[1..]);
      match Step(h, c)
      case None =>
      case Some(h') =>
        RunAlternates(h', calls[1..]);
    }
  }

  /**
   * The lifetime of one native object: a bind of its address, any number of
   * reads, then one clear leave the Java tab unbound again.
   */
  lemma {:induction false} NativeLifetime(address: int, gets: nat)
    requires address != 0
    ensures Run(0, [SetNativePtr(address)] + Reads(gets) + [ClearNativePtr]) == Some(0)
  {
    var calls := [SetNativePtr(address)] + Reads(gets) + [ClearNativePtr];
    RunAlternates(0, calls);
    MutationsOfReads(gets, [ClearNativePtr]);
    assert calls == [SetNativePtr(address)] + (Reads(gets) + [ClearNativePtr]);
    assert calls[1..] == Reads(gets) + [ClearNativePtr];
    assert Mutations(calls) == [SetNativePtr(address), ClearNativePtr];
  }

  /** `n` reads of the handle. */
  function Reads(n: nat): (r: seq<Call>)
    ensures |r| == n && forall i :: 0 <= i < n ==> r[i] == GetNativePtr
  {
    if n == 0 then [] else [GetNativePtr] + Reads(n - 1)
  }

  lemma {:induction false} MutationsOfReads(n: nat, rest: seq<Call>)
    ensures Mutations(Reads(n) + rest) == Mutations(rest)
  {
    if n > 0 {
      var all := Reads(n) + rest;
      assert all[0] == GetNativePtr;
      assert all[1..] == Reads(n - 1) + rest;
      MutationsOfReads(n - 1, rest);
    } else {
      assert Reads(n) + rest == rest;
    }
  }
}
