/**
 * `RadiumViewsDelegate`: the views delegate's reference count, which holds
 * one keep-alive while any reference is outstanding, and the defaults it fills
 * into a widget's init params. Native widgets are named by numbers; what the
 * native-widget factory and the platform's `CreateNativeWidget` produce are
 * inputs.
 */
module RadiumViewsDelegate {
  import opened Wrappers

  datatype KeepAliveEvent = KeepAliveAcquired | KeepAliveReleased

  datatype WindowOpacity = Inferred | Opaque | Translucent

  /** The fields of `views::Widget::InitParams` the delegate fills in. */
  class InitParams {
    var opacity: WindowOpacity
    var nativeWidget: Option<nat>

    constructor (opacity: WindowOpacity, nativeWidget: Option<nat>)
      ensures this.opacity == opacity && this.nativeWidget == nativeWidget
    {
      this.opacity := opacity;
      this.nativeWidget := nativeWidget;
    }
  }

  class RadiumViewsDelegate {
    /** `ref_count_`. */
    var refCount: nat
    /** Whether `keep_alive_` holds a `ScopedKeepAlive`. */
    var keepAlive: bool
    var events: seq<KeepAliveEvent>

    /** The keep-alive is held exactly while references are outstanding. */
    ghost predicate Valid()
      reads this
    {
      keepAlive <==> refCount > 0
    }

    constructor ()
      ensures Valid() && refCount == 0 && events == []
    {
      refCount := 0;
      keepAlive := false;
      events := [];
    }

    /** `AddRef`: the first reference acquires the keep-alive; every call counts. */
    method AddRef()
      requires Valid()
      modifies this
      ensures Valid() && refCount == old(refCount) + 1
      ensures events == old(events) + (if old(refCount) == 0 then [KeepAliveAcquired] else [])
    {
      if refCount == 0 {
        keepAlive := true;
        events := events + [KeepAliveAcquired];
      }
      refCount := refCount + 1;
    }

    /** `ReleaseRef`: a reference must be outstanding; the last one releases the keep-alive. */
    method ReleaseRef()
      requires Valid() && refCount > 0
      modifies this
      ensures Valid() && refCount == old(refCount) - 1
      ensures events == old(events) + (if refCount == 0 then [KeepAliveReleased] else [])
    {
      refCount := refCount - 1;
      if refCount == 0 {
        keepAlive := false;
        events := events + [KeepAliveReleased];
      }
    }

    /** `GetSavedWindowPlacement`: no placement is ever saved. */
    method GetSavedWindowPlacement(windowName: string) returns (r: bool)
      ensures !r
    {
      r := false;
    }

    /**
     * `OnBeforeWidgetInit`: an inferred opacity becomes opaque; a widget that
     * already has a native widget keeps it; otherwise the factory's widget is
     * used when the factory exists and produces one, and the platform's
     * `CreateNativeWidget` (`created`) otherwise.
     */
    method OnBeforeWidgetInit(params: InitParams, factory: bool, factoryResult: Option<nat>, created: nat)
      modifies params
      ensures params.opacity == if old(params.opacity) == Inferred then Opaque else old(params.opacity)
      ensures old(params.nativeWidget).Some? ==> params.nativeWidget == old(params.nativeWidget)
      ensures old(params.nativeWidget).None? && factory && factoryResult.Some? ==> params.nativeWidget == factoryResult
      ensures old(params.nativeWidget).None? && !(factory && factoryResult.Some?) ==> params.nativeWidget == Some(created)
      ensures params.nativeWidget.Some?
    {
      if params.opacity == Inferred {
        params.opacity := Opaque;
      }
      if params.nativeWidget.Some? {
        return;
      }
      if factory {
        params.nativeWidget := factoryResult;
        if params.nativeWidget.Some? {
          return;
        }
      }
      params.nativeWidget := Some(created);
    }
  }

  /** `n` references taken and given back: the keep-alive was acquired once and released once, and is no longer held. */
  method BalancedRefs(n: nat) returns (held: bool, events: seq<KeepAliveEvent>)
    requires n > 0
    ensures !held && events == [KeepAliveAcquired, KeepAliveReleased]
  {
    var d := new RadiumViewsDelegate();
    var k := 0;
    while k < n
      invariant k <= n && d.Valid() && d.refCount == k
      invariant d.events == if k == 0 then [] else [KeepAliveAcquired]
      modifies d
    {
      d.AddRef();
      k := k + 1;
    }
    while k > 0
      invariant d.Valid() && d.refCount == k
      invariant d.events == if k == 0 then [KeepAliveAcquired, KeepAliveReleased] else [KeepAliveAcquired]
      modifies d
    {
      d.ReleaseRef();
      k := k - 1;
    }
    held := d.keepAlive;
    events := d.events;
  }
}
