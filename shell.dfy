/**
 * `Shell`: the windows of the Android shell. A `ShellRegistry` holds what the
 * source keeps in statics and globals: the `windows_` list, the one-shot
 * shell-created callback, whether the platform delegate `g_platform` exists,
 * and the main message loop's quit closure. Web contents and callbacks are
 * named by numbers; what the platform and the navigation controller do is
 * recorded as events and navigations. The Android build is modelled, where
 * the platform never destroys a shell itself.
 */
module Shell {
  import opened Wrappers

  /** `gfx::Size`; a size with a zero side is empty. */
  datatype Size = Size(width: nat, height: nat)
  {
    predicate IsEmpty() { width == 0 || height == 0 }
  }

  /** `kDefaultTestWindowWidthDip`, `kDefaultTestWindowHeightDip`. */
  const DefaultWidth: nat := 800
  const DefaultHeight: nat := 600

  /** `GetShellDefaultSize`: the cached default is set once and never changes afterwards. */
  function GetShellDefaultSize(): (s: Size)
    ensures !s.IsEmpty()
  {
    Size(DefaultWidth, DefaultHeight)
  }

  /** `AdjustWindowSize`: a non-empty size is kept, an empty one becomes the default. */
  function AdjustWindowSize(initial: Size): (r: Size)
    ensures !r.IsEmpty()
    ensures !initial.IsEmpty() ==> r == initial
    ensures initial.IsEmpty() ==> r == GetShellDefaultSize()
  {
    if !initial.IsEmpty() then initial else GetShellDefaultSize()
  }

  /** Adjusting an adjusted size changes nothing. */
  lemma AdjustWindowSizeIdempotent(initial: Size)
    ensures AdjustWindowSize(AdjustWindowSize(initial)) == AdjustWindowSize(initial)
  {
  }

  /** The buttons `UpdateNavigationControls` enables. */
  datatype Controls = Controls(back: bool, forward: bool, stop: bool)

  /**
   * `UpdateNavigationControls`: back when there is an entry before the
   * current one, forward when there is one after it, stop when loading UI
   * is wanted and the contents is loading. An empty history has current
   * index -1.
   */
  function NavigationControls(currentIndex: int, entryCount: nat, showLoadingUI: bool, isLoading: bool): (c: Controls)
    ensures c.back <==> currentIndex > 0
    ensures c.forward <==> currentIndex < entryCount - 1
    ensures c.stop <==> showLoadingUI && isLoading
  {
    var maxIndex := entryCount - 1;
    Controls(currentIndex > 0, currentIndex < maxIndex, showLoadingUI && isLoading)
  }

  /**
   * On a history with a valid current entry, both directions are disabled
   * exactly when the history holds one entry, and an empty history
   * enables neither.
   */
  lemma NavigationControlsAtEnds(currentIndex: int, entryCount: nat, showLoadingUI: bool, isLoading: bool)
    ensures var c := NavigationControls(currentIndex, entryCount, showLoadingUI, isLoading);
            (0 <= currentIndex < entryCount ==> (!c.back && !c.forward <==> entryCount == 1)) &&
            (entryCount == 0 && currentIndex == -1 ==> !c.back && !c.forward) &&
            (0 <= currentIndex == entryCount - 1 ==> !c.forward)
  {
  }

  /** `WindowOpenDisposition`. */
  datatype Disposition =
    | Unknown | CurrentTab | SingletonTab | NewForegroundTab | NewBackgroundTab | NewPopup
    | NewWindow | SaveToDisk | OffTheRecord | IgnoreAction | SwitchToTab | NewPictureInPicture

  /** The dispositions `OpenURLFromTab` serves with a new window: popups, windows and both kinds of tab. */
  predicate OpensNewWindow(d: Disposition)
  {
    d.NewPopup? || d.NewWindow? || d.NewBackgroundTab? || d.NewForegroundTab?
  }

  /** `ui::PAGE_TRANSITION_TYPED | ui::PAGE_TRANSITION_FROM_ADDRESS_BAR`. */
  const TypedFromAddressBar: nat := 0x0200_0001

  /** The header of the data URL `LoadDataWithBaseURLInternal` builds. */
  const DataUrlHeader: string := "data:text/html;charset=utf-8,"

  /** The parameters of a data load: the URL, the data URL as a string (Android only), the base URL and the virtual URL. */
  datatype DataParams = DataParams(url: string, dataUrlAsString: Option<string>, baseUrl: string, virtualUrl: string)

  /** The data URL a load delivers: the string when one is carried, otherwise the URL. */
  function DeliveredDataUrl(p: DataParams): string
  {
    if p.dataUrlAsString.Some? then p.dataUrlAsString.value else p.url
  }

  /**
   * `LoadDataWithBaseURLInternal`'s parameters: loading as a string puts the
   * bare header in the URL and the whole data URL in the string; otherwise
   * the data is part of the URL.
   */
  function DataLoadParams(url: string, data: string, baseUrl: string, loadAsString: bool): (p: DataParams)
    ensures p.baseUrl == baseUrl && p.virtualUrl == url
    ensures p.dataUrlAsString.Some? <==> loadAsString
    ensures loadAsString ==> p.url == DataUrlHeader
  {
    if loadAsString then DataParams(DataUrlHeader, Some(DataUrlHeader + data), baseUrl, url)
    else DataParams(DataUrlHeader + data, None, baseUrl, url)
  }

  /** Both ways of loading deliver the same data URL, the header followed by the data, from which the data is recovered. */
  lemma DataUrlRoundTrip(url: string, data: string, baseUrl: string, loadAsString: bool)
    ensures var d := DeliveredDataUrl(DataLoadParams(url, data, baseUrl, loadAsString));
            d == DeliveredDataUrl(DataLoadParams(url, data, baseUrl, !loadAsString)) &&
            |d| == |DataUrlHeader| + |data| &&
            d[..|DataUrlHeader|] == DataUrlHeader && d[|DataUrlHeader|..] == data
  {
    var d := DataUrlHeader + data;
    assert d[..|DataUrlHeader|] == DataUrlHeader;
    assert d[|DataUrlHeader|..] == data;
  }

  /** What a shell's navigation controller was asked to load. */
  datatype Navigation =
    | UrlLoad(url: string, frameName: string, transition: nat)
    | DataLoad(params: DataParams)

  datatype Event =
    | PlatformInitialized(size: Size)          // `g_platform->Initialize`
    | CreatedCallbackRun(callback: nat, contents: nat)
    | Closed(contents: nat)                    // `~Shell`
    | DetachedAllClients                       // `DevToolsAgentHost::DetachAllClients`
    | PlatformDeleted                          // `delete g_platform`
    | QuitRan(closure: nat)                    // the main message loop's quit closure ran
    | NavigationCallbackRun(callback: nat)     // `OpenURLFromTab`'s navigation-handle callback

  /** A shell window: its web contents, its platform window size, its fullscreen flag and its loads. */
  class Shell {
    const contents: nat
    /** Whether the shell was made the contents' delegate. */
    const hasDelegate: bool
    var size: Size
    /** `is_fullscreen_`. */
    var isFullscreen: bool
    var navigations: seq<Navigation>

    constructor (contents: nat, hasDelegate: bool, size: Size)
      ensures this.contents == contents && this.hasDelegate == hasDelegate && this.size == size
      ensures !isFullscreen && navigations == []
    {
      this.contents := contents;
      this.hasDelegate := hasDelegate;
      this.size := size;
      isFullscreen := false;
      navigations := [];
    }

    /** `LoadURL`: a typed load from the address bar into the main frame. */
    method LoadURL(url: string)
      modifies this
      ensures navigations == old(navigations) + [UrlLoad(url, "", TypedFromAddressBar)]
      ensures isFullscreen == old(isFullscreen) && size == old(size)
    {
      navigations := navigations + [UrlLoad(url, "", TypedFromAddressBar)];
    }

    /** `LoadDataWithBaseURL` (`loadAsString` false) and `LoadDataAsStringWithBaseURL` (true). */
    method LoadDataWithBaseURL(url: string, data: string, baseUrl: string, loadAsString: bool)
      modifies this
      ensures navigations == old(navigations) + [DataLoad(DataLoadParams(url, data, baseUrl, loadAsString))]
      ensures isFullscreen == old(isFullscreen) && size == old(size)
    {
      navigations := navigations + [DataLoad(DataLoadParams(url, data, baseUrl, loadAsString))];
    }

    /**
     * `ToggleFullscreenModeForTab`: the flag takes the requested state; the
     * visual properties are synchronised only when it changed.
     */
    method ToggleFullscreenModeForTab(enterFullscreen: bool) returns (synced: bool)
      modifies this
      ensures isFullscreen == enterFullscreen
      ensures synced <==> old(isFullscreen) != enterFullscreen
      ensures navigations == old(navigations) && size == old(size)
    {
      synced := false;
      if isFullscreen != enterFullscreen {
        isFullscreen := enterFullscreen;
        synced := true;
      }
    }
  }

  /** The first occurrence of `x` removed from `v`. */
  function RemoveFirst(v: seq<Shell>, x: Shell): (r: seq<Shell>)
    ensures x !in v ==> r == v
    ensures x in v ==> |r| == |v| - 1
  {
    if v == [] then []
    else if v[0] == x then v[1..]
    else [v[0]] + RemoveFirst(v[1..], x)
  }

  /** No shell appears twice. */
  predicate Distinct(v: seq<Shell>)
  {
    forall i, j :: 0 <= i < j < |v| ==> v[i] != v[j]
  }

  /** In a list without repeats, removing the last shell leaves the rest. */
  lemma {:induction false} RemoveFirstOfLast(v: seq<Shell>)
    requires v != [] && Distinct(v)
    ensures RemoveFirst(v, v[|v| - 1]) == v[..|v| - 1]
    decreases |v|
  {
    if |v| > 1 {
      assert v[0] != v[|v| - 1];
      assert Distinct(v[1..]) by {
        forall i, j | 0 <= i < j < |v[1..]| ensures v[1..][i] != v[1..][j] {
          assert v[1..][i] == v[i + 1] && v[1..][j] == v[j + 1];
        }
      }
      RemoveFirstOfLast(v[1..]);
      assert v[1..][|v[1..]| - 1] == v[|v| - 1];
      assert v[..|v| - 1] == [v[0]] + v[1..][..|v[1..]| - 1];
    }
  }

  /** Removing the first `x`, found at index `i`, splices it out. */
  lemma {:induction false} RemoveFirstAt(v: seq<Shell>, x: Shell, i: nat)
    requires i < |v| && v[i] == x && forall j :: 0 <= j < i ==> v[j] != x
    ensures RemoveFirst(v, x) == v[..i] + v[i + 1..]
    decreases i
  {
    if i > 0 {
      var t := v[1..];
      assert forall j :: 0 <= j < i - 1 ==> t[j] == v[j + 1];
      RemoveFirstAt(t, x, i - 1);
      assert t[..i - 1] + t[i..] == v[1..i] + v[i + 1..];
      assert v[..i] == [v[0]] + v[1..i];
    }
  }

  /** The index of the first `x` in `v`, or `|v|` when there is none. */
  method FirstIndex(v: seq<Shell>, x: Shell) returns (i: nat)
    ensures i <= |v| && (i < |v| ==> v[i] == x)
    ensures forall j :: 0 <= j < i ==> v[j] != x
  {
    i := 0;
    while i < |v|
      invariant i <= |v|
      invariant forall j :: 0 <= j < i ==> v[j] != x
    {
      if v[i] == x {
        return;
      }
      i := i + 1;
    }
  }

  /** Removal keeps a list without repeats free of repeats, and the removed shell is gone. */
  lemma {:induction false} RemoveFirstDistinct(v: seq<Shell>, x: Shell)
    requires Distinct(v)
    ensures Distinct(RemoveFirst(v, x)) && x !in RemoveFirst(v, x)
    ensures forall y :: y in RemoveFirst(v, x) ==> y in v
    decreases |v|
  {
    if v != [] && v[0] != x {
      assert Distinct(v[1..]) by {
        forall i, j | 0 <= i < j < |v[1..]| ensures v[1..][i] != v[1..][j] {
          assert v[1..][i] == v[i + 1] && v[1..][j] == v[j + 1];
        }
      }
      RemoveFirstDistinct(v[1..], x);
      var r := RemoveFirst(v[1..], x);
      assert v[0] !in v[1..];
    } else if v != [] {
      assert forall k :: 0 <= k < |v[1..]| ==> v[1..][k] == v[k + 1];
    }
  }

  /** The `Closed` events of closing `ws` from the back to the front. */
  function ClosedBackToFront(ws: seq<Shell>): (es: seq<Event>)
    ensures |es| == |ws|
  {
    if ws == [] then [] else ClosedBackToFront(ws[1..]) + [Closed(ws[0].contents)]
  }

  /** `Shutdown` once no window is left: clients detached, the platform deleted, the quit closure run if set. */
  function ShutdownTail(quit: Option<nat>): (es: seq<Event>)
    ensures |es| == 2 + (if quit.Some? then 1 else 0)
    ensures es[..2] == [DetachedAllClients, PlatformDeleted]
  {
    [DetachedAllClients, PlatformDeleted] + (if quit.Some? then [QuitRan(quit.value)] else [])
  }

  /** The created callback's run, if one was set. */
  function CreatedEvents(callback: Option<nat>, contents: nat): (es: seq<Event>)
    ensures |es| <= 1 && (es != [] <==> callback.Some?)
  {
    if callback.Some? then [CreatedCallbackRun(callback.value, contents)] else []
  }

  /** The navigation-handle callback's run, if one was given and a navigation started. */
  function NavigationCallbackEvents(callback: Option<nat>, handleNonNull: bool): (es: seq<Event>)
    ensures es != [] <==> callback.Some? && handleNonNull
  {
    if callback.Some? && handleNonNull then [NavigationCallbackRun(callback.value)] else []
  }

  /** The shell statics and globals. */
  class ShellRegistry {
    /** `Shell::windows_`. */
    var windows: seq<Shell>
    /** `shell_created_callback_`. */
    var createdCallback: Option<nat>
    /** Whether `g_platform` is set. */
    var platform: bool
    /** The main message loop's quit closure. */
    var quit: Option<nat>
    var events: seq<Event>

    /** Windows are listed once each, and only while the platform exists. */
    ghost predicate Valid()
      reads this
    {
      Distinct(windows) && (windows != [] ==> platform)
    }

    constructor ()
      ensures Valid() && windows == [] && createdCallback == None && !platform && quit == None && events == []
    {
      windows := [];
      createdCallback := None;
      platform := false;
      quit := None;
      events := [];
    }

    /** `Initialize`: the platform must not exist yet; it is created and given the default size. */
    method Initialize()
      requires Valid() && !platform
      modifies this
      ensures Valid() && platform
      ensures events == old(events) + [PlatformInitialized(GetShellDefaultSize())]
      ensures windows == old(windows) && createdCallback == old(createdCallback) && quit == old(quit)
    {
      platform := true;
      events := events + [PlatformInitialized(GetShellDefaultSize())];
    }

    /** `SetMainMessageLoopQuitClosure`. */
    method SetMainMessageLoopQuitClosure(closure: nat)
      requires Valid()
      modifies this
      ensures Valid() && quit == Some(closure)
      ensures windows == old(windows) && platform == old(platform) && createdCallback == old(createdCallback) && events == old(events)
    {
      quit := Some(closure);
    }

    /** `QuitMainMessageLoopForTesting`: a set quit closure runs and is used up. */
    method QuitMainMessageLoopForTesting()
      requires Valid()
      modifies this
      ensures Valid() && quit == None
      ensures old(quit).Some? ==> events == old(events) + [QuitRan(old(quit).value)]
      ensures old(quit).None? ==> events == old(events)
      ensures windows == old(windows) && platform == old(platform) && createdCallback == old(createdCallback)
    {
      if quit.Some? {
        events := events + [QuitRan(quit.value)];
        quit := None;
      }
    }

    /** `SetShellCreatedCallback`: no callback may be waiting already. */
    method SetShellCreatedCallback(callback: nat)
      requires Valid() && createdCallback == None
      modifies this
      ensures Valid() && createdCallback == Some(callback)
      ensures windows == old(windows) && platform == old(platform) && quit == old(quit) && events == old(events)
    {
      createdCallback := Some(callback);
    }

    /**
     * `CreateShell` (with the `Shell` constructor): a new shell on the
     * contents joins the end of `windows_`, gets a platform window of
     * `initialSize`, and a waiting created callback runs with it once.
     */
    method CreateShell(contents: nat, initialSize: Size, shouldSetDelegate: bool) returns (s: Shell)
      requires Valid() && platform
      modifies this
      ensures Valid() && fresh(s)
      ensures s.contents == contents && s.hasDelegate == shouldSetDelegate && s.size == initialSize
      ensures !s.isFullscreen && s.navigations == []
      ensures windows == old(windows) + [s]
      ensures createdCallback == None
      ensures events == old(events) + CreatedEvents(old(createdCallback), contents)
      ensures platform && quit == old(quit)
    {
      s := new Shell(contents, shouldSetDelegate, initialSize);
      windows := windows + [s];
      if createdCallback.Some? {
        events := events + [CreatedCallbackRun(createdCallback.value, contents)];
        createdCallback := None;
      }
    }

    /** `CreateNewWindow`: a delegate-owning shell of the adjusted size, loading `url` unless it is empty. */
    method CreateNewWindow(contents: nat, url: string, initialSize: Size) returns (s: Shell)
      requires Valid() && platform
      modifies this
      ensures Valid() && fresh(s)
      ensures s.contents == contents && s.hasDelegate && s.size == AdjustWindowSize(initialSize) && !s.isFullscreen
      ensures url == "" ==> s.navigations == []
      ensures url != "" ==> s.navigations == [UrlLoad(url, "", TypedFromAddressBar)]
      ensures windows == old(windows) + [s] && createdCallback == None
      ensures events == old(events) + CreatedEvents(old(createdCallback), contents)
      ensures platform && quit == old(quit)
    {
      s := CreateShell(contents, AdjustWindowSize(initialSize), true);
      if url != "" {
        s.LoadURL(url);
      }
    }

    /** `AddNewContents`: the new contents gets its own shell; nothing is returned. */
    method AddNewContents(newContents: nat, requestedSize: Size, delayPopupDelegate: bool) returns (s: Shell)
      requires Valid() && platform
      modifies this
      ensures Valid() && fresh(s)
      ensures s.contents == newContents && s.size == AdjustWindowSize(requestedSize) && s.hasDelegate == !delayPopupDelegate
      ensures windows == old(windows) + [s] && createdCallback == None
      ensures events == old(events) + CreatedEvents(old(createdCallback), newContents)
      ensures platform && quit == old(quit)
    {
      s := CreateShell(newContents, AdjustWindowSize(requestedSize), !delayPopupDelegate);
    }

    /** `FromWebContents`: the first window on the contents, or null. */
    method FromWebContents(contents: nat) returns (r: Shell?)
      ensures r == null <==> forall i :: 0 <= i < |windows| ==> windows[i].contents != contents
      ensures r != null ==> exists i :: 0 <= i < |windows| && windows[i] == r && r.contents == contents &&
                                         forall j :: 0 <= j < i ==> windows[j].contents != contents
    {
      var i := 0;
      while i < |windows|
        invariant 0 <= i <= |windows|
        invariant forall j :: 0 <= j < i ==> windows[j].contents != contents
      {
        if windows[i].contents == contents {
          return windows[i];
        }
        i := i + 1;
      }
      r := null;
    }

    /**
     * `~Shell`: the shell's first occurrence leaves `windows_`; when no
     * window is left the platform's `DidCloseLastWindow` runs `Shutdown`,
     * which with no windows detaches the clients, deletes the platform and
     * runs the quit closure.
     */
    method DestroyShell(s: Shell)
      requires Valid() && platform
      modifies this
      ensures Valid()
      ensures windows == RemoveFirst(old(windows), s) && createdCallback == old(createdCallback)
      ensures windows != [] ==> platform && quit == old(quit) && events == old(events) + [Closed(s.contents)]
      ensures windows == [] ==> !platform && quit == None &&
                                events == old(events) + [Closed(s.contents)] + ShutdownTail(old(quit))
    {
      RemoveFirstDistinct(windows, s);
      var i := FirstIndex(windows, s);
      if i < |windows| {
        RemoveFirstAt(windows, s, i);
        windows := windows[..i] + windows[i + 1..];
      }
      events := events + [Closed(s.contents)];
      if windows == [] {
        events := events + ShutdownTail(quit);
        platform := false;
        quit := None;
      }
    }

    /** `Close`: the Android platform never destroys a shell itself, so the shell deletes itself. */
    method Close(s: Shell)
      requires Valid() && platform
      modifies this
      ensures Valid()
      ensures windows == RemoveFirst(old(windows), s) && createdCallback == old(createdCallback)
      ensures windows != [] ==> platform && quit == old(quit) && events == old(events) + [Closed(s.contents)]
      ensures windows == [] ==> !platform && quit == None &&
                                events == old(events) + [Closed(s.contents)] + ShutdownTail(old(quit))
    {
      DestroyShell(s);
    }

    /**
     * `Shutdown`: nothing happens once the platform is gone; otherwise the
     * clients are detached, the windows are closed from the last to the
     * first (closing the last one runs the rest of the shutdown), and the
     * platform is deleted and the quit closure run, if that has not
     * happened yet.
     */
    method Shutdown()
      requires Valid()
      modifies this
      ensures Valid() && windows == [] && !platform && createdCallback == old(createdCallback)
      ensures !old(platform) ==> quit == old(quit) && events == old(events)
      ensures old(platform) && old(windows) == [] ==> quit == None && events == old(events) + ShutdownTail(old(quit))
      ensures old(platform) && old(windows) != [] ==>
                quit == None &&
                events == old(events) + [DetachedAllClients] + ClosedBackToFront(old(windows)) + ShutdownTail(old(quit))
    {
      if !platform {
        return;
      }
      events := events + [DetachedAllClients];
      CloseAllWindows();
      DeletePlatform();
    }

    /** `Shutdown`'s loop: windows are closed from the newest until none is left. */
    method CloseAllWindows()
      requires Valid() && platform
      modifies this
      ensures Valid() && windows == [] && createdCallback == old(createdCallback)
      ensures old(windows) == [] ==> platform && quit == old(quit) && events == old(events)
      ensures old(windows) != [] ==>
                !platform && quit == None && events == old(events) + ClosedBackToFront(old(windows)) + ShutdownTail(old(quit))
    {
      while windows != []
        invariant Valid() && createdCallback == old(createdCallback)
        invariant |windows| <= |old(windows)| && windows == old(windows)[..|windows|]
        invariant platform <==> windows != [] || old(windows) == []
        invariant quit == if platform then old(quit) else None
        invariant events == old(events) + ClosedBackToFront(old(windows)[|windows|..]) +
                            (if platform then [] else ShutdownTail(old(quit)))
        decreases |windows|
      {
        ghost var k := |windows|;
        assert old(windows)[k - 1..][1..] == old(windows)[k..];
        CloseLast();
      }
    }

    /** One turn of `Shutdown`'s loop: the newest window is closed. */
    method CloseLast()
      requires Valid() && windows != []
      modifies this
      ensures Valid() && createdCallback == old(createdCallback)
      ensures windows == old(windows)[..|old(windows)| - 1]
      ensures platform <==> windows != []
      ensures quit == if platform then old(quit) else None
      ensures events == old(events) + [Closed(old(windows)[|old(windows)| - 1].contents)] +
                        (if platform then [] else ShutdownTail(old(quit)))
    {
      var last := windows[|windows| - 1];
      RemoveFirstOfLast(windows);
      Close(last);
    }

    /** The end of `Shutdown`: a platform still present is deleted and the quit closure, if set, runs. */
    method DeletePlatform()
      modifies this
      ensures !platform && windows == old(windows) && createdCallback == old(createdCallback)
      ensures !old(platform) ==> quit == old(quit) && events == old(events)
      ensures old(platform) ==> quit == None &&
                                events == old(events) + [PlatformDeleted] + (if old(quit).Some? then [QuitRan(old(quit).value)] else [])
    {
      if platform {
        events := events + [PlatformDeleted];
        platform := false;
        if quit.Some? {
          events := events + [QuitRan(quit.value)];
          quit := None;
        }
      }
    }

    /**
     * `OpenURLFromTab`: the current tab loads in the source shell; popup,
     * window and tab dispositions open a new window of the default size on
     * `newContents` and load there; every other disposition opens nothing
     * and loads nothing. The navigation-handle callback runs when a
     * navigation started.
     */
    method OpenURLFromTab(source: Shell, url: string, transition: nat, disposition: Disposition,
                          newContents: nat, handleNonNull: bool, callback: Option<nat>)
      returns (target: Shell?)
      requires Valid() && platform
      modifies this, source
      ensures Valid() && platform && quit == old(quit)
      ensures disposition.CurrentTab? ==>
                target == source && windows == old(windows) && createdCallback == old(createdCallback) &&
                source.navigations == old(source.navigations) + [UrlLoad(url, "", transition)] &&
                events == old(events) + NavigationCallbackEvents(callback, handleNonNull)
      ensures OpensNewWindow(disposition) ==>
                target != null && fresh(target) && windows == old(windows) + [target] && createdCallback == None &&
                target.contents == newContents && target.size == GetShellDefaultSize() && target.hasDelegate &&
                target.navigations == [UrlLoad(url, "", transition)] &&
                source.navigations == old(source.navigations) &&
                events == old(events) + CreatedEvents(old(createdCallback), newContents) + NavigationCallbackEvents(callback, handleNonNull)
      ensures !disposition.CurrentTab? && !OpensNewWindow(disposition) ==>
                target == null && windows == old(windows) && createdCallback == old(createdCallback) &&
                source.navigations == old(source.navigations) && events == old(events)
    {
      if disposition.CurrentTab? {
        target := source;
      } else if OpensNewWindow(disposition) {
        target := CreateNewWindow(newContents, "", Size(0, 0));
      } else {
        return null;
      }
      target.navigations := target.navigations + [UrlLoad(url, "", transition)];
      if callback.Some? && handleNonNull {
        events := events + [NavigationCallbackRun(callback.value)];
      }
    }
  }

  /** Two shells created after one callback was set: only the first is reported. */
  method CreatedCallbackRunsOnce(callback: nat, first: nat, second: nat) returns (events: seq<Event>, count: nat)
    ensures events == [PlatformInitialized(Size(800, 600)), CreatedCallbackRun(callback, first)]
    ensures count == 2
  {
    var r := new ShellRegistry();
    r.Initialize();
    r.SetShellCreatedCallback(callback);
    var a := r.CreateShell(first, Size(0, 0), true);
    var b := r.CreateShell(second, Size(0, 0), true);
    events, count := r.events, |r.windows|;
  }

  /** Closing the only window shuts the shell down and quits the main loop; a later `Shutdown` does nothing. */
  method LastCloseShutsDown(contents: nat, closure: nat) returns (events: seq<Event>, platformLeft: bool)
    ensures events == [PlatformInitialized(Size(800, 600)), Closed(contents), DetachedAllClients, PlatformDeleted, QuitRan(closure)]
    ensures !platformLeft
  {
    var r := new ShellRegistry();
    r.Initialize();
    r.SetMainMessageLoopQuitClosure(closure);
    var s := r.CreateShell(contents, Size(10, 10), true);
    r.Close(s);
    r.Shutdown();
    events, platformLeft := r.events, r.platform;
  }

  /** `Shutdown` closes the newest window first and quits once. */
  method ShutdownClosesNewestFirst(a: nat, b: nat, closure: nat) returns (events: seq<Event>)
    ensures events == [PlatformInitialized(Size(800, 600)), DetachedAllClients, Closed(b), Closed(a),
                       DetachedAllClients, PlatformDeleted, QuitRan(closure)]
  {
    var r := new ShellRegistry();
    r.Initialize();
    r.SetMainMessageLoopQuitClosure(closure);
    var sa := r.CreateShell(a, Size(0, 0), true);
    var sb := r.CreateShell(b, Size(0, 0), true);
    r.Shutdown();
    events := r.events;
  }

  /** Two shells on the same contents: `FromWebContents` finds the older one. */
  method FromWebContentsFindsFirst(contents: nat) returns (isFirst: bool, other: bool)
    ensures isFirst && !other
  {
    var r := new ShellRegistry();
    r.Initialize();
    var a := r.CreateShell(contents, Size(0, 0), true);
    var b := r.CreateShell(contents, Size(0, 0), true);
    assert r.windows == [a, b];
    var found := r.FromWebContents(contents);
    assert r.windows[0] == a && a.contents == contents;
    var missing := r.FromWebContents(contents + 1);
    isFirst := found == a;
    other := missing != null;
  }

  /** Requesting the same fullscreen state twice synchronises only once. */
  method FullscreenTwice(enter: bool) returns (first: bool, second: bool)
    ensures first == enter && !second
  {
    var s := new Shell(0, true, Size(800, 600));
    assert !s.isFullscreen;
    first := s.ToggleFullscreenModeForTab(enter);
    assert s.isFullscreen == enter;
    second := s.ToggleFullscreenModeForTab(enter);
  }
}
