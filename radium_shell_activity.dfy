/**
 * RadiumShellActivity.java: the launcher activity. `onCreate` starts the
 * browser process asynchronously; the startup callback either launches a
 * shell with the resolved URL or reports the failure and finishes.
 * Framework calls are recorded as events; the saved-instance `Bundle` is a
 * string map, absent when the activity starts fresh.
 */
module RadiumShellActivity {
  import opened Wrappers

  const ActiveShellUrlKey: string := "activeUrl"
  const ConfiguredStartupUrl: string := "https://pc.weixin.qq.com"

  type Bundle = map<string, string>

  datatype ProcessType = ProcessBrowser

  /** A framework call made by the activity. */
  datatype Event =
    | EnsureLibraryInitialized
    | StartBrowserProcessesAsync(processType: ProcessType, startGpuProcess: bool, startMinimalBrowser: bool)
    | LaunchShell(url: string)
    | LogError
    | ShowShortToast
    | Finish

  /**
   * The shell URL by precedence: a URL saved under "activeUrl" first, then a
   * non-empty configured startup URL, then the default shell URL.
   */
  function ResolveShellUrl(startupUrl: string, defaultShellUrl: string, saved: Option<Bundle>): (url: string)
  {
    if saved.Some? && ActiveShellUrlKey in saved.value then saved.value[ActiveShellUrlKey]
    else if startupUrl != "" then startupUrl
    else defaultShellUrl
  }

  /** The saved URL overrides both other choices, whatever they are. */
  lemma SavedUrlWins(startupUrl: string, defaultShellUrl: string, b: Bundle)
    requires ActiveShellUrlKey in b
    ensures ResolveShellUrl(startupUrl, defaultShellUrl, Some(b)) == b[ActiveShellUrlKey]
    ensures forall s, d :: ResolveShellUrl(s, d, Some(b)) == ResolveShellUrl(startupUrl, defaultShellUrl, Some(b))
  {
  }

  /** Without a saved URL, the configured URL is chosen iff it is non-empty. */
  lemma ConfiguredThenDefault(startupUrl: string, defaultShellUrl: string, saved: Option<Bundle>)
    requires saved.None? || ActiveShellUrlKey !in saved.value
    ensures startupUrl != "" ==> ResolveShellUrl(startupUrl, defaultShellUrl, saved) == startupUrl
    ensures startupUrl == "" ==> ResolveShellUrl(startupUrl, defaultShellUrl, saved) == defaultShellUrl
  {
  }

  class RadiumShellActivity {
    var startupUrl: string
    var savedInstanceState: Option<Bundle>
    /** A startup request whose callback has not run yet. */
    var startupPending: bool
    var finished: bool
    var events: seq<Event>

    constructor ()
      ensures startupUrl == "" && savedInstanceState.None? && !startupPending && !finished && events == []
    {
      startupUrl := "";
      savedInstanceState := None;
      startupPending := false;
      finished := false;
      events := [];
    }

    /** `onCreate`: initialise the library, fix the startup URL, request one asynchronous browser start. */
    method OnCreate(state: Option<Bundle>)
      modifies this
      ensures startupUrl == ConfiguredStartupUrl
      ensures savedInstanceState == state && startupPending && finished == old(finished)
      ensures events == old(events) +
        [EnsureLibraryInitialized, StartBrowserProcessesAsync(ProcessBrowser, true, false)]
    {
      events := events + [EnsureLibraryInitialized];
      startupUrl := ConfiguredStartupUrl;
      savedInstanceState := state;
      events := events + [StartBrowserProcessesAsync(ProcessBrowser, true, false)];
      startupPending := true;
    }

    /** `finishInitialization`: pick the URL step by step, then launch exactly one shell. */
    method FinishInitialization(state: Option<Bundle>, defaultShellUrl: string)
      modifies this
      ensures events == old(events) + [LaunchShell(ResolveShellUrl(startupUrl, defaultShellUrl, state))]
      ensures startupUrl == old(startupUrl) && savedInstanceState == old(savedInstanceState)
      ensures startupPending == old(startupPending) && finished == old(finished)
    {
      var shellUrl: string;
      if startupUrl != "" {
        shellUrl := startupUrl;
      } else {
        shellUrl := defaultShellUrl;
      }
      if state.Some? && ActiveShellUrlKey in state.value {
        shellUrl := state.value[ActiveShellUrlKey];
      }
      events := events + [LaunchShell(shellUrl)];
    }

    /** `initializationFailed`: log, show a short toast, finish; nothing is retried. */
    method InitializationFailed()
      modifies this
      ensures events == old(events) + [LogError, ShowShortToast, Finish]
      ensures finished
      ensures startupUrl == old(startupUrl) && savedInstanceState == old(savedInstanceState)
      ensures startupPending == old(startupPending)
    {
      events := events + [LogError, ShowShortToast, Finish];
      finished := true;
    }

    /** The startup callback: `onSuccess` finishes initialisation, `onFailure` reports the failure. */
    method OnStartupResult(success: bool, defaultShellUrl: string)
      requires startupPending
      modifies this
      ensures !startupPending
      ensures success ==>
        events == old(events) + [LaunchShell(ResolveShellUrl(startupUrl, defaultShellUrl, savedInstanceState))] &&
        finished == old(finished)
      ensures !success ==> events == old(events) + [LogError, ShowShortToast, Finish] && finished
      ensures startupUrl == old(startupUrl) && savedInstanceState == old(savedInstanceState)
    {
      startupPending := false;
      if success {
        FinishInitialization(savedInstanceState, defaultShellUrl);
      } else {
        InitializationFailed();
      }
    }
  }

  /**
   * A fresh activity without saved state: one library initialisation, one
   * browser start, then one shell on the configured URL.
   */
  method LaunchFresh(defaultShellUrl: string) returns (a: RadiumShellActivity)
    ensures fresh(a) && !a.startupPending && !a.finished
    ensures a.events == [EnsureLibraryInitialized, StartBrowserProcessesAsync(ProcessBrowser, true, false),
                         LaunchShell(ConfiguredStartupUrl)]
  {
    a := new RadiumShellActivity();
    a.OnCreate(None);
    a.OnStartupResult(true, defaultShellUrl);
  }
}
