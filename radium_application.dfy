/**
 * RadiumApplication.java: the Android `Application` subclass. The process
 * name (from `ContextUtils.getProcessName()`) decides the process role; the
 * framework calls made by `attachBaseContext` are recorded as effects, in
 * order, and the application-assets check is an input.
 */
module RadiumApplication {
  import opened Wrappers

  const PrivateDataDirectorySuffix: string := "radium"
  const CommandLineFile: string := "chrome-command-line"

  /** `LibraryProcessType` values this file sets. */
  datatype LibraryProcessType = ProcessBrowser | ProcessChild

  /** A framework call made by `attachBaseContext`, in the order it is made. */
  datatype Effect =
    | RecordMainEntryPointTime
    | SuperAttachBaseContext
    | InitApplicationContext
    | SetLibraryProcessType(t: LibraryProcessType)
    | TakeOverAndroidThreadPool
    | SetClassLoader
    | SetAvailablePakLocales
    | SetLinkerImplementation
    | SetPrivateDataDirectorySuffix(suffix: string)
    | InitCommandLine(file: string)
    | ApplicationStatusInitialize

  /** How `attachBaseContext` ends: normally, or with the exception `checkAppBeingReplaced` throws. */
  datatype Outcome = Returned | Threw(message: string)

  const OutOfDateMessage: string := "App out of date, getResources() null, closing app."

  /** `isBrowserProcess`: the process name has no ':'. */
  function IsBrowserProcess(processName: string): (r: bool)
    ensures r <==> ':' !in processName
  {
    ContainsChar(processName, ':');
    !ContainsString(processName, ":")
  }

  /**
   * The process type `maybeInitProcessType` sets: browser for the browser
   * process, nothing for privileged or sandboxed child services, child
   * otherwise.
   */
  function ProcessTypeFor(processName: string): (r: Option<LibraryProcessType>)
    ensures r == Some(ProcessBrowser) <==> ':' !in processName
    ensures r.None? <==>
      ':' in processName &&
      (Contains(processName, "privileged_process") || Contains(processName, "sandboxed_process"))
    ensures r == Some(ProcessChild) <==>
      ':' in processName &&
      !Contains(processName, "privileged_process") && !Contains(processName, "sandboxed_process")
  {
    if IsBrowserProcess(processName) then Some(ProcessBrowser)
    else if ContainsString(processName, "privileged_process")
         || ContainsString(processName, "sandboxed_process") then None
    else Some(ProcessChild)
  }

  /** `shouldUseDebugFlags`, the command-line debug predicate. */
  function ShouldUseDebugFlags(): (r: bool)
    ensures !r
  {
    false
  }

  /** The effects of `maybeInitProcessType`. */
  function ProcessTypeEffects(processName: string): (r: seq<Effect>)
  {
    match ProcessTypeFor(processName)
    case None => []
    case Some(t) => [SetLibraryProcessType(t)]
  }

  /**
   * The reference trace of `attachBaseContext` for a process name and
   * whether the application assets are present.
   */
  function AttachEffects(processName: string, assetsPresent: bool): seq<Effect>
  {
    var browser := IsBrowserProcess(processName);
    (if browser then [RecordMainEntryPointTime] else []) +
    [SuperAttachBaseContext, InitApplicationContext] +
    ProcessTypeEffects(processName) +
    [TakeOverAndroidThreadPool, SetClassLoader, SetAvailablePakLocales, SetLinkerImplementation] +
    (if !browser || !assetsPresent then []
     else [SetPrivateDataDirectorySuffix(PrivateDataDirectorySuffix),
           InitCommandLine(CommandLineFile), ApplicationStatusInitialize])
  }

  /** The reference outcome: only the browser process checks the assets. */
  function AttachOutcome(processName: string, assetsPresent: bool): Outcome
  {
    if IsBrowserProcess(processName) && !assetsPresent then Threw(OutOfDateMessage) else Returned
  }

  /** Effects that only the browser process performs. */
  predicate BrowserOnly(e: Effect)
  {
    e.RecordMainEntryPointTime? || e.SetPrivateDataDirectorySuffix? ||
    e.InitCommandLine? || e.ApplicationStatusInitialize?
  }

  /** The application object; `effects` records the framework calls made so far. */
  class RadiumApplication {
    var effects: seq<Effect>

    constructor ()
      ensures effects == []
    {
      effects := [];
    }

    /** `checkAppBeingReplaced`: throws when the application assets are null. */
    static method CheckAppBeingReplaced(assetsPresent: bool) returns (outcome: Outcome)
      ensures outcome.Threw? <==> !assetsPresent
      ensures outcome.Threw? ==> outcome.message == OutOfDateMessage
    {
      if !assetsPresent {
        return Threw(OutOfDateMessage);
      }
      return Returned;
    }

    /** `maybeInitProcessType`. */
    method MaybeInitProcessType(processName: string)
      modifies this
      ensures effects == old(effects) + ProcessTypeEffects(processName)
    {
      if IsBrowserProcess(processName) {
        effects := effects + [SetLibraryProcessType(ProcessBrowser)];
        return;
      }
      if ContainsString(processName, "privileged_process")
         || ContainsString(processName, "sandboxed_process") {
        return;
      }
      effects := effects + [SetLibraryProcessType(ProcessChild)];
    }

    /** `attachBaseContext`, step by step. */
    method AttachBaseContext(processName: string, assetsPresent: bool) returns (outcome: Outcome)
      modifies this
      ensures effects == old(effects) + AttachEffects(processName, assetsPresent)
      ensures outcome == AttachOutcome(processName, assetsPresent)
    {
      var isBrowserProcess := IsBrowserProcess(processName);
      if isBrowserProcess {
        effects := effects + [RecordMainEntryPointTime];
      }
      effects := effects + [SuperAttachBaseContext, InitApplicationContext];
      MaybeInitProcessType(processName);
      effects := effects + [TakeOverAndroidThreadPool, SetClassLoader, SetAvailablePakLocales, SetLinkerImplementation];
      outcome := Returned;
      if isBrowserProcess {
        outcome := CheckAppBeingReplaced(assetsPresent);
        if outcome.Threw? {
          return;
        }
        effects := effects + [SetPrivateDataDirectorySuffix(PrivateDataDirectorySuffix)];
        effects := effects + [InitCommandLine(CommandLineFile)];
        effects := effects + [ApplicationStatusInitialize];
      }
    }
  }

  /** A child process performs none of the browser-only steps. */
  lemma ChildSkipsBrowserSteps(processName: string, assetsPresent: bool)
    requires ':' in processName
    ensures forall e :: e in AttachEffects(processName, assetsPresent) ==> !BrowserOnly(e)
    ensures AttachOutcome(processName, assetsPresent) == Returned
  {
  }

  /**
   * In the browser process the main-entry time is recorded first, before the
   * framework's `attachBaseContext`, the process type is browser, and with
   * assets present all browser-only steps run, the command line last but one.
   */
  lemma BrowserSteps(processName: string)
    requires ':' !in processName
    ensures var t := AttachEffects(processName, true);
      |t| == 11 && t[0] == RecordMainEntryPointTime && t[1] == SuperAttachBaseContext &&
      t[3] == SetLibraryProcessType(ProcessBrowser) &&
      t[8] == SetPrivateDataDirectorySuffix("radium") &&
      t[9] == InitCommandLine("chrome-command-line") && t[10] == ApplicationStatusInitialize
    ensures AttachOutcome(processName, true) == Returned
  {
  }

  /**
   * An out-of-date browser application throws after the common steps, before
   * the data directory suffix, the command line and the application status.
   */
  lemma OutOfDateStopsEarly(processName: string)
    requires ':' !in processName
    ensures AttachOutcome(processName, false) == Threw(OutOfDateMessage)
    ensures forall e :: e in AttachEffects(processName, false) ==>
      !e.SetPrivateDataDirectorySuffix? && !e.InitCommandLine? && !e.ApplicationStatusInitialize?
  {
  }

  /** At most one process type is set, and only `ProcessTypeFor` decides which. */
  lemma AtMostOneProcessType(processName: string, assetsPresent: bool)
    ensures var t := AttachEffects(processName, assetsPresent);
      forall i, j :: 0 <= i < j < |t| ==> !(t[i].SetLibraryProcessType? && t[j].SetLibraryProcessType?)
    ensures var t := AttachEffects(processName, assetsPresent);
      (exists i :: 0 <= i < |t| && t[i] == SetLibraryProcessType(ProcessChild)) <==>
        ProcessTypeFor(processName) == Some(ProcessChild)
  {
    var t := AttachEffects(processName, assetsPresent);
    var k := if IsBrowserProcess(processName) then 3 else 2;
    forall i | 0 <= i < |t| && t[i].SetLibraryProcessType?
      ensures i == k && ProcessTypeFor(processName) == Some(t[i].t)
    {
    }
    if ProcessTypeFor(processName).Some? {
      assert t[k] == SetLibraryProcessType(ProcessTypeFor(processName).value);
    }
  }
}
