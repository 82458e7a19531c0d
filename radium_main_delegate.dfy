/**
 * radium_main_delegate.cc: the process-type classifiers of the main
 * delegate (OOM score, resource bundle, hang watcher, feature list and Mojo
 * set-up, log-file state), the deprecated-argument test and the Windows
 * early exits of `BasicStartupComplete`. The process type is the value of
 * the `--type` switch, empty for the browser process.
 */
module RadiumMainDelegate {
  import opened Wrappers

  /** Values of the `--type` switch (`content` switches; the browser has none). */
  const PpapiPluginProcess: string := "ppapi"
  const RendererProcess: string := "renderer"
  const UtilityProcess: string := "utility"
  const GpuProcess: string := "gpu-process"
  const ZygoteProcess: string := "zygote"

  /** The platform the code is built for, which decides the `#if` branches. */
  datatype Platform = Linux | ChromeOS | Mac | Windows | Android

  predicate IsLinuxOrChromeOS(p: Platform) { p == Linux || p == ChromeOS }

  // ---------------------------------------------------------------------
  // HasDeprecatedArguments

  const ChromeHtml: string := "chromehtml:"

  /** `base::ToLowerASCII` on one character: only 'A'..'Z' change. */
  function LowerAscii(c: char): char
  {
    if 'A' <= c <= 'Z' then (c as int + 32) as char else c
  }

  function ToLowerAscii(s: string): (r: string)
    ensures |r| == |s|
    ensures forall i :: 0 <= i < |s| ==> r[i] == LowerAscii(s[i])
  {
    seq(|s|, i requires 0 <= i < |s| => LowerAscii(s[i]))
  }

  /** Lower-casing commutes with taking a slice. */
  lemma ToLowerAsciiSlice(s: string, i: nat, j: nat)
    requires i <= j <= |s|
    ensures ToLowerAscii(s)[i..j] == ToLowerAscii(s[i..j])
  {
  }

  /** `HasDeprecatedArguments`: the lower-cased command line contains "chromehtml:". */
  function HasDeprecatedArguments(commandLine: string): (r: bool)
    ensures r <==> Contains(ToLowerAscii(commandLine), ChromeHtml)
  {
    ContainsString(ToLowerAscii(commandLine), ChromeHtml)
  }

  /** The window of `commandLine` at `i` lower-cases to "chromehtml:". */
  predicate ChromeHtmlAnyCaseAt(commandLine: string, i: int)
  {
    0 <= i && i + |ChromeHtml| <= |commandLine| &&
    ToLowerAscii(commandLine[i..i + |ChromeHtml|]) == ChromeHtml
  }

  /**
   * The test ignores case: it holds exactly when some 11-character window of
   * the command line lower-cases to "chromehtml:" ("ChromeHTML:" included).
   */
  lemma DeprecatedArgumentsAnyCase(commandLine: string)
    ensures HasDeprecatedArguments(commandLine) <==> exists i :: ChromeHtmlAnyCaseAt(commandLine, i)
  {
    var low := ToLowerAscii(commandLine);
    if HasDeprecatedArguments(commandLine) {
      var i :| OccursAt(low, ChromeHtml, i);
      ToLowerAsciiSlice(commandLine, i, i + |ChromeHtml|);
      assert ChromeHtmlAnyCaseAt(commandLine, i);
    }
    if exists i :: ChromeHtmlAnyCaseAt(commandLine, i) {
      var i :| ChromeHtmlAnyCaseAt(commandLine, i);
      ToLowerAsciiSlice(commandLine, i, i + |ChromeHtml|);
      assert OccursAt(low, ChromeHtml, i);
    }
  }

  /** A command line shorter than "chromehtml:" is never deprecated. */
  lemma ShortCommandLineNotDeprecated(commandLine: string)
    requires |commandLine| < |ChromeHtml|
    ensures !HasDeprecatedArguments(commandLine)
  {
  }

  // ---------------------------------------------------------------------
  // AdjustLinuxOOMScore

  /** The `content` OOM score constants; their values are not part of this model. */
  datatype OomScores = OomScores(plugin: int, misc: int, zygote: int, lowestRenderer: int)

  /** What `AdjustLinuxOOMScore` does: adjust to a score, leave it, or hit `NOTREACHED`. */
  datatype OomAdjustment = Adjust(score: int) | Keep | UnknownProcessType

  /** The score chosen for a process type; `None` is the unknown-type branch. */
  function OomScoreFor(processType: string, scores: OomScores): Option<int>
  {
    if processType == PpapiPluginProcess then Some(scores.plugin)
    else if processType == UtilityProcess || processType == GpuProcess then Some(scores.misc)
    else if processType == ZygoteProcess || processType == "" then Some(scores.zygote)
    else if processType == RendererProcess then Some(scores.lowestRenderer)
    else None
  }

  /** `AdjustLinuxOOMScore`: the score starts at -1 and is applied only when above -1. */
  function AdjustLinuxOomScore(processType: string, scores: OomScores): (r: OomAdjustment)
    ensures r.Adjust? ==> r.score > -1 && OomScoreFor(processType, scores) == Some(r.score)
    ensures r == Keep <==> OomScoreFor(processType, scores).Some? && OomScoreFor(processType, scores).value <= -1
    ensures r == UnknownProcessType <==> OomScoreFor(processType, scores).None?
  {
    var score := match OomScoreFor(processType, scores) case Some(s) => s case None => -1;
    if OomScoreFor(processType, scores).None? then UnknownProcessType
    else if score > -1 then Adjust(score)
    else Keep
  }

  /** The mapping: plugin, misc for utility and GPU, zygote for zygote and browser, lowest renderer. */
  lemma OomScoreMapping(scores: OomScores)
    ensures OomScoreFor(PpapiPluginProcess, scores) == Some(scores.plugin)
    ensures OomScoreFor(UtilityProcess, scores) == Some(scores.misc)
    ensures OomScoreFor(GpuProcess, scores) == Some(scores.misc)
    ensures OomScoreFor(ZygoteProcess, scores) == Some(scores.zygote)
    ensures OomScoreFor("", scores) == Some(scores.zygote)
    ensures OomScoreFor(RendererProcess, scores) == Some(scores.lowestRenderer)
    ensures forall t :: t !in {PpapiPluginProcess, UtilityProcess, GpuProcess, ZygoteProcess, "", RendererProcess} ==>
      OomScoreFor(t, scores).None?
  {
  }

  /** A zero score is still applied, so an inherited higher score is reset. */
  lemma ZeroScoreStillApplied(scores: OomScores)
    requires scores.zygote == 0
    ensures AdjustLinuxOomScore("", scores) == Adjust(0)
    ensures AdjustLinuxOomScore(ZygoteProcess, scores) == Adjust(0)
  {
  }

  // ---------------------------------------------------------------------
  // SubprocessNeedsResourceBundle

  /** `SubprocessNeedsResourceBundle` for the build platform. */
  function SubprocessNeedsResourceBundle(processType: string, platform: Platform): (r: bool)
  {
    (IsLinuxOrChromeOS(platform) && processType == ZygoteProcess) ||
    (platform == Mac && processType == GpuProcess) ||
    processType == PpapiPluginProcess ||
    processType == RendererProcess ||
    processType == UtilityProcess
  }

  /**
   * Plugin, renderer and utility processes need the bundle everywhere; the
   * zygote only on Linux and ChromeOS, the GPU process only on Mac; the
   * browser process and unknown types never.
   */
  lemma ResourceBundleTypes(platform: Platform)
    ensures SubprocessNeedsResourceBundle(PpapiPluginProcess, platform)
    ensures SubprocessNeedsResourceBundle(RendererProcess, platform)
    ensures SubprocessNeedsResourceBundle(UtilityProcess, platform)
    ensures SubprocessNeedsResourceBundle(ZygoteProcess, platform) <==> IsLinuxOrChromeOS(platform)
    ensures SubprocessNeedsResourceBundle(GpuProcess, platform) <==> platform == Mac
    ensures !SubprocessNeedsResourceBundle("", platform)
    ensures forall t :: SubprocessNeedsResourceBundle(t, platform) ==>
      t in {PpapiPluginProcess, RendererProcess, UtilityProcess, ZygoteProcess, GpuProcess}
  {
  }

  /** On Linux every process needing the bundle also has a known OOM score. */
  lemma ResourceBundleTypesHaveOomScore(processType: string, scores: OomScores)
    requires SubprocessNeedsResourceBundle(processType, Linux)
    ensures AdjustLinuxOomScore(processType, scores) != UnknownProcessType
  {
  }

  // ---------------------------------------------------------------------
  // InitLogging

  datatype OldFileDeletionState = AppendToOldLogFile | DeleteOldLogFile

  /** `InitLogging`: old log files are deleted only by the browser process. */
  function LogFileState(processType: string): (s: OldFileDeletionState)
    ensures s == DeleteOldLogFile <==> processType == ""
  {
    var state := AppendToOldLogFile;
    if processType == "" then DeleteOldLogFile else state
  }

  /** `PreSandboxStartup` initialises logging itself except on Android and Windows. */
  function PreSandboxInitializesLogging(platform: Platform): (r: bool)
    ensures r <==> platform != Android && platform != Windows
  {
    !(platform == Android) && !(platform == Windows)
  }

  // ---------------------------------------------------------------------
  // IsCanaryDev and the hang watcher

  datatype Channel = Unknown | Canary | Dev | Beta | Stable

  /** `IsCanaryDev`: the channel is canary or dev. */
  function IsCanaryDev(channel: Channel): (r: bool)
    ensures r <==> channel == Canary || channel == Dev
    ensures r ==> channel != Stable && channel != Beta
  {
    channel == Canary || channel == Dev
  }

  datatype HangWatcherProcessType =
    | BrowserProcess | GpuProcessType | RendererProcessType | UtilityProcessType | UnknownProcess

  /** The hang-watcher process type chosen in `CommonEarlyInitialization`. */
  function HangWatcherType(processType: string): HangWatcherProcessType
  {
    if processType == "" then BrowserProcess
    else if processType == GpuProcess then GpuProcessType
    else if processType == RendererProcess then RendererProcessType
    else if processType == UtilityProcess then UtilityProcessType
    else UnknownProcess
  }

  /** Crashes are emitted only on canary and dev, and only on desktop platforms. */
  function HangWatcherEmitsCrashes(platform: Platform, channel: Channel): (r: bool)
    ensures r <==> platform != Android && IsCanaryDev(channel)
  {
    if platform == Linux || platform == ChromeOS || platform == Mac || platform == Windows
    then IsCanaryDev(channel) else assert platform.Android?; false
  }

  /**
   * Each known process type gets its own hang-watcher type, the browser
   * exactly for the empty type; zygote, plugin and every other type are
   * unknown to the hang watcher.
   */
  lemma HangWatcherMapping(processType: string)
    ensures HangWatcherType(processType) == BrowserProcess <==> processType == ""
    ensures HangWatcherType(processType) == GpuProcessType <==> processType == GpuProcess
    ensures HangWatcherType(processType) == RendererProcessType <==> processType == RendererProcess
    ensures HangWatcherType(processType) == UtilityProcessType <==> processType == UtilityProcess
    ensures HangWatcherType(processType) == UnknownProcess <==>
      processType !in {"", GpuProcess, RendererProcess, UtilityProcess}
  {
  }

  // ---------------------------------------------------------------------
  // ShouldCreateFeatureList / ShouldInitializeMojo

  datatype InvokedIn = InvokedInBrowserProcess | InvokedInChildProcess

  /** `ShouldCreateFeatureList`: only a child process creates its own feature list. */
  function ShouldCreateFeatureList(invokedIn: InvokedIn): (r: bool)
    ensures r <==> invokedIn.InvokedInChildProcess?
  {
    invokedIn.InvokedInChildProcess?
  }

  /** `ShouldInitializeMojo` answers as `ShouldCreateFeatureList`. */
  function ShouldInitializeMojo(invokedIn: InvokedIn): (r: bool)
    ensures r == ShouldCreateFeatureList(invokedIn)
    ensures r <==> !invokedIn.InvokedInBrowserProcess?
  {
    ShouldCreateFeatureList(invokedIn)
  }

  // ---------------------------------------------------------------------
  // BasicStartupComplete

  /**
   * `RESULT_CODE_INVALID_SANDBOX_STATE`: the 27th code after the first
   * radium code, which is 5 (the last code, 33 after the first, is 38).
   */
  const ResultCodeRadiumStart: int := 5
  const ResultCodeInvalidSandboxState: int := ResultCodeRadiumStart + 26

  /**
   * The early exits of `BasicStartupComplete`. On Windows a sandboxed
   * browser process exits with the invalid-sandbox code, then a command line
   * with deprecated arguments exits with 1; otherwise start-up continues.
   * `hasProcessTypeSwitch` is whether `--type` is present and `isSandboxed`
   * the answer of the executable's `IsSandboxedProcess` export.
   */
  function BasicStartupComplete(platform: Platform, hasProcessTypeSwitch: bool, isSandboxed: bool,
                                commandLine: string): (r: Option<int>)
  {
    var isBrowser := !hasProcessTypeSwitch;
    if platform == Windows && isBrowser && isSandboxed then Some(ResultCodeInvalidSandboxState)
    else if platform == Windows && HasDeprecatedArguments(commandLine) then Some(1)
    else None
  }

  /**
   * Only Windows exits early; the sandbox check comes first and concerns only
   * the browser process, and a deprecated command line exits with 1 in every
   * other case.
   */
  lemma BasicStartupEarlyExits(platform: Platform, hasProcessTypeSwitch: bool, isSandboxed: bool,
                               commandLine: string)
    ensures var r := BasicStartupComplete(platform, hasProcessTypeSwitch, isSandboxed, commandLine);
      (platform != Windows ==> r.None?) &&
      (r == Some(31) <==> platform == Windows && !hasProcessTypeSwitch && isSandboxed) &&
      (r == Some(1) <==> platform == Windows && !(!hasProcessTypeSwitch && isSandboxed) &&
                         HasDeprecatedArguments(commandLine)) &&
      (r.None? <==> platform != Windows ||
                    (!(!hasProcessTypeSwitch && isSandboxed) && !HasDeprecatedArguments(commandLine)))
  {
  }
}
