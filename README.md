# Radium browser core, modelled in Dafny

Radium is a browser built on Chromium's content layer, for Android and for the
desktop. This project models the parts of it that keep state and make
decisions:

- the Java/native tab bridge;
- process-type detection and command-line parsing at startup;
- logging setup;
- the path provider;
- profile management;
- the browser window list and its unload and close machinery;
- shutdown bookkeeping;
- the browser-process globals;
- the process singleton;
- the views delegate's keep-alive;
- the WebUI config registry;
- DevTools sessions and the remote-debugging port;
- the web-preference updates made after a navigation;
- the Android shell's window registry.

One Dafny module stands for each source file. Objects whose fields the source
updates become classes, with `modifies` clauses on their methods. Statics and
globals of a translation unit become a class holding them. Pure decisions
become functions with lemmas about them.

What the rest of Chromium would answer is a parameter of the model, or a
recorded event. This covers JNI calls, the path service, web contents,
renderer processes, the platform delegates and task posting.

Shared helpers:
- `Wrappers`: `Option` and substring search;
- `FilePath`: POSIX `base::FilePath` joining, `DirName`, `BaseName`,
  components and `IsParent`;
- `NumberConversions`: `base::StringToInt` on 32-bit `int`, with its decimal
  round trip.

## Model

| member | source | states |
|---|---|---|
| TabImpl.TabImpl.constructor | browser/tab/android/java/src/org/radium/browser/tab/TabImpl.java:19 | a new Java tab starts unbound (handle 0) |
| TabImpl.TabImpl.GetNativePtr | browser/tab/android/java/src/org/radium/browser/tab/TabImpl.java:44-47 | returns the current handle, 0 when unbound, and is the `GetNativePtr` step of the call model |
| TabImpl.TabImpl.ClearNativePtr | browser/tab/android/java/src/org/radium/browser/tab/TabImpl.java:49-53 | requires a bound handle (the `assert`); afterwards the handle is 0 |
| TabImpl.TabImpl.SetNativePtr | browser/tab/android/java/src/org/radium/browser/tab/TabImpl.java:55-60 | requires a non-zero native handle and an unbound tab (both `assert`s); afterwards the tab holds that handle |
| TabImpl.StepFails | browser/tab/android/java/src/org/radium/browser/tab/TabImpl.java:49-60 | a call fails exactly when its method's assertion is violated; a successful mutation leaves 0 exactly for a clear |
| TabImpl.Mutations | browser/tab/android/java/src/org/radium/browser/tab/TabImpl.java:44-60 | the state-changing calls of a sequence hold no reads and are no more than the calls |
| TabImpl.RunAlternates | browser/tab/android/java/src/org/radium/browser/tab/TabImpl.java:19-60 | a call sequence runs without a failed assertion iff binds and clears alternate, and it ends unbound iff the last mutation is a clear |
| TabImpl.NativeLifetime | browser/tab/android/java/src/org/radium/browser/tab/TabImpl.java:19-60 | bind, any number of reads, then clear leaves the tab unbound |
| TabImpl.Reads | browser/tab/android/java/src/org/radium/browser/tab/TabImpl.java:44-47 | `n` reads are `n` `getNativePtr` calls |
| TabImpl.MutationsOfReads | browser/tab/android/java/src/org/radium/browser/tab/TabImpl.java:44-47 | reads contribute no mutation |
| TabAndroid.TabAndroid.constructor | browser/tab/tab_android.cc:62-67 | constructing a native tab binds the Java tab to its address |
| TabAndroid.TabAndroid.Destroy | browser/tab/tab_android.cc:69-72 | destroying the native tab clears the Java tab's handle |
| TabAndroid.FromWebContents | browser/tab/tab_android.cc:30-54 | null without a helper, else the helper's tab |
| TabAndroid.SetTabForWebContents | browser/tab/tab_android.cc:18-28 | the helper is created if absent and then `FromWebContents` finds exactly the stored tab |
| TabAndroid.GetNativeTab | browser/tab/tab_android.cc:56-60 | returns exactly the handle stored in the Java tab |
| TabAndroid.JniFromWebContents | browser/tab/tab_android.cc:79-92 | empty iff the contents is null or has no tab; otherwise that tab's Java object |
| TabAndroid.JniInit | browser/tab/tab_android.cc:94-100 | init constructs a native tab, so the Java tab becomes bound to it |
| TabAndroid.InitLookupDestroy | browser/tab/tab_android.cc:56-100 | after init `GetNativeTab` yields the native address, and destruction unbinds the Java tab again |
| TabWebContentsDelegateAndroid.IsNightModeEnabled | browser/tab/tab_web_contents_delegate_android.cc:33-40 | false without a Java delegate, else the delegate's answer |
| TabWebContentsDelegateAndroid.IsForceDarkWebContentEnabled | browser/tab/tab_web_contents_delegate_android.cc:42-50 | false without a Java delegate, else the delegate's answer |
| TabWebContentsDelegateAndroid.QueriesReachPolicy | browser/tab/tab_web_contents_delegate_android.cc:33-50 | a query is true exactly when a Java delegate exists and the embedder policy it forwards to says so |
| TabWebContentsDelegateAndroidImpl.New | browser/tab/android/java/src/org/radium/browser/tab/TabWebContentsDelegateAndroidImpl.java:16-19 | the constructor keeps the policy delegate |
| TabWebContentsDelegateAndroidImpl.IsNightModeEnabled | browser/tab/android/java/src/org/radium/browser/tab/TabWebContentsDelegateAndroidImpl.java:25-29 | forwards the policy delegate's night-mode answer |
| TabWebContentsDelegateAndroidImpl.IsForceDarkWebContentEnabled | browser/tab/android/java/src/org/radium/browser/tab/TabWebContentsDelegateAndroidImpl.java:34-38 | forwards the policy delegate's force-dark answer |
| TabWebContentsDelegateAndroidImpl.TabNotStored | browser/tab/android/java/src/org/radium/browser/tab/TabWebContentsDelegateAndroidImpl.java:16-19 | the tab argument has no influence on the delegate built |
| RadiumApplication.IsBrowserProcess | android/java/src/org/radium/browser/RadiumApplication.java:114-116 | the browser process is the one whose name has no `:` |
| RadiumApplication.ProcessTypeFor | android/java/src/org/radium/browser/RadiumApplication.java:129-144 | browser iff the name has no `:`; nothing for privileged or sandboxed services; child for every other child process |
| RadiumApplication.ShouldUseDebugFlags | android/java/src/org/radium/browser/RadiumApplication.java:146-148 | debug flags are never used |
| RadiumApplication.RadiumApplication.constructor | android/java/src/org/radium/browser/RadiumApplication.java:35 | no framework call has been made yet |
| RadiumApplication.RadiumApplication.CheckAppBeingReplaced | android/java/src/org/radium/browser/RadiumApplication.java:151-158 | throws the out-of-date exception, with its message, exactly when the assets are null |
| RadiumApplication.RadiumApplication.MaybeInitProcessType | android/java/src/org/radium/browser/RadiumApplication.java:129-144 | records the library process type chosen by `ProcessTypeFor`, or nothing |
| RadiumApplication.RadiumApplication.AttachBaseContext | android/java/src/org/radium/browser/RadiumApplication.java:41-103 | the framework calls made and the outcome are exactly the ordered steps of `attachBaseContext` for that process |
| RadiumApplication.ChildSkipsBrowserSteps | android/java/src/org/radium/browser/RadiumApplication.java:50-102 | a child process performs none of the browser-only steps and returns normally |
| RadiumApplication.BrowserSteps | android/java/src/org/radium/browser/RadiumApplication.java:41-103 | in the browser process the entry time is recorded before the framework's `attachBaseContext`, the type is browser, and the data suffix `radium`, the command-line file `chrome-command-line` and the application status follow in order |
| RadiumApplication.OutOfDateStopsEarly | android/java/src/org/radium/browser/RadiumApplication.java:92-158 | an out-of-date browser app throws before the data suffix, the command line and the application status |
| RadiumApplication.AtMostOneProcessType | android/java/src/org/radium/browser/RadiumApplication.java:85-144 | at most one process type is set, and the child type is set iff `ProcessTypeFor` says child |
| RadiumShellActivity.SavedUrlWins | android/java/src/org/radium/browser/RadiumShellActivity.java:25-78 | a URL saved under `activeUrl` is used whatever the configured and default URLs are |
| RadiumShellActivity.ConfiguredThenDefault | android/java/src/org/radium/browser/RadiumShellActivity.java:69-75 | without a saved URL the configured URL is used iff it is non-empty, else the default |
| RadiumShellActivity.RadiumShellActivity.constructor | android/java/src/org/radium/browser/RadiumShellActivity.java:23-30 | no URL, no saved state, nothing pending, no events |
| RadiumShellActivity.RadiumShellActivity.OnCreate | android/java/src/org/radium/browser/RadiumShellActivity.java:32-67 | the library is initialised, the startup URL becomes the fixed site, and one asynchronous browser start is requested with the browser process type |
| RadiumShellActivity.RadiumShellActivity.FinishInitialization | android/java/src/org/radium/browser/RadiumShellActivity.java:69-80 | exactly one shell is launched, on the resolved URL |
| RadiumShellActivity.RadiumShellActivity.InitializationFailed | android/java/src/org/radium/browser/RadiumShellActivity.java:82-88 | logs, shows a short toast and finishes; nothing is retried |
| RadiumShellActivity.RadiumShellActivity.OnStartupResult | android/java/src/org/radium/browser/RadiumShellActivity.java:56-66 | success leads to `finishInitialization`, failure to `initializationFailed` |
| RadiumShellActivity.LaunchFresh | android/java/src/org/radium/browser/RadiumShellActivity.java:32-80 | a fresh activity initialises the library once, starts the browser once and launches one shell on the configured URL |
| RadiumMainDelegateAndroid.SecureDataDirectoryEvents | app/android/radium_main_delegate_android.cc:19-33 | permissions are set iff the path lookup succeeded; an error is logged iff either step failed |
| RadiumMainDelegateAndroid.NormalizeExitCode | app/android/radium_main_delegate_android.cc:82-88 | a positive exit code is kept, anything else becomes 0 |
| RadiumMainDelegateAndroid.SecureDataDirectoryCounts | app/android/radium_main_delegate_android.cc:19-33 | securing the data directory creates no runner and records no start time |
| RadiumMainDelegateAndroid.CreationCounts | app/android/radium_main_delegate_android.cc:69-80 | creating the runner records exactly one application start time |
| RadiumMainDelegateAndroid.RunEventsCounts | app/android/radium_main_delegate_android.cc:61-80 | a browser start creates a runner and records the start time exactly when none existed |
| RadiumMainDelegateAndroid.RadiumMainDelegateAndroid.constructor | app/android/radium_main_delegate_android.cc:35 | starts without a runner |
| RadiumMainDelegateAndroid.RadiumMainDelegateAndroid.SecureDataDirectory | app/android/radium_main_delegate_android.cc:19-33 | appends the data-directory events; the runner is untouched |
| RadiumMainDelegateAndroid.RadiumMainDelegateAndroid.RunProcess | app/android/radium_main_delegate_android.cc:51-89 | a child process gets its parameters back untouched; the browser process secures the data directory, creates the runner only once, and returns the normalised exit code |
| RadiumMainDelegateAndroid.TwoBrowserRequests | app/android/radium_main_delegate_android.cc:63-80 | two browser start requests create one runner and record the start times once |
| InstallUtil.GetProcessType | install_static/install_util.cc:45-54 | empty is the browser, `crashpad-handler` the crashpad handler, anything else another process |
| InstallUtil.ProcessTypeCache.constructor | install_static/install_util.cc:170-178 | the cached type starts uninitialised |
| InstallUtil.ProcessTypeCache.InitializeProcessType | install_static/install_util.cc:170-174 | requires an uninitialised type (the `assert`); caches the type of the `type` switch value |
| InstallUtil.ProcessTypeCache.IsProcessTypeInitialized | install_static/install_util.cc:176-178 | true iff a type was cached |
| InstallUtil.ProcessTypeCache.IsBrowserProcess | install_static/install_util.cc:180-183 | requires an initialised type (the `assert`); true iff it is the browser |
| InstallUtil.AppendChromeInstallSubDirectoryShape | install_static/install_util.cc:154-168 | the path stays a prefix; the company name and separator come only with a company name; the install suffix is added only when asked |
| InstallUtil.SpanSpaceTab | install_static/install_util.cc:332 | `wcsspn(p, " \t")`: the end of the run of spaces and tabs |
| InstallUtil.SpanBackslash | install_static/install_util.cc:345 | `wcsspn(p, "\\")`: the end of the run of backslashes |
| InstallUtil.CSpanSpaceTab | install_static/install_util.cc:320 | `wcscspn(p, " \t")`: the first space, tab or terminator |
| InstallUtil.FindQuote | install_static/install_util.cc:313 | `wcschr(p, '"')`: the first quote before the terminator, if any |
| InstallUtil.Argv0 | install_static/install_util.cc:309-326 | the program name ends within the line |
| InstallUtil.Argv0Rule | install_static/install_util.cc:309-326 | a quoted program name runs to the next quote, or to the end without one; an unquoted one runs to the first space or tab |
| InstallUtil.Step | install_static/install_util.cc:342-382 | one pass of the inner loop: a run of backslashes, then a quote, a delimiter or a copied character |
| InstallUtil.ScanToken | install_static/install_util.cc:338-383 | scanning one argument ends at or before the terminator |
| InstallUtil.Tokens | install_static/install_util.cc:279-386 | the reference definition: the program name first, then each argument |
| InstallUtil.ScanPass | install_static/install_util.cc:342-382 | the imperative pass equals `Step` |
| InstallUtil.ScanArgument | install_static/install_util.cc:338-383 | the imperative inner loop equals `ScanToken` |
| InstallUtil.TokenizeCommandLineToArray | install_static/install_util.cc:279-386 | the character-by-character walk returns exactly `Tokens` of the line |
| InstallUtil.LeadingWhitespaceSkipped | install_static/install_util.cc:331-332 | leading spaces and tabs before an argument are skipped |
| InstallUtil.EvenBackslashesThenQuote | install_static/install_util.cc:347-367 | `2n` backslashes then a quote give `n` backslashes and toggle quoting |
| InstallUtil.OddBackslashesThenQuote | install_static/install_util.cc:351-356 | `2n+1` backslashes then a quote give `n` backslashes and a literal quote |
| InstallUtil.DoubledQuoteInQuotes | install_static/install_util.cc:357-363 | inside quotes `""` gives one quote and returns to interpreting mode |
| InstallUtil.BackslashesVerbatim | install_static/install_util.cc:368-380 | backslashes not before a quote are copied verbatim; a following terminator or interpreted space ends the argument |
| InstallUtil.SpaceEndsArgument | install_static/install_util.cc:371-376 | an interpreted space or tab ends the argument |
| InstallUtil.OpeningQuoteStep | install_static/install_util.cc:364-366 | an unescaped quote in interpreting mode switches to ignoring spaces |
| InstallUtil.ClosingQuoteStep | install_static/install_util.cc:364-366 | a closing quote not followed by another switches back |
| InstallUtil.DelimiterStep | install_static/install_util.cc:371-376 | the terminator, or an interpreted space or tab, ends the argument |
| InstallUtil.StepInQuotes | install_static/install_util.cc:342-382 | inside quotes a pass copies the backslashes and the character after them |
| InstallUtil.ScanQuoted | install_static/install_util.cc:338-383 | a quoted argument without quotes or backslash-quote pairs inside scans to its text |
| InstallUtil.ArgsFromJoinQuoted | install_static/install_util.cc:328-385 | the arguments after a prefix of a line built by quoting each argument are those arguments |
| InstallUtil.TokenizeEncodeRoundTrip | install_static/install_util.cc:279-386 | quoting a program name and arguments and tokenizing the result gives them back |
| InstallUtil.FindDoubleDash | install_static/install_util.cc:396-397 | the first lone `--` token, or the number of tokens |
| InstallUtil.GetCommandLineSwitch | install_static/install_util.cc:388-412 | requires a non-empty line and name (the `assert`s); equals the first match before a lone `--` |
| InstallUtil.GetCommandLineSwitchValue | install_static/install_util.cc:414-420 | the switch's value, or empty when the switch is absent |
| InstallUtil.SwitchLookupFirstMatch | install_static/install_util.cc:399-411 | the lookup answers `v` exactly when some token before the first `--` matches with value `v` and no earlier token matches |
| InstallUtil.SwitchStopsAtDoubleDash | install_static/install_util.cc:396-400 | tokens after a lone `--` are never consulted |
| InstallUtil.SwitchMatchShapes | install_static/install_util.cc:401-408 | `--name` gives an empty value, `--name=v` gives `v`, and a longer name with the same prefix does not match |
| RadiumMainDelegate.ToLowerAscii | app/radium_main_delegate.cc:103 | `base::ToLowerASCII`: same length, each character lower-cased |
| RadiumMainDelegate.HasDeprecatedArguments | app/radium_main_delegate.cc:101-106 | true iff the lower-cased command line contains `chromehtml:` |
| RadiumMainDelegate.DeprecatedArgumentsAnyCase | app/radium_main_delegate.cc:101-106 | true exactly when some 11-character window lower-cases to `chromehtml:`, in any letter case |
| RadiumMainDelegate.ShortCommandLineNotDeprecated | app/radium_main_delegate.cc:101-106 | a command line shorter than `chromehtml:` is never deprecated |
| RadiumMainDelegate.AdjustLinuxOomScore | app/radium_main_delegate.cc:129-157 | the score is applied only when above -1 and only as the mapped score; an unknown type is the `NOTREACHED` outcome |
| RadiumMainDelegate.OomScoreMapping | app/radium_main_delegate.cc:132-151 | plugin gets the plugin score, utility and GPU the misc score, zygote and browser the zygote score, renderer the lowest renderer score, and nothing else has one |
| RadiumMainDelegate.ZeroScoreStillApplied | app/radium_main_delegate.cc:152-156 | a zero score is still applied |
| RadiumMainDelegate.ResourceBundleTypes | app/radium_main_delegate.cc:162-174 | plugin, renderer and utility always need the bundle; the zygote only on Linux and ChromeOS; the GPU process only on Mac; the browser never |
| RadiumMainDelegate.ResourceBundleTypesHaveOomScore | app/radium_main_delegate.cc:129-174 | on Linux every subprocess needing the bundle also has a known OOM score |
| RadiumMainDelegate.LogFileState | app/radium_main_delegate.cc:199-204 | old log files are deleted iff the process is the browser |
| RadiumMainDelegate.PreSandboxInitializesLogging | app/radium_main_delegate.cc:362-366 | `PreSandboxStartup` initialises logging itself except on Android and Windows |
| RadiumMainDelegate.IsCanaryDev | app/radium_main_delegate.cc:272-276 | true iff the channel is canary or dev |
| RadiumMainDelegate.HangWatcherEmitsCrashes | app/radium_main_delegate.cc:697-704 | the hang watcher emits crashes exactly on canary and dev builds of a desktop platform (every platform but Android) |
| RadiumMainDelegate.HangWatcherMapping | app/radium_main_delegate.cc:682-695 | browser exactly for the empty type, GPU, renderer and utility for theirs, unknown for every other type |
| RadiumMainDelegate.ShouldCreateFeatureList | app/radium_main_delegate.cc:593-595 | true iff invoked in a child process |
| RadiumMainDelegate.ShouldInitializeMojo | app/radium_main_delegate.cc:597-599 | the same answer as `ShouldCreateFeatureList`: false only in the browser |
| RadiumMainDelegate.BasicStartupEarlyExits | app/radium_main_delegate.cc:295-352 | only Windows exits early; a sandboxed browser exits with the invalid-sandbox code first, and a deprecated command line exits with 1 |
| LoggingRadium.NormalizeSeparators | common/logging_radium.cc:76 | `NormalizePathSeparators` on Windows keeps the length and leaves no `/` |
| LoggingRadium.LogFileNamePrecedence | common/logging_radium.cc:67-104 | a non-empty `--log-file` wins on POSIX, and on Windows only when it is absolute after normalising; the result is empty exactly on Windows with no usable switch and no `DIR_LOGS` |
| LoggingRadium.DefaultLogFile | common/logging_radium.cc:87-103 | without a usable switch the file is `radium_debug.log`, inside `DIR_LOGS` when it resolves, else bare (POSIX) or none (Windows) |
| LoggingRadium.LevelDecisionFor | common/logging_radium.cc:222-233 | the `--log-level` switch is untouched iff absent or the minimum level is negative; it is applied only as a parsed int in `[0, LOGGING_NUM_SEVERITIES)`, otherwise rejected with its text |
| LoggingRadium.SeverityLevelsApplied | common/logging_radium.cc:226-232 | every severity's decimal text is applied as itself; larger numbers are rejected |
| LoggingRadium.LoggingRadium.constructor | common/logging_radium.cc:25-34 | the globals start cleared: no suppression, no handler, neither initialised nor failed |
| LoggingRadium.LoggingRadium.SuppressDialogs | common/logging_radium.cc:48-65 | installs one assert handler and sets the flag, and does nothing once suppressed |
| LoggingRadium.LoggingRadium.InitRadiumLogging | common/logging_radium.cc:108-248 | calls `InitLogging` with the chosen file, locked, and the caller's deletion state; on failure sets only the failed flag; on success shows dialogs or suppresses them, applies the level and sets the initialised flag |
| LoggingRadium.LoggingRadium.FinishInit | common/logging_radium.cc:193-247 | the steps after a successful `InitLogging`, in order, with the dialog and level state they leave |
| LoggingRadium.LoggingRadium.ApplyLoggingLevel | common/logging_radium.cc:222-233 | sets the minimum level exactly as `LevelDecisionFor` decides, logging a bad value otherwise |
| LoggingRadium.LoggingRadium.CleanupRadiumLogging | common/logging_radium.cc:252-267 | closes the log and resets both flags only when initialised and not failed; otherwise nothing changes |
| LoggingRadium.SuppressDialogsTwice | common/logging_radium.cc:48-51 | suppressing twice leaves exactly one assert handler |
| LoggingRadium.HeadlessSuppressesDialogs | common/logging_radium.cc:196-214 | `--noerrdialogs` installs the assert handler and never shows dialogs; without it dialogs are shown and no handler is installed |
| LoggingRadium.FailedInitThenCleanup | common/logging_radium.cc:186-255 | a failed initialisation records only the `InitLogging` call, and clean-up then does nothing |
| LoggingRadium.InitThenCleanup | common/logging_radium.cc:247-266 | after a successful initialisation, clean-up closes the log and clears both flags |
| NumberConversions.StringToInt | common/logging_radium.cc:227 | `base::StringToInt` as used here: a result only for a non-empty text, and always within the 32-bit `int` range |
| NumberConversions.StringToIntOfDecimal | common/logging_radium.cc:227-228 | the decimal text of any `int`-sized natural number parses back to that number |
| NumberConversions.PositiveParseHasNoMinus | common/logging_radium.cc:227 | a text that parses to a positive value has no leading minus sign |
| RadiumPaths.FileSystem.PathExists | common/radium_paths.cc:401 | `base::PathExists` answers from the current set of paths |
| RadiumPaths.FileSystem.CreateDirectory | common/radium_paths.cc:546 | a successful `base::CreateDirectory` adds the path; a failed one changes nothing |
| RadiumPaths.BuildPath | common/radium_paths.cc:79-544 | the key switch yields exactly the reference resolution: the path and the create flag of each key, or failure |
| RadiumPaths.TestPath | common/radium_paths.cc:396-426 | a development-only path is the root with each name appended, and is found iff the root resolved and that path exists |
| RadiumPaths.PathProvider | common/radium_paths.cc:57-552 | succeeds with the reference path or fails, leaving `*result` untouched on failure; the file system gains exactly the created directory, and only when creation was needed and succeeded |
| RadiumPaths.LogsIsUserData | common/radium_paths.cc:60-63 | in release builds `DIR_LOGS` is the user-data directory and nothing is created |
| RadiumPaths.UnservedKeysFail | common/radium_paths.cc:484-507 | an unknown key, the internal-plugins and PNaCl-component keys, and the native-messaging keys without extensions fail and create nothing |
| RadiumPaths.BaseFailurePropagates | common/radium_paths.cc:141-154 | when the base lookup a key builds on fails, the key fails and creates nothing |
| RadiumPaths.UserDataChildren | common/radium_paths.cc:174-250 | every key built by appending to the user-data directory names an entry directly inside it |
| RadiumPaths.UserDataNamesAreComponents | common/radium_paths.cc:178-250 | the literal names appended under the user-data directory are single path components |
| RadiumPaths.ProvidedIsResolved | common/radium_paths.cc:546-551 | apart from the `DIR_LOGS` alias, a successful answer is the path the switch built |
| RadiumPaths.LocalStateAndTraces | common/radium_paths.cc:174-247 | the local-state file is in the user-data directory and never created; the local-traces directory is created exactly when missing |
| RadiumPaths.CrashDumpsUnderDefaultUserData | common/radium_paths.cc:141-173 | crash dumps go to `Crash Reports` under the default user-data directory, created when missing |
| RadiumPaths.CreationFailureFails | common/radium_paths.cc:546-548 | a directory that must be created but cannot be fails the lookup; when no creation is needed its outcome does not matter |
| RadiumPaths.CreatedDirectoryExists | common/radium_paths.cc:546-551 | on success a key that asks for creation names a directory that existed or was just created |
| RadiumPaths.TestDirectoriesMustExist | common/radium_paths.cc:396-426 | development-only keys never create anything, succeed only with an existing path, and `DIR_TEST_DATA` succeeds iff `radium/test/data` exists under the source test root |
| ProfilesState.DefaultProfileDirInUserData | browser/profiles/profiles_state.cc:17-22 | the default profile directory is named `Default` and sits directly inside the user-data directory |
| ProfilesState.InitialComponent | browser/profiles/profiles_state.cc:17-32 | `Default` and `System Profile` are distinct single path components |
| ProfilesState.LocalState.RegisterPrefs | browser/profiles/profiles_state.cc:24-27 | registers the last-used preference with an empty default and keeps any stored value |
| ProfilesState.LocalState.SetLastUsedProfile | browser/profiles/profiles_state.cc:29-39 | stores the directory, except that `System Profile` is never stored |
| ProfilesState.RegisteredDefault | browser/profiles/profiles_state.cc:24-27 | a freshly registered preference reads as the empty string |
| ProfilesState.SystemProfileNeverStored | browser/profiles/profiles_state.cc:29-34 | storing `System Profile` after another name leaves that name in place |
| ProfileManagement.LastUsedBaseName | browser/profiles/profile_manager.cc:61-74 | the stored name unless it is empty or `System Profile`, in which case `Default`; never empty, never the system profile |
| ProfileManagement.Runs | browser/profiles/profile_manager.cc:22-27 | running a list of callbacks runs each once, in order, with the same profile |
| ProfileManagement.ProfileManager.constructor | browser/profiles/profile_manager.cc:51-52 | a manager over the user-data directory with no profiles |
| ProfileManagement.ProfileManager.GetProfileByPath | browser/profiles/profile_manager.cc:159-162 | a profile exactly for a registered path, created or not |
| ProfileManagement.ProfileManager.CreateAndInitializeProfile | browser/profiles/profile_manager.cc:225-240 | the factory's profile is registered under its path, not yet created; a failed factory registers nothing |
| ProfileManagement.ProfileManager.GetProfile | browser/profiles/profile_manager.cc:76-92 | a registered profile is returned as is; an absent one is created synchronously only when asked to, and otherwise nothing changes |
| ProfileManagement.CreateAsync | browser/profiles/profile_manager.cc:94-143 | only the requested path's entry can change and every other entry is kept; running a callback leaves the registry alone; a disallowed path runs the init callback with null; a new entry appears only for an allowed path whose factory succeeded, holds the factory's profile, is not yet created and runs nothing |
| ProfileManagement.ProfileManager.CreateProfileAsync | browser/profiles/profile_manager.cc:94-143 | the registry and the callbacks run are those of the reference creation: refusal on a disallowed path, an immediate run for a created profile with an init callback, otherwise queueing on an existing or new entry |
| ProfileManagement.ProfileManager.RunCallbacks | browser/profiles/profile_manager.cc:22-27 | each callback runs once, in order, and the registry is untouched |
| ProfileManagement.ProfileManager.OnProfileCreationFinished | browser/profiles/profile_manager.cc:190-223 | nothing for a synchronous creation; otherwise the entry is marked created on success or erased on failure, created callbacks run only on success, and init callbacks run last with the profile or null |
| ProfileManagement.ProfileManager.GetLoadedProfiles | browser/profiles/profile_manager.cc:149-157 | exactly the profiles whose creation has finished, each once |
| ProfileManagement.ProfileManager.SetProfileAsLastUsed | browser/profiles/profile_manager.cc:164-174 | a managed, non-system profile's base name is stored when it differs from the current last-used name; nothing else is stored |
| ProfileManagement.CollectLoaded | browser/profiles/profile_manager.cc:150-156 | the loop collecting loaded profiles yields exactly the finished entries, each once |
| ProfileManagement.GetLastUsedProfile | browser/profiles/profile_manager.cc:41-49 | null without a manager; otherwise the registered profile at the last-used directory, and nothing is created |
| ProfileManagement.LastUsedDirAllowed | browser/profiles/profile_manager.cc:56-58 | the last-used directory is an allowed profile path, with the last-used base name |
| ProfileManagement.LastUsedRoundTrip | browser/profiles/profile_manager.cc:61-71 | a stored name that is neither empty nor the system directory is read back unchanged |
| ProfileManagement.DisallowedPathRunsNull | browser/profiles/profile_manager.cc:98-107 | on a disallowed path nothing is registered and only the init callback runs, with null |
| ProfileManagement.InitCallbackRunsOrQueued | browser/profiles/profile_manager.cc:94-143 | an init callback is never lost: it runs during the call or is queued on an entry whose creation has not finished |
| ProfileManagement.FailedCreationRunsNull | browser/profiles/profile_manager.cc:210-222 | failed creation runs no created callback and every init callback with null |
| ProfileManagement.SucceededCreationRunsAll | browser/profiles/profile_manager.cc:204-222 | successful creation runs every queued callback once, created callbacks first |
| ProfileManagement.SynchronousNotLoaded | browser/profiles/profile_manager.cc:225-240 | a synchronously created profile is registered but never listed as loaded |
| ProfileManagement.FinishedCreationLoaded | browser/profiles/profile_manager.cc:199-218 | after successful asynchronous creation the profile is listed as loaded; after failure it is gone |
| ProfileManagement.CreatedCallbackStranded | browser/profiles/profile_manager.cc:112-142 | as written, a created callback without an init callback, for a finished profile, is queued where nothing will ever run it |
| ProfileManagement.IntendedKeepsDrained | browser/profiles/profile_manager.cc:112-118 | with the early return for any finished profile, no finished entry ever holds callbacks, and the result agrees with the code whenever an init callback is given |
| ProfileManagement.FinishKeepsDrained | browser/profiles/profile_manager.cc:199-222 | finishing asynchronous creation leaves no callbacks on the entry it marks created |
| UnloadController.First | browser/ui/unload_controller.cc:150-151 | `set.begin()`: the least tab of a non-empty set |
| UnloadController.NeedingNeedEvents | browser/ui/unload_controller.cc:103-114 | every tab picked for beforeunload needs its events |
| UnloadController.RemoveFromSet | browser/ui/unload_controller.cc:205-215 | reports whether the tab was in the set and yields the set without it |
| UnloadController.GetTabsNeedingBeforeUnloadFired | browser/ui/unload_controller.cc:97-117 | exactly the browser's tabs that need their events and are not already waiting for unload |
| UnloadController.Process | browser/ui/unload_controller.cc:119-197 | outside a close only the posted task is cancelled; while closing, the outcome is `Processed`: a completed window is first refilled with the tabs needing events; skipping moves every tab waiting for beforeunload into the unload queue; then the least waiting tab runs its beforeunload handler, or without a renderer is dropped from both sets; or a pending confirmer hears `true` (not when skipping); or every live unload tab has its page closed and every other one leaves the queue; the unload queue keeps every live tab |
| UnloadController.DispatchOrClose | browser/ui/unload_controller.cc:140-197 | `DispatchedFrom` the skipped fields: the least beforeunload tab is dispatched or dropped; with none, a confirmer hears `true` unless skipping and the state is otherwise unchanged; with no confirmer, every live unload tab has `ClosePage` logged and every dead one leaves the queue |
| UnloadController.DispatchFirst | browser/ui/unload_controller.cc:149-166 | the least waiting tab runs its beforeunload handler when it has a renderer and nothing else changes; without one it leaves both sets for good; live unload tabs stay queued |
| UnloadController.CloseWaiting | browser/ui/unload_controller.cc:181-196 | every tab waiting for unload with a renderer has `ClosePage` logged after the old log; every one without a renderer leaves the queue; live unload tabs stay queued |
| UnloadController.Clear | browser/ui/unload_controller.cc:217-234 | outside a close nothing changes; while closing the tab leaves both sets and then either processing runs now with the `Processed` outcome, or one delayed run is posted unless one is pending; a tab without pending events never comes back |
| UnloadController.ClearClosing | browser/ui/unload_controller.cc:219-233 | the closing branch of `Clear`: the tab leaves both sets, then processing runs now or a delayed run is posted once |
| UnloadController.ProcessedShrinks | browser/ui/unload_controller.cc:219-227 | processing after a tab was cleared never brings that tab back, and keeps every other live unload tab queued |
| UnloadController.SkipQueuesForUnload | browser/ui/unload_controller.cc:140-145 | with beforeunload skipped, every live tab that was waiting for either event ends up in the unload queue |
| UnloadController.HasCompletedUnloadProcessing | browser/ui/unload_controller.cc:199-203 | true only when the window is closing and no tab waits for either event, which is a consistent controller state |
| UnloadController.UnloadController.constructor | browser/ui/unload_controller.cc:28-31 | both sets empty, not closing, nothing posted |
| UnloadController.UnloadController.OnWebContentsEmpty | browser/ui/unload_controller.cc:82-86 | from then on the window is closing; nothing else changes |
| UnloadController.UnloadController.CancelWindowClose | browser/ui/unload_controller.cc:64-72 | drops the unload queue, tells a pending confirmer `false`, stops closing and reports that browsers are no longer closing; the beforeunload set is kept |
| UnloadController.UnloadController.ProcessPendingTabs | browser/ui/unload_controller.cc:119-197 | the new fields are the `Processed` outcome of the old ones while closing; outside a close only the posted task is cancelled |
| UnloadController.UnloadController.ClearUnloadState | browser/ui/unload_controller.cc:217-234 | outside a close nothing changes; while closing the tab leaves both sets, then the fields are the `Processed` outcome or a delayed run is posted once |
| UnloadController.UnloadController.BeforeUnloadFired | browser/ui/unload_controller.cc:35-62 | outside a close the user's answer is returned and only a refusal is logged; a refusal during a close runs `CancelWindowClose` (unload queue dropped, no longer closing, a pending confirmer hears `false` and is cleared, browsers announced as no longer closing, the posted flag kept) and logs the refusal; consent for a waiting tab moves it to the unload queue, processes (`Processed`) and returns false; consent for any other tab returns true and changes nothing |
| UnloadController.UnloadController.RenderProcessGone | browser/ui/unload_controller.cc:88-95 | while closing, exactly the `ClearUnloadState` without immediate processing: the crashed tab leaves both sets, every other tab stays, the window stays closing and processing is posted, logged once unless already posted; otherwise nothing changes |
| UnloadController.UnloadController.RunPostedTask | browser/ui/unload_controller.cc:229-231 | the posted task runs `ProcessPendingTabs` only while it has not been cancelled: while closing, the new state is `Processed` of the old one; outside a close only the posted flag clears; with no task posted nothing changes |
| UnloadController.CloseWithoutHandlers | browser/ui/unload_controller.cc:130-137 | a closing window whose tabs need no events has completed unload processing after one pass |
| UnloadController.ProceedQueuesUnload | browser/ui/unload_controller.cc:50-58 | a tab whose beforeunload handler consents moves to the unload queue and the answer is false |
| BrowserList.RemoveAbsent | browser/ui/browser_list.cc:80-86 | removing an absent browser changes nothing |
| BrowserList.RemoveAt | browser/ui/browser_list.cc:82-85 | removing a present browser cuts out its first occurrence and keeps the rest in order |
| BrowserList.RemoveFirstMultiset | browser/ui/browser_list.cc:80-86 | removal takes out exactly one occurrence of a present browser |
| BrowserList.RemoveBrowserFrom | browser/ui/browser_list.cc:80-86 | the loop finds the first occurrence and erases it, as the reference removal does |
| BrowserList.BrowserList.constructor | browser/ui/browser_list.cc:75-76 | an empty list |
| BrowserList.BrowserList.AddBrowser | browser/ui/browser_list.cc:40-51 | appends the browser, then registers its keep-alive, then notifies observers |
| BrowserList.BrowserList.RemoveBrowser | browser/ui/browser_list.cc:53-63 | removes the first occurrence, notifies, then drops the keep-alive |
| BrowserList.AppendThenRemove | browser/ui/browser_list.cc:40-63 | adding an unlisted browser and removing it restores the list |
| BrowserList.Visits | browser/ui/browser_list.cc:19-28 | one visit per browser, in list order |
| BrowserList.BrowserList.ForEachCurrentBrowser | browser/ui/browser_list.cc:19-28 | the function runs once on each browser listed when the call starts, from the oldest to the newest, and the list is unchanged |
| Browser.CountsPositive | browser/ui/browser.cc:134-143 | every process in the count map holds at least one fast-closable tab |
| Browser.CountZero | browser/ui/browser.cc:134-143 | a process with no fast-closable tab is not counted |
| Browser.CountOneMore | browser/ui/browser.cc:135-143 | one more tab raises its own process's count by one exactly when it can close without unload events, and no other count |
| Browser.CountsAdd | browser/ui/browser.cc:135-143 | the count map after one more tab: its process's entry is incremented (from zero when absent) exactly when the tab is fast-closable |
| Browser.ShutdownIff | browser/ui/browser.cc:146-148 | a process is asked for a fast shutdown with a count iff the map holds exactly that count for it |
| Browser.ShutdownCounts | browser/ui/browser.cc:134-148 | each process holding a fast-closable tab is asked with the number of such tabs it holds |
| Browser.ClosedIff | browser/ui/browser.cc:150-155 | a tab is closed directly iff it is one of the browser's tabs and the unload helper did not take it over |
| Browser.Browser.constructor | browser/ui/browser.cc:54-60 | a browser with no tabs and a fresh unload controller, appended to the browser list with its keep-alive registered |
| Browser.Browser.Destroy | browser/ui/browser.cc:62-66 | the browser leaves the list (first occurrence) and its keep-alive is dropped |
| Browser.Browser.AddWebContents | browser/ui/browser.cc:95-102 | the contents joins the tabs with this browser as its delegate, and observers hear of it |
| Browser.Browser.CreateWebContents | browser/ui/browser.cc:85-93 | the created contents is added as by `AddWebContents` and returned |
| Browser.Browser.RemoveWebContents | browser/ui/browser.cc:104-124 | an absent contents gives null and changes nothing; a present one leaves the tabs and the delegation, is reported removed, and "empty" follows exactly when no tab is left |
| Browser.Browser.OnWindowClosing | browser/ui/browser.cc:126-156 | the fast-shutdown requests of the count map come first, then the direct closes, each recorded as a `Closed` event; the tabs are untouched because the close's re-entry into `CloseContents` is not modelled |
| Browser.Browser.CloseContents | browser/ui/browser.cc:158-162 | when the unload controller allows it, a present contents leaves the tabs and the delegate set, is reported removed, and "empty" is reported when it was the last tab; otherwise nothing changes |
| Browser.Browser.BeforeUnloadFired | browser/ui/browser.cc:164-169 | outside a close the user's answer is passed on; during a close, unload proceeds iff the user agreed and the tab was not waiting for beforeunload; the unload controller's new state is the one its `BeforeUnloadFired` leaves in each case: only the refusal logged outside a close, the window close cancelled on refusal, the tab queued for unload and `Processed` on consent for a waiting tab, and nothing changed otherwise |
| Browser.CountClosable | browser/ui/browser.cc:134-143 | the counting loop yields the reference count map |
| Browser.ShutdownAll | browser/ui/browser.cc:146-148 | one fast-shutdown request per process of the map, in map order |
| Browser.CloseAll | browser/ui/browser.cc:150-155 | every tab closed in order unless the unload helper takes it |
| BrowserUserData.Created | browser/ui/browser_user_data.h:58-65 | an existing entry wins; otherwise the new instance is attached under the key and nothing else changes |
| BrowserUserData.CreateIdempotent | browser/ui/browser_user_data.h:55-65 | creating twice is creating once |
| BrowserUserData.CreateKeepsOthers | browser/ui/browser_user_data.h:58-65 | creating for one type leaves every other type's entry as it was |
| BrowserUserData.CreateThenRemove | browser/ui/browser_user_data.h:58-92 | creating for a type with no instance and removing it restores the table |
| BrowserUserData.UserDataHost.constructor | browser/ui/browser_user_data.h:51 | a browser with no user data |
| BrowserUserData.UserDataHost.FromBrowser | browser/ui/browser_user_data.h:70-77 | the attached instance of the type, or null when none is attached |
| BrowserUserData.UserDataHost.CreateForBrowser | browser/ui/browser_user_data.h:58-65 | attaches a new instance only when none is attached |
| BrowserUserData.UserDataHost.GetOrCreateForBrowser | browser/ui/browser_user_data.h:79-86 | never null: the attached instance, or a new one attached first |
| BrowserUserData.UserDataHost.RemoveFromBrowser | browser/ui/browser_user_data.h:88-92 | the caller guarantees an attached instance, which is removed and nothing else |
| BrowserShutdown.ToShutdownTypeString | browser/lifetime/browser_shutdown.cc:26-42 | the crash-key value of a shutdown type fits the 11-character key; `kNotValid` must not reach it |
| BrowserShutdown.ToShutdownTypeStringInjective | browser/lifetime/browser_shutdown.cc:26-42 | distinct shutdown types give distinct crash-key values |
| BrowserShutdown.SlowCount | browser/lifetime/browser_shutdown.cc:91-94 | the slow processes number at most all processes, and none iff every process shut down fast |
| BrowserShutdown.CountProcesses | browser/lifetime/browser_shutdown.cc:85-96 | every host is counted, and the slow count is the number that could not shut down fast |
| BrowserShutdown.ShutdownState.constructor | browser/lifetime/browser_shutdown.cc:21-24 | no shutdown type, not started, not quitting, counters zero |
| BrowserShutdown.ShutdownState.OnShutdownStarting | browser/lifetime/browser_shutdown.cc:55-97 | only the first call takes effect: it records the type, its crash key and the start, and counts the processes only when a `BrowserProcess` exists |
| BrowserShutdown.ShutdownState.HasShutdownStarted | browser/lifetime/browser_shutdown.cc:99-102 | true iff a shutdown type has been recorded |
| BrowserShutdown.ShutdownState.ShouldIgnoreUnloadHandlers | browser/lifetime/browser_shutdown.cc:104-108 | true iff the recorded type is end-session or silent exit, and so only after shutdown started |
| BrowserShutdown.ShutdownState.SetTryingToQuit | browser/lifetime/browser_shutdown.cc:110-113 | sets the quitting flag and nothing else |
| BrowserShutdown.FirstTypeWins | browser/lifetime/browser_shutdown.cc:57-59 | a second `OnShutdownStarting` does not change the recorded type |
| BrowserShutdown.SetThenGet | browser/lifetime/browser_shutdown.cc:110-118 | `IsTryingToQuit` gives back the value last set |
| BrowserCloseManager.FirstWaiting | browser/lifetime/browser_close_manager.cc:63-70 | the position of the first browser that asks to wait: every browser before it agreed; none when every browser agreed |
| BrowserCloseManager.TryEvents | browser/lifetime/browser_close_manager.cc:63-66 | one close attempt per browser, in list order |
| BrowserCloseManager.ResetEvents | browser/lifetime/browser_close_manager.cc:52-54 | one reset per browser, in list order |
| BrowserCloseManager.CloseEvents | browser/lifetime/browser_close_manager.cc:112-120 | for each browser in order, its warning kept, then its window closed |
| BrowserCloseManager.CloseEventsAppend | browser/lifetime/browser_close_manager.cc:112-120 | closing two lists one after the other is closing their concatenation |
| BrowserCloseManager.FindWaiting | browser/lifetime/browser_close_manager.cc:63-70 | the loop stops at the first waiting browser, having asked exactly the browsers up to it |
| BrowserCloseManager.CloseEach | browser/lifetime/browser_close_manager.cc:111-121 | the loop closes every browser, warnings kept |
| BrowserCloseManager.ResetEach | browser/lifetime/browser_close_manager.cc:52-54 | the loop resets every browser's close attempt |
| BrowserCloseManager.CloseBrowsers | browser/lifetime/browser_close_manager.cc:111-121 | ignoring unload handlers, the first browser skips its warning and closes and the `NOTREACHED` is hit; otherwise every browser closes with its warning kept |
| BrowserCloseManager.BrowserCloseManager.constructor | browser/lifetime/browser_close_manager.cc:26 | no current browser and no timer |
| BrowserCloseManager.BrowserCloseManager.TryToCloseBrowsers | browser/lifetime/browser_close_manager.cc:57-81 | the first waiting browser becomes current and the timer runs on; when none waits the timer stops and all browsers close |
| BrowserCloseManager.BrowserCloseManager.StartClosingBrowsers | browser/lifetime/browser_close_manager.cc:29-41 | starts the timer; ignoring unload handlers marks quitting and closes at once; otherwise the outcome of `TryToCloseBrowsers`: the first browser still waiting is awaited after the attempts up to it, or the timer stops and every browser closes with the awaited browser unchanged; the shutdown type is kept |
| BrowserCloseManager.BrowserCloseManager.CancelBrowserClose | browser/lifetime/browser_close_manager.cc:43-55 | stops the timer, stops quitting and resets every browser's close attempt, in list order |
| BrowserCloseManager.BrowserCloseManager.OnBrowserReportCloseable | browser/lifetime/browser_close_manager.cc:83-95 | ignored while no browser is awaited; otherwise the awaited browser is released; a refusal cancels the close and resets every browser; consent resumes closing with the outcome of `TryToCloseBrowsers`: the first browser still waiting is awaited after logging the browsers tried up to it, or the timer stops and every browser closes in list order (a crash when unload handlers are ignored with browsers left) |
| BrowserCloseManager.CloseAllWhenNoneWaits | browser/lifetime/browser_close_manager.cc:29-81 | when no browser waits and handlers are honoured, starting asks every browser and then closes every window, in list order |
| ApplicationLifetimeDesktop.PlatformExits | browser/lifetime/application_lifetime_desktop.cc:120-127 | the number of platform exits in a log: at most its length, and zero iff none occurs |
| ApplicationLifetimeDesktop.AreAllBrowsersCloseable | browser/lifetime/application_lifetime_desktop.cc:141-153 | true for an empty list, and otherwise true iff no browser still needs beforeunload fired |
| ApplicationLifetimeDesktop.Lifetime.constructor | browser/lifetime/application_lifetime_desktop.cc:84-121 | both once-flags clear and nothing recorded |
| ApplicationLifetimeDesktop.Lifetime.OnAppExiting | browser/lifetime/application_lifetime_desktop.cc:120-127 | platform exit handling runs the first time only, so the log holds exactly one platform exit afterwards |
| ApplicationLifetimeDesktop.Lifetime.ShutdownIfNoBrowsers | browser/lifetime/application_lifetime_desktop.cc:42-52 | nothing while browsers exist; otherwise quitting is set, termination is announced and `OnAppExiting` runs; the shutdown record is untouched |
| ApplicationLifetimeDesktop.Lifetime.CloseAllBrowsers | browser/lifetime/application_lifetime_desktop.cc:56-68 | with no browser, the shutdown of `ShutdownIfNoBrowsers` and no close manager; otherwise a new close manager runs `StartClosingBrowsers`: ignoring unload handlers marks quitting and crashes with no browser awaited; otherwise quitting is kept and the manager awaits the first waiting browser with the timer running and the attempts up to it logged, or stops the timer after logging every attempt and every close; the shutdown type is kept |
| ApplicationLifetimeDesktop.Lifetime.ShutdownIfNeeded | browser/lifetime/application_lifetime_desktop.cc:70-76 | nothing when already quitting or while browsers exist; otherwise the shutdown of `ShutdownIfNoBrowsers` |
| ApplicationLifetimeDesktop.Lifetime.SessionEnding | browser/lifetime/application_lifetime_desktop.cc:78-118 | the first call with a `BrowserProcess` records an end-session shutdown, announces closing, writes data and terminates; every other call does nothing |
| ApplicationLifetimeDesktop.OnAppExitingOnce | browser/lifetime/application_lifetime_desktop.cc:120-127 | however often `OnAppExiting` is called, platform exit handling runs once |
| ApplicationLifetimeDesktop.SessionEndsOnce | browser/lifetime/application_lifetime_desktop.cc:83-90 | two `SessionEnding` calls log exactly one "closing all browsers", one end-session and one termination, in that order |
| BrowserProcess.BrowserProcess.constructor | browser/browser_process.cc:18-20 | the new object becomes the global instance, with no quit closure |
| BrowserProcess.BrowserProcess.Destroy | browser/browser_process.cc:22-24 | the global instance is cleared |
| BrowserProcess.BrowserProcess.Init | browser/browser_process.cc:26-31 | the keep-alive registry is told it is not shutting down and is observed |
| BrowserProcess.BrowserProcess.SetQuitClosure | browser/browser_process.cc:34-39 | stores the closure; none may be set yet |
| BrowserProcess.BrowserProcess.GpuModeManager | browser/browser_process.cc:42-45 | there is no GPU mode manager |
| BrowserProcess.BrowserProcess.Pin | browser/browser_process.cc:57-60 | changes nothing |
| BrowserProcess.BrowserProcess.Unpin | browser/browser_process.cc:62-66 | runs and consumes the quit closure; a second unpin runs a null closure |
| BrowserProcess.BrowserProcess.OnKeepAliveStateChanged | browser/browser_process.cc:47-53 | keeping alive pins and changes nothing; letting go unpins: a set quit closure runs once and is consumed, and with none set nothing runs; the observer registration and the registry shutdown flag are never touched |
| BrowserProcess.QuitClosureRunsOnce | browser/browser_process.cc:34-66 | a set quit closure runs on the first unpin only |
| RadiumProcessSingleton.RadiumProcessSingleton.constructor | browser/radium_process_singleton.cc:25-31 | a singleton over the directory, not yet the singleton instance, with no callback |
| RadiumProcessSingleton.RadiumProcessSingleton.NotifyOtherProcessOrCreate | browser/radium_process_singleton.cc:35-44 | called at most once; returns the lock's answer, and the process becomes the singleton iff no other process answered |
| RadiumProcessSingleton.RadiumProcessSingleton.StartWatching | browser/radium_process_singleton.cc:46-48 | passed on to the lock and nothing else |
| RadiumProcessSingleton.RadiumProcessSingleton.Cleanup | browser/radium_process_singleton.cc:50-54 | the lock is cleaned up only by the singleton instance |
| RadiumProcessSingleton.RadiumProcessSingleton.Unlock | browser/radium_process_singleton.cc:56-60 | the callback is stored before the startup lock opens |
| RadiumProcessSingleton.RadiumProcessSingleton.NotificationCallback | browser/radium_process_singleton.cc:90-95 | a stored callback handles the message and its answer is returned |
| RadiumProcessSingleton.Globals.CreateInstance | browser/radium_process_singleton.cc:62-68 | only when there is no instance and the directory is non-empty; the new instance is not yet the singleton |
| RadiumProcessSingleton.Globals.DeleteInstance | browser/radium_process_singleton.cc:70-76 | afterwards there is no instance |
| RadiumProcessSingleton.Globals.GetInstance | browser/radium_process_singleton.cc:78-82 | the instance, which must exist |
| RadiumProcessSingleton.Globals.IsSingletonInstance | browser/radium_process_singleton.cc:84-88 | false without an instance; with one, true exactly when that instance says it is the singleton |
| RadiumProcessSingleton.BecomesSingletonOnlyWhenAlone | browser/radium_process_singleton.cc:35-88 | after notifying, the process is the singleton iff it created the lock |
| RadiumProcessSingleton.DeleteTwice | browser/radium_process_singleton.cc:70-88 | deleting twice is deleting once, and then no process is the singleton |
| RadiumViewsDelegate.RadiumViewsDelegate.constructor | browser/ui/views/radium_views_delegate.cc:11 | no references and no keep-alive |
| RadiumViewsDelegate.RadiumViewsDelegate.AddRef | browser/ui/views/radium_views_delegate.cc:28-36 | every call counts one reference; the first acquires the keep-alive |
| RadiumViewsDelegate.RadiumViewsDelegate.ReleaseRef | browser/ui/views/radium_views_delegate.cc:38-44 | a reference must be outstanding; the count drops by one and the last release drops the keep-alive |
| RadiumViewsDelegate.RadiumViewsDelegate.GetSavedWindowPlacement | browser/ui/views/radium_views_delegate.cc:20-26 | no placement is ever saved |
| RadiumViewsDelegate.RadiumViewsDelegate.OnBeforeWidgetInit | browser/ui/views/radium_views_delegate.cc:50-72 | an inferred opacity becomes opaque and no other changes; a widget that already has a native widget keeps it; otherwise the factory's widget when it gives one, else a newly created one; a native widget is always set |
| RadiumViewsDelegate.BalancedRefs | browser/ui/views/radium_views_delegate.cc:28-44 | `n` references taken and given back acquire the keep-alive once and release it once |
| RadiumWebUIConfigMap.OriginOf | browser/ui/webui/radium_webui_config_map.cc:96 | the origin of a URL keeps its scheme and host |
| RadiumWebUIConfigMap.ConfigOrigin | browser/ui/webui/radium_webui_config_map.cc:78-80 | a config is registered under the origin of `scheme://host` |
| RadiumWebUIConfigMap.RadiumWebUIConfigMap.constructor | browser/ui/webui/radium_webui_config_map.cc:61-66 | an empty registry |
| RadiumWebUIConfigMap.RadiumWebUIConfigMap.AddWebUIConfigImpl | browser/ui/webui/radium_webui_config_map.cc:76-83 | stores the config under its origin; a taken origin fails the `CHECK` and changes nothing |
| RadiumWebUIConfigMap.RadiumWebUIConfigMap.AddWebUIConfig | browser/ui/webui/radium_webui_config_map.cc:70-74 | only `radium` configs are accepted; then as `AddWebUIConfigImpl` |
| RadiumWebUIConfigMap.RadiumWebUIConfigMap.GetConfig | browser/ui/webui/radium_webui_config_map.cc:85-108 | a config exactly when the URL has the `radium` scheme, a config is registered for its origin, is enabled for the context and handles the URL; that config serves the URL's host |
| RadiumWebUIConfigMap.RadiumWebUIConfigMap.RemoveConfig | browser/ui/webui/radium_webui_config_map.cc:110-122 | the URL must have the `radium` scheme; the config of its origin, if any, is removed and returned, and nothing else changes |
| RadiumWebUIConfigMap.RadiumWebUIConfigMap.GetWebUIConfigList | browser/ui/webui/radium_webui_config_map.cc:124-137 | one entry per registered origin, enabled only for a present context the config is enabled in |
| RadiumWebUIConfigMap.AddThenRemove | browser/ui/webui/radium_webui_config_map.cc:70-122 | adding a config and removing its origin gives the config back and leaves the registry empty |
| RadiumWebUIConfigMap.SecondAddRefused | browser/ui/webui/radium_webui_config_map.cc:80-82 | a second config for the same origin is refused and the first stays |
| RadiumDevToolsSession.RadiumDevToolsSession.constructor | browser/devtools/radium_devtools_session.cc:9-11 | a session on its channel with nothing pending |
| RadiumDevToolsSession.RadiumDevToolsSession.HandleCommand | browser/devtools/radium_devtools_session.cc:15-39 | a method the dispatcher does not know goes straight back to the callback with the original message and nothing is stored; a known one stores its callback under the call id, then runs |
| RadiumDevToolsSession.RadiumDevToolsSession.SendProtocolResponse | browser/devtools/radium_devtools_session.cc:41-46 | the call id is no longer pending and the response goes to the client |
| RadiumDevToolsSession.RadiumDevToolsSession.SendProtocolNotification | browser/devtools/radium_devtools_session.cc:48-51 | the notification goes to the client and pending commands are untouched |
| RadiumDevToolsSession.RadiumDevToolsSession.FallThrough | browser/devtools/radium_devtools_session.cc:55-61 | the pending callback is taken out and run with the message; with none pending a null callback is run |
| RadiumDevToolsSession.CommandThenResponse | browser/devtools/radium_devtools_session.cc:37-45 | a known command answered by its handler leaves nothing pending and sends one response |
| RadiumDevToolsSession.CommandThenFallThrough | browser/devtools/radium_devtools_session.cc:37-61 | a known command that falls through reaches its callback exactly once |
| RadiumDevToolsManagerDelegate.RadiumDevToolsManagerDelegate.constructor | browser/devtools/radium_devtools_manager_delegate.cc:29-32 | there must be no instance yet; the new delegate becomes it, with no sessions |
| RadiumDevToolsManagerDelegate.RadiumDevToolsManagerDelegate.Destroy | browser/devtools/radium_devtools_manager_delegate.cc:34-37 | this delegate must be the instance, which is cleared |
| RadiumDevToolsManagerDelegate.RadiumDevToolsManagerDelegate.ClientAttached | browser/devtools/radium_devtools_manager_delegate.cc:106-110 | a channel not yet attached gets one new empty session; other sessions stay |
| RadiumDevToolsManagerDelegate.RadiumDevToolsManagerDelegate.ClientDetached | browser/devtools/radium_devtools_manager_delegate.cc:112-115 | the channel's session, if any, goes and no other |
| RadiumDevToolsManagerDelegate.RadiumDevToolsManagerDelegate.HandleCommand | browser/devtools/radium_devtools_manager_delegate.cc:55-67 | a command on an attached channel is routed to that channel's session, which either hands it straight back to the callback or stores the callback under the call id and dispatches; every other session and the session map are unchanged; on an unknown channel the callback gets the message back and the `NOTREACHED` outcome is reported |
| RadiumDevToolsManagerDelegate.RadiumDevToolsManagerDelegate.AllowInspectingRenderFrameHost | browser/devtools/radium_devtools_manager_delegate.cc:101-104 | every frame may be inspected |
| RadiumDevToolsManagerDelegate.Globals.AllowBrowserToClose | browser/devtools/radium_devtools_manager_delegate.cc:22-27 | the instance, if any, holds no keep-alive afterwards and keeps its sessions |
| RadiumDevToolsManagerDelegate.GetTargetType | browser/devtools/radium_devtools_manager_delegate.cc:69-80 | `page` exactly for a contents inside a `views::WebView`, `other` otherwise |
| RadiumDevToolsManagerDelegate.AttachRouteDetach | browser/devtools/radium_devtools_manager_delegate.cc:55-115 | attaching, routing a known command and detaching: the command was routed and pending, and no session is left |
| RemoteDebuggingServer.IsRemoteDebuggingAllowed | browser/devtools/remote_debugging_server.cc:59-75 | allowed iff the policy allows it and the user-data directory is known not to be the default; the policy is checked first |
| RemoteDebuggingServer.RequestedPort | browser/devtools/remote_debugging_server.cc:99-102 | a port exactly when the switch parses as an `int` in `[0, 65535)` |
| RemoteDebuggingServer.GetInstance | browser/devtools/remote_debugging_server.cc:81-114 | a refusal gives its reason; an allowed call with a valid port starts the server on it; otherwise not requested; a started server was allowed and uses a port below 65535 |
| RemoteDebuggingServer.DecimalPortAccepted | browser/devtools/remote_debugging_server.cc:102 | every port below 65535 written in decimal is accepted as itself |
| RemoteDebuggingServer.LastPortRefused | browser/devtools/remote_debugging_server.cc:102 | port 65535 is refused |
| RemoteDebuggingServer.AbsentSwitchNotRequested | browser/devtools/remote_debugging_server.cc:99-102 | a missing switch requests nothing |
| RadiumContentBrowserClient.ShouldDisableForcedColorsForWebContent | browser/radium_content_browser_client.cc:107-144 | no contents is exempt from forced colours, since the page-colours block list is not consulted |
| RadiumContentBrowserClient.UpdateForcedColorsForWebContent | browser/radium_content_browser_client.cc:146-161 | forced colours follow the native theme and are not disabled; the result is true exactly when either flag changed; the colour schemes are untouched |
| RadiumContentBrowserClient.SchemeOfMode | browser/radium_content_browser_client.cc:164-172 | a light colour mode maps to the light scheme and a dark one to the dark scheme |
| RadiumContentBrowserClient.UpdatePreferredColorScheme | browser/radium_content_browser_client.cc:180-243 | on Android, a tab delegate sets both schemes from night mode, and without one nothing changes; elsewhere the scheme follows the native theme, or the colour mode for a WebUI URL, and the root scrollbar follows the colour mode; the result is true exactly when the preferred scheme changed |
| RadiumContentBrowserClient.SchemeAfterIdempotent | browser/radium_content_browser_client.cc:180-243 | updating the preferred scheme a second time with the same inputs leaves it where the first update put it |
| RadiumContentBrowserClient.OverrideWebPreferencesAfterNavigation | browser/radium_content_browser_client.cc:339-353 | both the forced-colours update and the scheme update run: forced colours follow the native theme; on Android without a tab delegate the root scrollbar scheme is kept, with one both schemes follow night mode; elsewhere the root scrollbar follows the colour mode and the scheme follows the native theme, or the colour mode on a WebUI URL; the result is true exactly when either update changed something |
| RadiumContentBrowserClient.OverrideTwiceIsStable | browser/radium_content_browser_client.cc:339-353 | a second navigation with the same inputs reports no change |
| RadiumContentBrowserClient.ParentDirectories | browser/radium_content_browser_client.cc:515-542 | the user-data directory always comes first; when the cache directory lies under it, nothing else is listed; otherwise the cache directory and any non-empty overriding cache directory follow |
| RadiumContentBrowserClient.InitOnUIThread | browser/radium_content_browser_client.cc:515-542 | the network-context parent directories are built as listed above |
| RadiumContentBrowserClient.OverriddenCacheDropped | browser/radium_content_browser_client.cc:538 | as written, a cache directory "/u/c" under the user-data directory "/u" also drops an overriding cache directory "/p" that lies outside it |
| RadiumContentBrowserClient.IntendedParentDirectories | browser/radium_content_browser_client.cc:530-541 | the corrected list starts with the user-data directory |
| RadiumContentBrowserClient.IntendedCoversCaches | browser/radium_content_browser_client.cc:530-541 | in the corrected list, the cache directory and a non-empty overriding cache directory are each either listed or under the user-data directory, and nothing else is listed |
| RadiumContentBrowserClient.GetProduct | browser/radium_content_browser_client.cc:500-502 | the product string is the short name, a slash, then the version |
| RadiumContentBrowserClient.ProductDeterminesParts | browser/radium_content_browser_client.cc:500-502 | when the short name holds no slash, the product string determines both the name and the version |
| Shell.GetShellDefaultSize | browser/android/shell.cc:753-766 | the default window size is not empty |
| Shell.AdjustWindowSize | browser/android/shell.cc:202-207 | a non-empty size is kept and an empty one becomes the default size; the result is never empty |
| Shell.AdjustWindowSizeIdempotent | browser/android/shell.cc:202-207 | adjusting an already adjusted size changes nothing |
| Shell.NavigationControls | browser/android/shell.cc:338-349 | back is enabled exactly when an entry precedes the current one, forward exactly when one follows it, and stop exactly when the loading UI is shown while the contents is loading |
| Shell.NavigationControlsAtEnds | browser/android/shell.cc:338-349 | with a valid current entry, both directions are disabled exactly when the history holds a single entry; an empty history enables neither; forward is disabled at the last entry |
| Shell.DataLoadParams | browser/android/shell.cc:267-293 | the base URL and the virtual URL are kept; loading as a string puts the bare header in the URL and carries the data URL as a string, and no string is carried otherwise |
| Shell.DataUrlRoundTrip | browser/android/shell.cc:276-286 | both ways of loading deliver the same data URL: the "data:text/html;charset=utf-8," header followed by exactly the data |
| Shell.Shell.constructor | browser/android/shell.cc:69-85 | a shell on its contents, with the given delegate choice and size, is not fullscreen and has loaded nothing |
| Shell.Shell.LoadURL | browser/android/shell.cc:235-240 | one load of the URL is recorded, with no referrer, as typed from the address bar; fullscreen and size are untouched |
| Shell.Shell.LoadDataWithBaseURL | browser/android/shell.cc:251-264 | one data load with the parameters described for DataLoadParams is recorded; fullscreen and size are untouched |
| Shell.Shell.ToggleFullscreenModeForTab | browser/android/shell.cc:495-507 | the fullscreen flag takes the requested state, and the visual properties are synchronised exactly when the flag changed |
| Shell.RemoveFirst | browser/android/shell.cc:87-103 | removing a shell that is not in the list changes nothing; removing one that is shortens the list by one |
| Shell.RemoveFirstOfLast | browser/android/shell.cc:175-200 | in a list without repeats, removing the last shell leaves the shells before it |
| Shell.RemoveFirstDistinct | browser/android/shell.cc:87-103 | in a list without repeats, the removed shell is gone, no repeat appears, and nothing new appears |
| Shell.ShellRegistry.constructor | browser/android/shell.cc:57-67 | no windows, no created callback, no platform, no quit closure |
| Shell.ShellRegistry.Initialize | browser/android/shell.cc:168-172 | the platform must not exist yet; it is created and given the default window size; nothing else changes |
| Shell.ShellRegistry.SetMainMessageLoopQuitClosure | browser/android/shell.cc:133-135 | the quit closure is stored; nothing else changes |
| Shell.ShellRegistry.QuitMainMessageLoopForTesting | browser/android/shell.cc:138-143 | a stored quit closure runs once and is used up; with none stored nothing happens |
| Shell.ShellRegistry.SetShellCreatedCallback | browser/android/shell.cc:146-150 | no callback may be waiting already; the callback is stored and nothing else changes |
| Shell.ShellRegistry.CreateShell | browser/android/shell.cc:105-130 | a new shell on the contents, of the given size and not fullscreen, joins the end of the window list; a waiting created callback runs once with it and is used up |
| Shell.ShellRegistry.CreateNewWindow | browser/android/shell.cc:210-227 | a new delegate-owning shell of the adjusted size joins the window list; it loads the URL as typed unless the URL is empty |
| Shell.ShellRegistry.AddNewContents | browser/android/shell.cc:295-319 | the new contents gets a new shell of the adjusted size, owning its delegate unless popup delegation is delayed |
| Shell.ShellRegistry.FromWebContents | browser/android/shell.cc:158-165 | null exactly when no window shows the contents; otherwise the first window in the list that shows it |
| Shell.ShellRegistry.DestroyShell | browser/android/shell.cc:87-103 | the shell's first occurrence leaves the window list; while windows remain, only its close is recorded; when none is left, the platform is shut down: clients detached, platform deleted, quit closure run |
| Shell.ShellRegistry.Close | browser/android/shell.cc:592-598 | since the Android platform never destroys a shell, the shell is destroyed as in DestroyShell |
| Shell.ShellRegistry.Shutdown | browser/android/shell.cc:175-200 | without a platform nothing happens; otherwise the clients are detached, every window is closed from the newest to the oldest, the platform is deleted, and the quit closure runs once if set |
| Shell.ShellRegistry.CloseAllWindows | browser/android/shell.cc:182-184 | the windows are closed from the newest to the oldest until none is left, and the platform is kept |
| Shell.ShellRegistry.CloseLast | browser/android/shell.cc:182-184 | the newest window leaves the list and its close is recorded; the platform survives exactly when windows remain |
| Shell.ShellRegistry.DeletePlatform | browser/android/shell.cc:186-196 | a platform that is still present is deleted and the quit closure, if set, runs and is used up |
| Shell.ShellRegistry.OpenURLFromTab | browser/android/shell.cc:414-470 | the current tab loads in the source shell; popup, window and tab dispositions open a new window of the default size on the new contents, which loads the URL; any other disposition opens nothing |
| Shell.CreatedCallbackRunsOnce | browser/android/shell.cc:82-84 | of two shells created after one callback was set, only the first is reported |
| Shell.LastCloseShutsDown | browser/android/shell.cc:87-103 | closing the only window shuts the shell down and quits the main loop, and a later Shutdown does nothing |
| Shell.ShutdownClosesNewestFirst | browser/android/shell.cc:175-200 | Shutdown closes the newest window first and quits once |
| Shell.FromWebContentsFindsFirst | browser/android/shell.cc:158-165 | of two shells on the same contents, FromWebContents finds the older one |
| Shell.FullscreenTwice | browser/android/shell.cc:495-507 | requesting the same fullscreen state twice synchronises only once |

## Left out

- Java, JNI and Android plumbing: class loading, `ContextUtils`, `LibraryLoader` and `BrowserStartupController` are not modelled. Their effects are recorded as events or passed in as inputs.
- The Win32 helpers of `install_static/install_util.cc` are left out: `WideToUTF8`, `UTF8ToWide`, `GetEnvironmentString` and the version-resource queries. They wrap operating-system calls. The argument tokenizer is modelled on `seq<char>` read as a NUL-terminated string.
- `base::PathService`, the file system and directory creation are not modelled. Their answers are parameters of the model.
- `FilePath.AppendWith` and `FilePath.Append`: `base::FilePath::Append` is modelled only for a non-empty component and a path that is not "." and does not end in two or more separators. The modelled callers append literal components to such paths. `Append`'s other cases are not modelled: the bare component for ".", stripping trailing separators before joining, and no separator for an empty component. Truncation at an embedded NUL is not modelled either.
- `RadiumPaths`: only the Linux, non-branded configuration of `PathProvider` is modelled. It covers both release and debug builds and both extension settings (`Build(release, enableExtensions)`). The keys of other platforms and the Widevine keys are left out.
- `PostTask` and other task posting are recorded as "posted" events. The posted work is not run, so task ordering and threads are not modelled.
- `BrowserList.BrowserList.ForEachCurrentBrowser`: the enumerator (`browser_list_enumerator.h`) is not part of this model. The visit is over a copy taken at the start. Browsers that the called function adds or removes during the walk are not tracked, and the function is assumed to leave the list alone.
- `BrowserList::ForEachCurrentAndNewBrowser` is left out. It differs from `ForEachCurrentBrowser` only through the enumerator's handling of newly added browsers.
- The browser count used by the lifetime code is the size of the browser list.
- `ApplicationLifetimeDesktop.Lifetime.CloseAllBrowsers`: whether a browser must wait for its unload handlers is an input (`TryToCloseWindow`'s answer). `TabsNeedBeforeUnloadFired` is an input too.
- `OnClosingAllBrowsers` and `AddClosingAllBrowsersCallback` are left out: they manage a callback list with no decisions in it. `MarkAsCleanShutdown` is empty.
- `Browser.Browser.OnWindowClosing`: each `contents->Close()` is recorded as a `Closed` event. Its synchronous re-entry into `CloseContents`, which removes the tab, is not modelled, so the contract keeps the tab set unchanged.
- `UnloadController`: `CanCloseContents`, `ShouldRunUnloadEventsHelper` and `RunUnloadEventsHelper` are not defined in `unload_controller.cc`. Their answers are inputs.
- `UnloadController`: the recursion between `ProcessPendingTabs` and `ClearUnloadState` is modelled on a value of the controller's state, and each class method stores the result. Termination needs the consistency requirement that a tab needing unload events still has a live renderer; without it the source recurses without end too.
- `UnloadController`: `ProcessPendingTabs` erases from the set it iterates over. The model iterates over a snapshot of the set.
- `UnloadController`: `on_close_confirmed_` is never assigned in the source. It is kept as a field that stays unset.
- `RadiumMainDelegate`: hang-watcher setup is left out, and only its process-type map is modelled. Crash keys and crash reporting are left out.
- `RadiumMainDelegate`: the OOM score constants are not defined in `radium_main_delegate.cc`. They are kept as named constants, and only the mapping from process type to constant is modelled.
- The content-layer switch names are Chromium's: "renderer", "utility", "gpu-process", "zygote", "ppapi".
- `RadiumContentBrowserClient.UpdatePreferredColorScheme`: `force_light` is the constant `false` in the source, so the forced-light branch is dead. A colored frame is never in use.
- Android's renderer preferences are left out. The client's other overrides (GPU, shader cache and similar) are outside this model.
- `LoggingRadium`: Windows-only logging details are left out, apart from the absolute-path test on log file names. These are the log directory under the user-data directory and the Event Log.
- `profile.cc` is not part of this model. A profile is a `Profile(id, path, isSystem)` value: an identity, its path, and whether it is the system profile.
- `ProfileManagement.ProfileManager.GetLoadedProfiles`: the profiles come back in no stated order. The source walks a `std::map` keyed by path, so its list is in path order; the model promises only the set of loaded profiles, each once.
- `ProfileManagement.CollectLoaded`: the loop visits the map's keys in an arbitrary order, not in the path order of the source's `std::map`, so the order of the result is not promised.
- `ProfilesState::IsRegularUserProfile` is left out: the `ProfileSelections` it consults is not part of this model.
- The views delegate's `IsShuttingDown` is left out: it reads the keep-alive registry, which is not part of this model.
- The views delegate's `SaveWindowPlacement` is empty.
- The views delegate's `CreateNativeWidget` is left out: its choice of native widget depends on the views toolkit.
- `WebUIConfigMapWebUIControllerFactory` is left out: it only forwards to `GetConfig`. `GetWebUIConfigList` lists every registered origin once, but not in the map's iteration order.
- DevTools: the protocol parser (`crdtp`) is not modelled, so a message's call id and whether its method is known are inputs.
- The following devtools members are left out: `Inspect`, `Activate`, `GetBrowserContexts`, `GetDefaultBrowserContext`, `CreateBrowserContext`, `DisposeBrowserContext`, `CreateNewTarget`, `HasBundledFrontendResources`, `FlushProtocolNotifications` and the `RemoteDebuggingServer` destructor. They create or forward objects outside this model.
- The TCP server socket factory and the devtools HTTP handler are left out.
- `RadiumDevToolsManagerDelegate`: `keep_alive_` is never acquired in the source, so the model keeps it unset.
- `Shell`: on Android, `IsFullscreenForTabOrPending` asks the platform delegate. Only the desktop answer, `is_fullscreen_`, is in the model, as `Shell.Shell.isFullscreen`.
- `Shell`: the WebRTC IP policy switch, font renderer preferences, file choosers and the JavaScript dialog manager are left out. Console messages, colour choosers, picture-in-picture and the other `WebContentsDelegate` hooks, which only forward or return constants, are left out too.
- `Shell::LoadURLForFrame` is left out; `LoadURL` is modelled as its call for the main frame. `Reload`, `ReloadBypassingCache`, `Stop` and `GoBackOrForward` are left out: they only forward to the web contents.
- `Shell.DataUrlRoundTrip`: URLs are modelled as raw strings. GURL canonicalisation (percent-encoding of non-ASCII and special characters, trimming of trailing spaces and control characters) is left out, so the round trip holds for the string before canonicalisation. Two loads agree after canonicalisation only because they agree before it.
- `Shell.DataLoadParams`: the GURLs built from the base URL, the virtual URL and the data URL are the raw strings, with no canonicalisation or validity check.
- `Shell.ShellRegistry.Shutdown`: the loop that disables ref counts of renderer processes and the final `RunUntilIdle` are left out.
- `Shell.GetShellDefaultSize`: the static cache is left out. The function returns the 800 by 600 default, which is the value the cache holds after its first use.
- Integers are unbounded except where the source's width matters. `base::StringToInt` is modelled on 32-bit `int`.

### Behaviour worth noting

- `RadiumShellActivity`: a URL saved under `activeUrl` overrides the fixed startup URL and the default.
- `ProfileManagement.ProfileManager.GetProfileByPath` returns entries whose creation has not finished. `GetLastUsedProfile` never loads a profile. A profile created synchronously is never marked created.
- Paths the source ends in `NOTREACHED()` are modelled as error outcomes: `Crashed` in `BrowserCloseManager`, `UnknownChannel` in `RadiumDevToolsManagerDelegate`.
- `RadiumDevToolsSession.RadiumDevToolsSession.FallThrough` on a call id that is not pending runs a null callback. This is modelled as `RanNull`.
- `RemoteDebuggingServer`: port 65535 is refused, because the accepted range is `[0, 65535)`.

## Findings

| source | as written | input that shows it | evidently intended | confidence | as-written member | corrected member |
|---|---|---|---|---|---|---|
| browser/profiles/profile_manager.cc:112-118 | the early return for an already created profile is taken only when an init callback is given; without one, the created callback is queued on the finished entry | `CreateProfileAsync(p, null, cb)` for a profile `p` whose creation has already finished: `cb` is queued on `p`'s entry and no later call runs it | a created profile gets nothing queued; any init callback runs at once | medium, not executed | ProfileManagement.CreatedCallbackStranded | ProfileManagement.IntendedKeepsDrained |
| browser/radium_content_browser_client.cc:538 | the overriding cache directory from local state is listed only when `!user_data_dir.IsParent(cache_dir)`, which tests the default cache directory instead of the overriding one | user data "/u", cache "/u/c", overriding cache "/p": "/p" is not listed although it lies outside "/u" | test `!user_data_dir.IsParent(pref_cache_dir)` | low, not executed | RadiumContentBrowserClient.OverriddenCacheDropped | RadiumContentBrowserClient.IntendedCoversCaches |
