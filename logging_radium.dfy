/**
 * logging_radium.cc: choosing the log file, initialising and cleaning up
 * logging, and suppressing error dialogs. The translation unit's globals
 * (`dialogs_are_suppressed_`, `assert_handler_`, `radium_logging_initialized_`,
 * `radium_logging_failed_`) are the fields of `LoggingRadium`; calls into
 * `base::logging` are recorded as events, and what `PathService` and
 * `InitLogging` answer are inputs.
 */
module LoggingRadium {
  import opened Wrappers
  import FilePath
  import NumberConversions

  const LogFileName: string := "radium_debug.log"

  /** `LOGGING_NUM_SEVERITIES`: INFO, WARNING, ERROR and FATAL. */
  const LoggingNumSeverities: int := 4

  datatype Platform = Posix | Windows

  /** The switches this file reads; an absent `--log-file` reads as "". */
  datatype CommandLine = CommandLine(logFile: string, noErrorDialogs: bool, loggingLevel: Option<string>)

  datatype OldFileDeletionState = AppendToOldLogFile | DeleteOldLogFile

  /** The `LoggingSettings` passed to `InitLogging`; every destination, file locked. */
  datatype LoggingSettings = LoggingSettings(logFilePath: string, lockLog: bool, deleteOld: OldFileDeletionState)

  datatype Event =
    | InitLogging(settings: LoggingSettings)
    | ShowErrorDialogs
    /** `SetLogItems(true, true, true, false)`: process id, thread id, timestamp, no tick count. */
    | SetLogItems
    | InstallAssertHandler
    | SetMinLogLevel(level: int)
    | BadLogLevel(value: string)
    | InitLogOnShutdown
    | CloseLogFile

  // ---------------------------------------------------------------------
  // GetLogFileName

  /** `NormalizePathSeparators` on Windows: every '/' becomes '\'. */
  function NormalizeSeparators(p: string): (r: string)
    ensures |r| == |p| && '/' !in r
  {
    seq(|p|, i requires 0 <= i < |p| => if p[i] == '/' then '\\' else p[i])
  }

  predicate IsAsciiLetter(c: char) { 'a' <= c <= 'z' || 'A' <= c <= 'Z' }

  /** `FilePath::IsAbsolute` on Windows (after normalising): "X:\..." or a UNC "\\...". */
  predicate IsAbsoluteWindows(p: string)
  {
    (|p| >= 3 && IsAsciiLetter(p[0]) && p[1] == ':' && p[2] == '\\') ||
    (|p| >= 2 && p[0] == '\\' && p[1] == '\\')
  }

  /**
   * `GetLogFileName`: a non-empty `--log-file` (on Windows only if absolute
   * once normalised), else "radium_debug.log" in `DIR_LOGS` when that
   * resolves, else the bare name (or, on Windows, the empty path).
   * `logsDir` is `PathService::Get(DIR_LOGS)`.
   */
  function GetLogFileName(platform: Platform, commandLine: CommandLine, logsDir: Option<string>): string
  {
    var filename := commandLine.logFile;
    if filename != "" && platform == Posix then filename
    else if filename != "" && IsAbsoluteWindows(NormalizeSeparators(filename)) then NormalizeSeparators(filename)
    else if logsDir.Some? then FilePath.AppendWith(if platform == Windows then '\\' else '/', logsDir.value, LogFileName)
    else if platform == Windows then ""
    else LogFileName
  }

  /**
   * The precedence of `GetLogFileName`: the switch wins when usable; a
   * relative switch is never used on Windows; otherwise the default name is
   * used, in `DIR_LOGS` when it resolves; only Windows without `DIR_LOGS`
   * yields the empty path.
   */
  lemma LogFileNamePrecedence(platform: Platform, commandLine: CommandLine, logsDir: Option<string>)
    ensures var r := GetLogFileName(platform, commandLine, logsDir);
      (platform == Posix && commandLine.logFile != "" ==> r == commandLine.logFile) &&
      ((platform == Windows && commandLine.logFile != "" &&
        IsAbsoluteWindows(NormalizeSeparators(commandLine.logFile))) ==>
         r == NormalizeSeparators(commandLine.logFile)) &&
      (r == "" <==> platform == Windows && logsDir.None? &&
                    !(commandLine.logFile != "" && IsAbsoluteWindows(NormalizeSeparators(commandLine.logFile))))
  {
  }

  /** Whenever the switch is not used the file is "radium_debug.log", in `DIR_LOGS` if it resolves. */
  lemma DefaultLogFile(platform: Platform, commandLine: CommandLine, logsDir: Option<string>)
    requires commandLine.logFile == "" ||
             (platform == Windows && !IsAbsoluteWindows(NormalizeSeparators(commandLine.logFile)))
    ensures var r := GetLogFileName(platform, commandLine, logsDir);
      (logsDir.Some? ==> |r| >= |LogFileName| && r[..|logsDir.value|] == logsDir.value &&
                         r[|r| - |LogFileName|..] == LogFileName) &&
      (logsDir.None? ==> r == (if platform == Windows then "" else LogFileName))
  {
    if logsDir.Some? {
      var r := GetLogFileName(platform, commandLine, logsDir);
      assert r == FilePath.AppendWith(if platform == Windows then '\\' else '/', logsDir.value, LogFileName);
    }
  }

  // ---------------------------------------------------------------------
  // The logging-level switch

  /** What the `--log-level` handling does. */
  datatype LevelDecision = LevelUntouched | ApplyLevel(level: int) | RejectLevel(value: string)

  /**
   * The switch is considered only when present and the minimum level is
   * non-negative (no verbose level in force); it is applied only when it
   * parses as an int in [0, LOGGING_NUM_SEVERITIES).
   */
  function LevelDecisionFor(loggingLevel: Option<string>, currentMinLevel: int): (d: LevelDecision)
    ensures d.ApplyLevel? ==> loggingLevel.Some? && 0 <= d.level < LoggingNumSeverities &&
                              NumberConversions.StringToInt(loggingLevel.value) == Some(d.level)
    ensures d.RejectLevel? ==> loggingLevel == Some(d.value)
    ensures d == LevelUntouched <==> loggingLevel.None? || currentMinLevel < 0
  {
    if loggingLevel.Some? && currentMinLevel >= 0 then
      var parsed := NumberConversions.StringToInt(loggingLevel.value);
      if parsed.Some? && parsed.value >= 0 && parsed.value < LoggingNumSeverities then ApplyLevel(parsed.value)
      else RejectLevel(loggingLevel.value)
    else LevelUntouched
  }

  /** Every severity's decimal text is applied as that level, and the next number is rejected. */
  lemma SeverityLevelsApplied(level: nat, currentMinLevel: int)
    requires currentMinLevel >= 0
    ensures level < LoggingNumSeverities ==>
      LevelDecisionFor(Some(NumberConversions.DecimalString(level)), currentMinLevel) == ApplyLevel(level)
    ensures level >= LoggingNumSeverities && level <= NumberConversions.IntMax ==>
      LevelDecisionFor(Some(NumberConversions.DecimalString(level)), currentMinLevel).RejectLevel?
  {
    if level <= NumberConversions.IntMax {
      NumberConversions.StringToIntOfDecimal(level);
    }
  }

  // ---------------------------------------------------------------------
  // The reference events of the operations

  /** The events of `SuppressDialogs` given whether dialogs are already suppressed. */
  function SuppressDialogsEvents(suppressed: bool): seq<Event>
  {
    if suppressed then [] else [InstallAssertHandler]
  }

  /** The event of the level decision. */
  function LevelEvents(d: LevelDecision): seq<Event>
  {
    match d
    case LevelUntouched => []
    case ApplyLevel(l) => [SetMinLogLevel(l)]
    case RejectLevel(v) => [BadLogLevel(v)]
  }

  /** The events of `InitRadiumLogging` after the underlying `InitLogging` call. */
  function AfterInitEvents(commandLine: CommandLine, suppressed: bool, minLevelAfterInit: int): seq<Event>
  {
    var headless := commandLine.noErrorDialogs;
    (if headless then [] else [ShowErrorDialogs]) +
    [SetLogItems] +
    (if headless then SuppressDialogsEvents(suppressed) else []) +
    LevelEvents(LevelDecisionFor(commandLine.loggingLevel, minLevelAfterInit)) +
    [InitLogOnShutdown]
  }

  /** The settings handed to `InitLogging`: the chosen file, locked, with the caller's deletion state. */
  function SettingsFor(platform: Platform, commandLine: CommandLine, deleteOld: OldFileDeletionState,
                       logsDir: Option<string>): LoggingSettings
  {
    LoggingSettings(GetLogFileName(platform, commandLine, logsDir), true, deleteOld)
  }

  /** All events of `InitRadiumLogging`: the set-up continues only when `InitLogging` succeeds. */
  function InitEvents(platform: Platform, commandLine: CommandLine, deleteOld: OldFileDeletionState,
                      logsDir: Option<string>, initSucceeds: bool, suppressed: bool,
                      minLevelAfterInit: int): seq<Event>
  {
    [InitLogging(SettingsFor(platform, commandLine, deleteOld, logsDir))] +
    (if initSucceeds then AfterInitEvents(commandLine, suppressed, minLevelAfterInit) else [])
  }

  /** The minimum level after the `--log-level` handling. */
  function NewMinLevel(loggingLevel: Option<string>, currentMinLevel: int): int
  {
    match LevelDecisionFor(loggingLevel, currentMinLevel)
    case ApplyLevel(l) => l
    case _ => currentMinLevel
  }

  lemma AppendAssoc(a: seq<Event>, b: seq<Event>, c: seq<Event>)
    ensures a + b + c == a + (b + c)
  {
  }

  /** The logging globals of the process. */
  class LoggingRadium {
    var dialogsAreSuppressed: bool
    /** How many `ScopedLogAssertHandler`s `SuppressDialogs` has created. */
    var assertHandlers: nat
    var initialized: bool
    var failed: bool
    /** `GetMinLogLevel()`. */
    var minLogLevel: int
    var events: seq<Event>

    /** One assert handler exactly while dialogs are suppressed. */
    predicate Valid()
      reads this
    {
      assertHandlers == (if dialogsAreSuppressed then 1 else 0)
    }

    constructor ()
      ensures Valid() && !dialogsAreSuppressed && !initialized && !failed
      ensures minLogLevel == 0 && events == []
    {
      dialogsAreSuppressed := false;
      assertHandlers := 0;
      initialized := false;
      failed := false;
      minLogLevel := 0;
      events := [];
    }

    /** `SuppressDialogs`: a no-op once dialogs are suppressed. */
    method SuppressDialogs()
      requires Valid()
      modifies this
      ensures Valid() && dialogsAreSuppressed
      ensures events == old(events) + SuppressDialogsEvents(old(dialogsAreSuppressed))
      ensures initialized == old(initialized) && failed == old(failed) && minLogLevel == old(minLogLevel)
    {
      if dialogsAreSuppressed {
        return;
      }
      assertHandlers := assertHandlers + 1;
      events := events + [InstallAssertHandler];
      dialogsAreSuppressed := true;
    }

    /**
     * `InitRadiumLogging`. `logsDir` is what `PathService` gives for
     * `DIR_LOGS`, `initSucceeds` what `InitLogging` returns and
     * `minLevelAfterInit` the minimum level it leaves in force.
     */
    method InitRadiumLogging(platform: Platform, commandLine: CommandLine, deleteOld: OldFileDeletionState,
                             logsDir: Option<string>, initSucceeds: bool, minLevelAfterInit: int)
      requires Valid() && !initialized
      modifies this
      ensures Valid()
      ensures events == old(events) + InitEvents(platform, commandLine, deleteOld, logsDir, initSucceeds,
                                                 old(dialogsAreSuppressed), minLevelAfterInit)
      ensures initialized == initSucceeds
      ensures failed == (old(failed) || !initSucceeds)
      ensures dialogsAreSuppressed == (old(dialogsAreSuppressed) || (initSucceeds && commandLine.noErrorDialogs))
      ensures !initSucceeds ==> minLogLevel == old(minLogLevel)
      ensures initSucceeds ==> minLogLevel == NewMinLevel(commandLine.loggingLevel, minLevelAfterInit)
    {
      var logPath := GetLogFileName(platform, commandLine, logsDir);
      var settings := LoggingSettings(logPath, true, deleteOld);
      events := events + [InitLogging(settings)];
      if !initSucceeds {
        failed := true;
        return;
      }
      minLogLevel := minLevelAfterInit;
      FinishInit(commandLine);
      AppendAssoc(old(events), [InitLogging(settings)],
                  AfterInitEvents(commandLine, old(dialogsAreSuppressed), minLevelAfterInit));
      initialized := true;
    }

    /** The part of `InitRadiumLogging` after a successful `InitLogging`, with its minimum level in force. */
    method FinishInit(commandLine: CommandLine)
      requires Valid()
      modifies this
      ensures Valid()
      ensures events == old(events) + AfterInitEvents(commandLine, old(dialogsAreSuppressed), old(minLogLevel))
      ensures dialogsAreSuppressed == (old(dialogsAreSuppressed) || commandLine.noErrorDialogs)
      ensures minLogLevel == NewMinLevel(commandLine.loggingLevel, old(minLogLevel))
      ensures initialized == old(initialized) && failed == old(failed)
    {
      var isHeadless := commandLine.noErrorDialogs;
      if !isHeadless {
        events := events + [ShowErrorDialogs];
      }
      events := events + [SetLogItems];
      if isHeadless {
        SuppressDialogs();
      }
      ApplyLoggingLevel(commandLine.loggingLevel);
      events := events + [InitLogOnShutdown];
    }

    /** The `--log-level` handling of `InitRadiumLogging`. */
    method ApplyLoggingLevel(loggingLevel: Option<string>)
      modifies this
      ensures events == old(events) + LevelEvents(LevelDecisionFor(loggingLevel, old(minLogLevel)))
      ensures minLogLevel == NewMinLevel(loggingLevel, old(minLogLevel))
      ensures dialogsAreSuppressed == old(dialogsAreSuppressed) && assertHandlers == old(assertHandlers)
      ensures initialized == old(initialized) && failed == old(failed)
    {
      if loggingLevel.Some? && minLogLevel >= 0 {
        var logLevel := loggingLevel.value;
        var parsed := NumberConversions.StringToInt(logLevel);
        if parsed.Some? && parsed.value >= 0 && parsed.value < LoggingNumSeverities {
          minLogLevel := parsed.value;
          events := events + [SetMinLogLevel(parsed.value)];
        } else {
          events := events + [BadLogLevel(logLevel)];
        }
      }
    }

    /** `CleanupRadiumLogging`: closes the log and resets both flags, unless init failed or never ran. */
    method CleanupRadiumLogging()
      modifies this
      ensures old(failed) || !old(initialized) ==>
        events == old(events) && initialized == old(initialized) && failed == old(failed)
      ensures !old(failed) && old(initialized) ==>
        events == old(events) + [CloseLogFile] && !initialized && !failed
      ensures dialogsAreSuppressed == old(dialogsAreSuppressed) && assertHandlers == old(assertHandlers)
      ensures minLogLevel == old(minLogLevel)
    {
      if failed {
        return;
      }
      if !initialized {
        return;
      }
      events := events + [CloseLogFile];
      initialized := false;
      failed := false;
    }
  }

  /** Suppressing dialogs twice creates one assert handler. */
  method SuppressDialogsTwice(l: LoggingRadium)
    requires l.Valid()
    modifies l
    ensures l.assertHandlers == 1 && l.dialogsAreSuppressed
    ensures |l.events| <= |old(l.events)| + 1
  {
    l.SuppressDialogs();
    l.SuppressDialogs();
  }

  /** A headless start suppresses dialogs and shows none; a non-headless start shows them. */
  lemma HeadlessSuppressesDialogs(commandLine: CommandLine, minLevelAfterInit: int)
    ensures commandLine.noErrorDialogs ==>
      InstallAssertHandler in AfterInitEvents(commandLine, false, minLevelAfterInit) &&
      ShowErrorDialogs !in AfterInitEvents(commandLine, false, minLevelAfterInit)
    ensures !commandLine.noErrorDialogs ==>
      ShowErrorDialogs in AfterInitEvents(commandLine, false, minLevelAfterInit) &&
      InstallAssertHandler !in AfterInitEvents(commandLine, false, minLevelAfterInit)
  {
    var es := AfterInitEvents(commandLine, false, minLevelAfterInit);
    if commandLine.noErrorDialogs {
      assert es[1] == InstallAssertHandler;
    } else {
      assert es[0] == ShowErrorDialogs;
    }
  }

  /** A failed initialisation only calls `InitLogging`, and the later clean-up does nothing. */
  method FailedInitThenCleanup(l: LoggingRadium, platform: Platform, commandLine: CommandLine,
                               logsDir: Option<string>)
    requires l.Valid() && !l.initialized
    modifies l
    ensures l.failed && !l.initialized
    ensures |l.events| == |old(l.events)| + 1 && l.events[|l.events| - 1].InitLogging?
  {
    l.InitRadiumLogging(platform, commandLine, AppendToOldLogFile, logsDir, false, 0);
    l.CleanupRadiumLogging();
  }

  /** A successful initialisation followed by clean-up closes the log once and resets the flags. */
  method InitThenCleanup(l: LoggingRadium, platform: Platform, commandLine: CommandLine,
                         logsDir: Option<string>, minLevelAfterInit: int)
    requires l.Valid() && !l.initialized && !l.failed
    modifies l
    ensures !l.initialized && !l.failed && l.Valid()
    ensures |l.events| > 0 && l.events[|l.events| - 1] == CloseLogFile
  {
    l.InitRadiumLogging(platform, commandLine, DeleteOldLogFile, logsDir, true, minLevelAfterInit);
    l.CleanupRadiumLogging();
  }
}
