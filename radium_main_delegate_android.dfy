/**
 * radium_main_delegate_android.cc: the Android main delegate. `RunProcess`
 * defers to the default main outside the browser process; in the browser
 * process it secures the data directory, creates the browser runner on the
 * first request only, and normalises the runner's exit code. Path lookups,
 * permission changes, clocks and the runner are inputs; the calls made are
 * recorded as events.
 */
module RadiumMainDelegateAndroid {
  /** The `content::MainFunctionParams` handed through unchanged. */
  datatype MainFunctionParams = MainFunctionParams(id: nat)

  /** `absl::variant<int, content::MainFunctionParams>`. */
  datatype RunResult = ExitCode(code: int) | Params(params: MainFunctionParams)

  datatype Event =
    | SetDataDirPermissions
    | LogDataDirError
    | RecordProcessCreationTime(processStart: nat)
    | RecordApplicationStartTime(applicationStart: nat)
    | CreateRunner
    | InitializeRunner(params: MainFunctionParams)

  /** The events of `SecureDataDirectory` when the path lookup and the permission change succeed or fail. */
  function SecureDataDirectoryEvents(pathOk: bool, permissionsOk: bool): (es: seq<Event>)
    ensures SetDataDirPermissions in es <==> pathOk
    ensures LogDataDirError in es <==> !(pathOk && permissionsOk)
  {
    (if pathOk then [SetDataDirPermissions] else []) +
    (if pathOk && permissionsOk then [] else [LogDataDirError])
  }

  /** The start-time records made when the runner is created; 0 is a null process start time. */
  function StartTimeEvents(processStart: nat, applicationStart: nat): seq<Event>
  {
    (if processStart != 0 then [RecordProcessCreationTime(processStart)] else []) +
    [RecordApplicationStartTime(applicationStart)]
  }

  /** A positive exit code from `Initialize` is kept; anything else becomes 0. */
  function NormalizeExitCode(exitCode: int): (r: int)
    ensures r >= 0
    ensures exitCode > 0 ==> r == exitCode
    ensures exitCode <= 0 ==> r == 0
  {
    if exitCode > 0 then exitCode else 0
  }

  /** How many runners and application start records the events contain. */
  function Creates(es: seq<Event>): (n: nat)
    ensures n <= |es|
  {
    if es == [] then 0 else (if es[0] == CreateRunner then 1 else 0) + Creates(es[1..])
  }

  function AppStarts(es: seq<Event>): (n: nat)
    ensures n <= |es|
  {
    if es == [] then 0 else (if es[0].RecordApplicationStartTime? then 1 else 0) + AppStarts(es[1..])
  }

  lemma {:induction false} CountsAppend(a: seq<Event>, b: seq<Event>)
    ensures Creates(a + b) == Creates(a) + Creates(b)
    ensures AppStarts(a + b) == AppStarts(a) + AppStarts(b)
    decreases |a|
  {
    if a == [] {
      assert a + b == b;
    } else {
      assert (a + b)[1..] == a[1..] + b;
      CountsAppend(a[1..], b);
    }
  }

  /** The events of one browser-process `RunProcess` call, given whether a runner already existed. */
  function RunEvents(hadRunner: bool, pathOk: bool, permissionsOk: bool,
                     processStart: nat, applicationStart: nat, params: MainFunctionParams): seq<Event>
  {
    SecureDataDirectoryEvents(pathOk, permissionsOk) +
    (if hadRunner then [] else StartTimeEvents(processStart, applicationStart) + [CreateRunner]) +
    [InitializeRunner(params)]
  }

  lemma CountsEmpty()
    ensures Creates([]) == 0 && AppStarts([]) == 0
  {
  }

  /** The counts of a one-event sequence. */
  lemma CountsSingle(e: Event)
    ensures Creates([e]) == (if e == CreateRunner then 1 else 0)
    ensures AppStarts([e]) == (if e.RecordApplicationStartTime? then 1 else 0)
  {
    assert [e][1..] == [];
  }

  /** Securing the data directory neither creates a runner nor records a start time. */
  lemma SecureDataDirectoryCounts(pathOk: bool, permissionsOk: bool)
    ensures Creates(SecureDataDirectoryEvents(pathOk, permissionsOk)) == 0
    ensures AppStarts(SecureDataDirectoryEvents(pathOk, permissionsOk)) == 0
  {
    hide Creates, AppStarts;
    var a: seq<Event> := if pathOk then [SetDataDirPermissions] else [];
    var b: seq<Event> := if pathOk && permissionsOk then [] else [LogDataDirError];
    CountsSingle(SetDataDirPermissions);
    CountsSingle(LogDataDirError);
    CountsEmpty();
    CountsAppend(a, b);
  }

  /** Creating a runner records exactly one application start time. */
  lemma CreationCounts(processStart: nat, applicationStart: nat)
    ensures Creates(StartTimeEvents(processStart, applicationStart) + [CreateRunner]) == 1
    ensures AppStarts(StartTimeEvents(processStart, applicationStart) + [CreateRunner]) == 1
  {
    hide Creates, AppStarts;
    var a: seq<Event> := if processStart != 0 then [RecordProcessCreationTime(processStart)] else [];
    var b: seq<Event> := [RecordApplicationStartTime(applicationStart)];
    CountsSingle(RecordProcessCreationTime(processStart));
    CountsSingle(RecordApplicationStartTime(applicationStart));
    CountsSingle(CreateRunner);
    CountsEmpty();
    CountsAppend(a, b);
    CountsAppend(a + b, [CreateRunner]);
  }

  /** A call creates a runner and records the application start time exactly when none existed. */
  lemma RunEventsCounts(hadRunner: bool, pathOk: bool, permissionsOk: bool,
                        processStart: nat, applicationStart: nat, params: MainFunctionParams)
    ensures var es := RunEvents(hadRunner, pathOk, permissionsOk, processStart, applicationStart, params);
      Creates(es) == AppStarts(es) == (if hadRunner then 0 else 1)
  {
    hide Creates, AppStarts;
    var sd := SecureDataDirectoryEvents(pathOk, permissionsOk);
    var created: seq<Event> := if hadRunner then [] else StartTimeEvents(processStart, applicationStart) + [CreateRunner];
    SecureDataDirectoryCounts(pathOk, permissionsOk);
    CreationCounts(processStart, applicationStart);
    CountsEmpty();
    CountsSingle(InitializeRunner(params));
    CountsAppend(sd, created);
    CountsAppend(sd + created, [InitializeRunner(params)]);
  }

  lemma AppendThree(a: seq<Event>, b: seq<Event>, c: seq<Event>, d: seq<Event>)
    ensures a + b + c + d == a + (b + c + d)
  {
  }

  class RadiumMainDelegateAndroid {
    /** Whether `browser_runner_` is set. */
    var hasRunner: bool
    var events: seq<Event>

    /**
     * One runner at most, created exactly when the runner is set, and the
     * application start time recorded once per runner.
     */
    predicate Valid()
      reads this
    {
      Creates(events) == (if hasRunner then 1 else 0) &&
      AppStarts(events) == Creates(events)
    }

    constructor ()
      ensures Valid() && !hasRunner && events == []
    {
      hasRunner := false;
      events := [];
    }

    /** `SecureDataDirectory`: permissions only after the path lookup succeeded; an error log if either failed. */
    method SecureDataDirectory(pathOk: bool, permissionsOk: bool)
      modifies this
      ensures events == old(events) + SecureDataDirectoryEvents(pathOk, permissionsOk)
      ensures hasRunner == old(hasRunner)
    {
      var ok := pathOk;
      if ok {
        events := events + [SetDataDirPermissions];
        ok := permissionsOk;
      }
      if !ok {
        events := events + [LogDataDirError];
      }
    }

    /**
     * `RunProcess`. `processStart` and `applicationStart` are the clock
     * readings and `initializeResult` what the runner's `Initialize` returns.
     */
    method RunProcess(processType: string, params: MainFunctionParams,
                      pathOk: bool, permissionsOk: bool,
                      processStart: nat, applicationStart: nat, initializeResult: int)
      returns (r: RunResult)
      requires Valid()
      modifies this
      ensures Valid()
      ensures processType != "" ==> r == Params(params) && events == old(events) && hasRunner == old(hasRunner)
      ensures processType == "" ==>
        r == ExitCode(NormalizeExitCode(initializeResult)) && hasRunner &&
        events == old(events) + RunEvents(old(hasRunner), pathOk, permissionsOk, processStart, applicationStart, params)
    {
      if processType != "" {
        return Params(params);
      }
      SecureDataDirectory(pathOk, permissionsOk);
      var created: seq<Event> := [];
      if !hasRunner {
        if processStart != 0 {
          created := created + [RecordProcessCreationTime(processStart)];
        }
        created := created + [RecordApplicationStartTime(applicationStart)];
        created := created + [CreateRunner];
        hasRunner := true;
      }
      assert created == (if old(hasRunner) then [] else StartTimeEvents(processStart, applicationStart) + [CreateRunner]);
      hide Creates, AppStarts;
      var sd := SecureDataDirectoryEvents(pathOk, permissionsOk);
      AppendThree(old(events), sd, created, [InitializeRunner(params)]);
      events := events + created + [InitializeRunner(params)];
      assert events == old(events) + RunEvents(old(hasRunner), pathOk, permissionsOk, processStart, applicationStart, params);
      RunEventsCounts(old(hasRunner), pathOk, permissionsOk, processStart, applicationStart, params);
      CountsAppend(old(events), RunEvents(old(hasRunner), pathOk, permissionsOk, processStart, applicationStart, params));
      var exitCode := initializeResult;
      if exitCode > 0 {
        return ExitCode(exitCode);
      }
      return ExitCode(0);
    }
  }

  /** Two browser start requests create one runner and record the start times once. */
  method TwoBrowserRequests(d: RadiumMainDelegateAndroid, p1: MainFunctionParams, p2: MainFunctionParams,
                            t0: nat, t1: nat, code1: int, code2: int)
    requires d.Valid() && !d.hasRunner
    modifies d
    ensures d.hasRunner && Creates(d.events) == 1 && AppStarts(d.events) == 1
  {
    var _ := d.RunProcess("", p1, true, true, t0, t1, code1);
    var _ := d.RunProcess("", p2, true, true, t0, t1, code2);
  }
}
