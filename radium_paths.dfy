/**
 * `radium::PathProvider`, the provider registered with `base::PathService`
 * for the browser's own path keys, in its Linux configuration without
 * Google Chrome branding. The directories it builds on (the default
 * user-data directory, `PathService` lookups of other keys, the XDG user
 * directories) are an environment given as input; `base::PathExists` and
 * `base::CreateDirectory` act on a modelled file system.
 */
module RadiumPaths {
  import opened Wrappers
  import FilePath

  /** The path keys handled on Linux, and `Other` for every key this provider does not serve. */
  datatype PathKey =
    | DirLogs
    | DirUserData
    | DirUserDocuments
    | DirUserMusic
    | DirUserPictures
    | DirUserVideos
    | DirDefaultDownloadsSafe
    | DirDefaultDownloads
    | DirCrashMetrics
    | DirCrashDumps
    | DirLocalTraces
    | DirResources
    | DirAppDictionaries
    | DirInternalPlugins
    | DirComponents
    | FileLocalState
    | FileRecordedScript
    | DirPnaclBase
    | DirPnaclComponent
    | FileResourcesPack
    | FileDevUiResourcesPack
    | DirGenTestData
    | DirTestData
    | DirTestTools
    | DirPolicyFiles
    | DirUserExternalExtensions
    | DirStandaloneExternalExtensions
    | DirExternalExtensions
    | DirDefaultApps
    | DirNativeMessaging
    | DirUserNativeMessaging
    | DirGlobalGcmStore
    | DirOptimizationGuidePredictionModels
    | Other(id: int)

  /** Build flags that change the switch: `NDEBUG` and `ENABLE_EXTENSIONS`. */
  datatype Build = Build(release: bool, enableExtensions: bool)

  /**
   * What the provider consults: each lookup is `None` when it fails.
   * The file names `kLocalStateFilename`, `kGCMStoreDirname` and
   * `policy::kPolicyPath` are defined outside this file and are inputs too.
   */
  datatype Env = Env(
    defaultUserData: Option<string>,
    documents: Option<string>,
    music: Option<string>,
    pictures: Option<string>,
    videos: Option<string>,
    downloadsSafe: Option<string>,
    downloads: Option<string>,
    userData: Option<string>,
    assets: Option<string>,
    exe: Option<string>,
    moduleDir: Option<string>,
    outTestDataRoot: Option<string>,
    srcTestDataRoot: Option<string>,
    localStateFilename: string,
    gcmStoreDirname: string,
    policyPath: string)

  const StandaloneExternalExtensions: string := "/usr/share/radium/extensions"
  const NativeMessagingHosts: string := "/etc/chromium/native-messaging-hosts"

  /** The outcome of the key switch: the path `cur` and whether to create it. */
  datatype Resolution = Unresolved | Resolved(path: string, createDir: bool)

  /** `name` under a looked-up base directory; unresolved when the lookup failed. */
  function Under(base: Option<string>, name: string, createDir: bool): (r: Resolution)
    ensures r.Resolved? <==> base.Some?
    ensures r.Resolved? ==> r.path == FilePath.Append(base.value, name) && r.createDir == createDir
  {
    if base.None? then Unresolved else Resolved(FilePath.Append(base.value, name), createDir)
  }

  /** The looked-up directory itself. */
  function Itself(base: Option<string>, createDir: bool): (r: Resolution)
    ensures r.Resolved? <==> base.Some?
    ensures r.Resolved? ==> r.path == base.value && r.createDir == createDir
  {
    if base.None? then Unresolved else Resolved(base.value, createDir)
  }

  /** A development-only path: unresolved unless it already exists. */
  function MustExist(r: Resolution, paths: set<string>): (m: Resolution)
    ensures m.Resolved? <==> r.Resolved? && r.path in paths
    ensures m.Resolved? ==> m == r
  {
    if r.Resolved? && r.path !in paths then Unresolved else r
  }

  /** The test-data directory `root/radium/test/data`. */
  function TestDataDir(root: string): string
  {
    FilePath.Append(FilePath.Append(FilePath.Append(root, "radium"), "test"), "data")
  }

  /** The test-tools directory `root/radium/tools/test`. */
  function TestToolsDir(root: string): string
  {
    FilePath.Append(FilePath.Append(FilePath.Append(root, "radium"), "tools"), "test")
  }

  /** The switch after the alias: the path each key builds and whether it asks for creation. */
  function Resolve(key: PathKey, build: Build, env: Env, paths: set<string>): Resolution
  {
    match key
    case DirLogs => Unresolved
    case DirUserData => Itself(env.defaultUserData, true)
    case DirUserDocuments => Itself(env.documents, true)
    case DirUserMusic => Itself(env.music, false)
    case DirUserPictures => Itself(env.pictures, false)
    case DirUserVideos => Itself(env.videos, false)
    case DirDefaultDownloadsSafe => Itself(env.downloadsSafe, false)
    case DirDefaultDownloads => Itself(env.downloads, false)
    case DirCrashMetrics => Itself(env.userData, false)
    case DirCrashDumps => Under(env.defaultUserData, "Crash Reports", true)
    case DirLocalTraces => Under(env.userData, "Local Traces", true)
    case DirResources => Under(env.assets, "resources", false)
    case DirAppDictionaries => Under(env.userData, "Dictionaries", true)
    case DirInternalPlugins => Unresolved
    case DirComponents => Itself(env.assets, false)
    case FileLocalState => Under(env.userData, env.localStateFilename, false)
    case FileRecordedScript => Under(env.userData, "script.log", false)
    case DirPnaclBase => Under(env.userData, "pnacl", false)
    case DirPnaclComponent => Unresolved
    case FileResourcesPack => Under(env.assets, "radium_resources.pak", false)
    case FileDevUiResourcesPack => Under(env.assets, "radium_resources.pak", false)
    case DirGenTestData => MustExist(Under(env.outTestDataRoot, "test_data", false), paths)
    case DirTestData =>
      if env.srcTestDataRoot.None? then Unresolved
      else MustExist(Resolved(TestDataDir(env.srcTestDataRoot.value), false), paths)
    case DirTestTools =>
      if env.srcTestDataRoot.None? then Unresolved
      else MustExist(Resolved(TestToolsDir(env.srcTestDataRoot.value), false), paths)
    case DirPolicyFiles => Resolved(env.policyPath, false)
    case DirUserExternalExtensions => Under(env.userData, "External Extensions", false)
    case DirStandaloneExternalExtensions => Resolved(StandaloneExternalExtensions, false)
    case DirExternalExtensions => Under(env.moduleDir, "extensions", true)
    case DirDefaultApps => Under(env.moduleDir, "default_apps", false)
    case DirNativeMessaging =>
      if build.enableExtensions then Resolved(NativeMessagingHosts, false) else Unresolved
    case DirUserNativeMessaging =>
      if build.enableExtensions then Under(env.userData, "NativeMessagingHosts", false) else Unresolved
    case DirGlobalGcmStore => Under(env.userData, env.gcmStoreDirname, false)
    case DirOptimizationGuidePredictionModels =>
      Under(env.userData, "OptimizationGuidePredictionModels", true)
    case Other(_) => Unresolved
  }

  /** `DIR_LOGS` answers with another key's lookup: user data in release builds, the executable's directory otherwise. */
  function LogsAlias(build: Build, env: Env): Option<string>
  {
    if build.release then env.userData else env.exe
  }

  /** Does the provider call `base::CreateDirectory` for this key? */
  predicate AttemptsCreate(key: PathKey, build: Build, env: Env, paths: set<string>)
  {
    key != DirLogs &&
    var r := Resolve(key, build, env, paths);
    r.Resolved? && r.createDir && r.path !in paths
  }

  /** The provider's answer: the path written to `*result`, or `None` when it returns false. */
  function Provided(key: PathKey, build: Build, env: Env, paths: set<string>, createSucceeds: bool): Option<string>
  {
    if key == DirLogs then LogsAlias(build, env)
    else
      var r := Resolve(key, build, env, paths);
      if r.Unresolved? then None
      else if AttemptsCreate(key, build, env, paths) && !createSucceeds then None
      else Some(r.path)
  }

  /** The file system `base::PathExists` and `base::CreateDirectory` see. */
  class FileSystem {
    var paths: set<string>

    constructor (initial: set<string>)
      ensures paths == initial
    {
      paths := initial;
    }

    method PathExists(p: string) returns (b: bool)
      ensures b <==> p in paths
    {
      b := p in paths;
    }

    /** Creating a directory may fail (permissions, a full disk); `succeeds` says whether it does. */
    method CreateDirectory(p: string, succeeds: bool) returns (ok: bool)
      modifies this
      ensures ok == succeeds
      ensures paths == if succeeds then old(paths) + {p} else old(paths)
    {
      ok := succeeds;
      if succeeds {
        paths := paths + {p};
      }
    }
  }

  /** The key switch of `PathProvider`, building `cur` and `create_dir`. */
  method BuildPath(key: PathKey, build: Build, env: Env, fs: FileSystem) returns (found: bool, cur: string, createDir: bool)
    requires key != DirLogs
    ensures Resolve(key, build, env, fs.paths) == (if found then Resolved(cur, createDir) else Unresolved)
  {
    hide Under, Itself, FilePath.Append;
    found, cur, createDir := true, "", false;
    match key {
      case DirLogs =>
        found := false;
      case DirUserData =>
        if env.defaultUserData.None? { return false, "", false; }
        cur := env.defaultUserData.value;
        createDir := true;
      case DirUserDocuments =>
        if env.documents.None? { return false, "", false; }
        cur := env.documents.value;
        createDir := true;
      case DirUserMusic =>
        if env.music.None? { return false, "", false; }
        cur := env.music.value;
      case DirUserPictures =>
        if env.pictures.None? { return false, "", false; }
        cur := env.pictures.value;
      case DirUserVideos =>
        if env.videos.None? { return false, "", false; }
        cur := env.videos.value;
      case DirDefaultDownloadsSafe =>
        if env.downloadsSafe.None? { return false, "", false; }
        cur := env.downloadsSafe.value;
      case DirDefaultDownloads =>
        if env.downloads.None? { return false, "", false; }
        cur := env.downloads.value;
      case DirCrashMetrics =>
        if env.userData.None? { return false, "", false; }
        cur := env.userData.value;
      case DirCrashDumps =>
        if env.defaultUserData.None? { return false, "", false; }
        cur := env.defaultUserData.value;
        cur := FilePath.Append(cur, "Crash Reports");
        createDir := true;
      case DirLocalTraces =>
        if env.userData.None? { return false, "", false; }
        cur := FilePath.Append(env.userData.value, "Local Traces");
        createDir := true;
      case DirResources =>
        if env.assets.None? { return false, "", false; }
        cur := FilePath.Append(env.assets.value, "resources");
      case DirAppDictionaries =>
        if env.userData.None? { return false, "", false; }
        cur := FilePath.Append(env.userData.value, "Dictionaries");
        createDir := true;
      case DirInternalPlugins =>
        found := false;
      case DirComponents =>
        if env.assets.None? { return false, "", false; }
        cur := env.assets.value;
      case FileLocalState =>
        if env.userData.None? { return false, "", false; }
        cur := FilePath.Append(env.userData.value, env.localStateFilename);
      case FileRecordedScript =>
        if env.userData.None? { return false, "", false; }
        cur := FilePath.Append(env.userData.value, "script.log");
      case DirPnaclBase =>
        if env.userData.None? { return false, "", false; }
        cur := FilePath.Append(env.userData.value, "pnacl");
      case DirPnaclComponent =>
        found := false;
      case FileResourcesPack =>
        if env.assets.None? { return false, "", false; }
        cur := FilePath.Append(env.assets.value, "radium_resources.pak");
      case FileDevUiResourcesPack =>
        if env.assets.None? { return false, "", false; }
        cur := FilePath.Append(env.assets.value, "radium_resources.pak");
      case DirGenTestData =>
        found, cur := TestPath(env.outTestDataRoot, ["test_data"], fs);
      case DirTestData =>
        found, cur := TestPath(env.srcTestDataRoot, ["radium", "test", "data"], fs);
      case DirTestTools =>
        found, cur := TestPath(env.srcTestDataRoot, ["radium", "tools", "test"], fs);
      case DirPolicyFiles =>
        cur := env.policyPath;
      case DirUserExternalExtensions =>
        if env.userData.None? { return false, "", false; }
        cur := FilePath.Append(env.userData.value, "External Extensions");
      case DirStandaloneExternalExtensions =>
        cur := StandaloneExternalExtensions;
      case DirExternalExtensions =>
        if env.moduleDir.None? { return false, "", false; }
        cur := FilePath.Append(env.moduleDir.value, "extensions");
        createDir := true;
      case DirDefaultApps =>
        if env.moduleDir.None? { return false, "", false; }
        cur := FilePath.Append(env.moduleDir.value, "default_apps");
      case DirNativeMessaging =>
        if !build.enableExtensions { return false, "", false; }
        cur := NativeMessagingHosts;
      case DirUserNativeMessaging =>
        if !build.enableExtensions || env.userData.None? { return false, "", false; }
        cur := FilePath.Append(env.userData.value, "NativeMessagingHosts");
      case DirGlobalGcmStore =>
        if env.userData.None? { return false, "", false; }
        cur := FilePath.Append(env.userData.value, env.gcmStoreDirname);
      case DirOptimizationGuidePredictionModels =>
        if env.userData.None? { return false, "", false; }
        cur := FilePath.Append(env.userData.value, "OptimizationGuidePredictionModels");
        createDir := true;
      case Other(_) =>
        found := false;
    }
  }

  /** `names` appended one by one. */
  function AppendAll(dir: string, names: seq<string>): string
    decreases |names|
  {
    if names == [] then dir else AppendAll(FilePath.Append(dir, names[0]), names[1..])
  }

  /**
   * A development-only directory: the root, then each name appended, and
   * failure unless the result exists; nothing is created.
   */
  method TestPath(root: Option<string>, names: seq<string>, fs: FileSystem) returns (found: bool, cur: string)
    ensures found <==> root.Some? && AppendAll(root.value, names) in fs.paths
    ensures found ==> cur == AppendAll(root.value, names)
  {
    if root.None? {
      return false, "";
    }
    cur := root.value;
    var i := 0;
    while i < |names|
      invariant 0 <= i <= |names|
      invariant AppendAll(cur, names[i..]) == AppendAll(root.value, names)
    {
      assert names[i..][1..] == names[i + 1..];
      cur := FilePath.Append(cur, names[i]);
      i := i + 1;
    }
    assert names[i..] == [];
    found := fs.PathExists(cur);
  }

  /**
   * `PathProvider(key, result)`: the alias, the switch, the creation of a
   * missing directory when asked for, and `*result` written only when the
   * provider succeeds. `createSucceeds` is the outcome of `CreateDirectory`.
   */
  method PathProvider(key: PathKey, build: Build, env: Env, fs: FileSystem, createSucceeds: bool, result: string)
    returns (ok: bool, out: string)
    modifies fs
    ensures Provided(key, build, env, old(fs.paths), createSucceeds) == (if ok then Some(out) else None)
    ensures !ok ==> out == result
    ensures fs.paths == if AttemptsCreate(key, build, env, old(fs.paths)) && createSucceeds
                        then old(fs.paths) + {Resolve(key, build, env, old(fs.paths)).path}
                        else old(fs.paths)
  {
    if key == DirLogs {
      var alias := LogsAlias(build, env);
      if alias.None? {
        return false, result;
      }
      return true, alias.value;
    }
    var found, cur, createDir := BuildPath(key, build, env, fs);
    if !found {
      return false, result;
    }
    if createDir {
      var present := fs.PathExists(cur);
      if !present {
        var created := fs.CreateDirectory(cur, createSucceeds);
        if !created {
          return false, result;
        }
      }
    }
    return true, cur;
  }

  /** `DIR_LOGS` is served by the user-data lookup in release builds and never creates anything. */
  lemma LogsIsUserData(build: Build, env: Env, paths: set<string>, createSucceeds: bool)
    requires build.release
    ensures Provided(DirLogs, build, env, paths, createSucceeds) == env.userData
    ensures !AttemptsCreate(DirLogs, build, env, paths)
  {
  }

  /** A key this provider does not serve, or one switched off by the build, is refused and touches nothing. */
  lemma UnservedKeysFail(key: PathKey, build: Build, env: Env, paths: set<string>, createSucceeds: bool)
    requires key.Other? || key == DirInternalPlugins || key == DirPnaclComponent ||
             (!build.enableExtensions && (key == DirNativeMessaging || key == DirUserNativeMessaging))
    ensures Provided(key, build, env, paths, createSucceeds).None?
    ensures !AttemptsCreate(key, build, env, paths)
  {
  }

  /** Keys derived from the user-data lookup, all of which fail when it fails. */
  predicate FromUserData(key: PathKey)
  {
    match key
    case DirCrashMetrics | DirLocalTraces | DirAppDictionaries | FileLocalState | FileRecordedScript
       | DirPnaclBase | DirUserExternalExtensions | DirUserNativeMessaging | DirGlobalGcmStore
       | DirOptimizationGuidePredictionModels => true
    case _ => false
  }

  /** A failed base lookup fails the key built on it. */
  lemma BaseFailurePropagates(key: PathKey, build: Build, env: Env, paths: set<string>, createSucceeds: bool)
    requires (FromUserData(key) && env.userData.None?) ||
             ((key == DirUserData || key == DirCrashDumps) && env.defaultUserData.None?)
    ensures Provided(key, build, env, paths, createSucceeds).None?
    ensures !AttemptsCreate(key, build, env, paths)
  {
  }

  /** Every key built from the user-data lookup lies directly in the user-data directory. */
  lemma UserDataChildren(key: PathKey, build: Build, env: Env, paths: set<string>, createSucceeds: bool)
    requires FromUserData(key) && key != DirCrashMetrics
    requires env.userData.Some? && env.userData.value != [] && !FilePath.EndsWithSeparator(env.userData.value)
    requires FilePath.IsComponent(env.localStateFilename) && FilePath.IsComponent(env.gcmStoreDirname)
    requires Provided(key, build, env, paths, createSucceeds).Some?
    ensures FilePath.DirName(Provided(key, build, env, paths, createSucceeds).value) == env.userData.value
  {
    ProvidedIsResolved(key, build, env, paths, createSucceeds);
    UserDataNamesAreComponents();
    PredictionModelsIsComponent();
    hide Provided, FilePath.DirName, FilePath.AppendWith;
    var dir := env.userData.value;
    match key
    case DirLocalTraces => FilePath.DirNameOfAppend(dir, "Local Traces");
    case DirAppDictionaries => FilePath.DirNameOfAppend(dir, "Dictionaries");
    case FileLocalState => FilePath.DirNameOfAppend(dir, env.localStateFilename);
    case FileRecordedScript => FilePath.DirNameOfAppend(dir, "script.log");
    case DirPnaclBase => FilePath.DirNameOfAppend(dir, "pnacl");
    case DirUserExternalExtensions => FilePath.DirNameOfAppend(dir, "External Extensions");
    case DirUserNativeMessaging => FilePath.DirNameOfAppend(dir, "NativeMessagingHosts");
    case DirGlobalGcmStore => FilePath.DirNameOfAppend(dir, env.gcmStoreDirname);
    case DirOptimizationGuidePredictionModels =>
      FilePath.DirNameOfAppend(dir, "OptimizationGuidePredictionModels");
  }

  /** The literal names appended under the user-data directory are single components. */
  lemma UserDataNamesAreComponents()
    ensures FilePath.IsComponent("Local Traces") && FilePath.IsComponent("Dictionaries")
    ensures FilePath.IsComponent("script.log") && FilePath.IsComponent("pnacl")
    ensures FilePath.IsComponent("External Extensions") && FilePath.IsComponent("NativeMessagingHosts")
  {
  }

  lemma PredictionModelsIsComponent()
    ensures FilePath.IsComponent("OptimizationGuidePredictionModels")
  {
  }

  /** Apart from the alias, a successful answer is the path the switch built. */
  lemma ProvidedIsResolved(key: PathKey, build: Build, env: Env, paths: set<string>, createSucceeds: bool)
    requires key != DirLogs && Provided(key, build, env, paths, createSucceeds).Some?
    ensures Resolve(key, build, env, paths).Resolved?
    ensures Provided(key, build, env, paths, createSucceeds).value == Resolve(key, build, env, paths).path
  {
  }

  /** The local state file and the local traces directory sit in the user-data directory; only the latter is created. */
  lemma LocalStateAndTraces(build: Build, env: Env, paths: set<string>, createSucceeds: bool)
    requires env.userData.Some?
    ensures Provided(FileLocalState, build, env, paths, createSucceeds) ==
            Some(FilePath.Append(env.userData.value, env.localStateFilename))
    ensures !AttemptsCreate(FileLocalState, build, env, paths)
    ensures var traces := FilePath.Append(env.userData.value, "Local Traces");
            AttemptsCreate(DirLocalTraces, build, env, paths) <==> traces !in paths
  {
  }

  /** Crash dumps go to "Crash Reports" under the default user-data directory, created if missing. */
  lemma CrashDumpsUnderDefaultUserData(build: Build, env: Env, paths: set<string>)
    requires env.defaultUserData.Some?
    ensures var dumps := FilePath.Append(env.defaultUserData.value, "Crash Reports");
            Provided(DirCrashDumps, build, env, paths, true) == Some(dumps) &&
            (AttemptsCreate(DirCrashDumps, build, env, paths) <==> dumps !in paths)
  {
  }

  /** A directory that must be created but cannot be is a failure; one that exists needs no creation. */
  lemma CreationFailureFails(key: PathKey, build: Build, env: Env, paths: set<string>)
    ensures AttemptsCreate(key, build, env, paths) ==> Provided(key, build, env, paths, false).None?
    ensures !AttemptsCreate(key, build, env, paths) ==>
            Provided(key, build, env, paths, false) == Provided(key, build, env, paths, true)
  {
  }

  /** On success, a key that asks for creation names a directory that exists afterwards. */
  lemma CreatedDirectoryExists(key: PathKey, build: Build, env: Env, paths: set<string>, createSucceeds: bool)
    requires key != DirLogs
    requires Provided(key, build, env, paths, createSucceeds).Some?
    requires Resolve(key, build, env, paths).createDir
    ensures var p := Provided(key, build, env, paths, createSucceeds).value;
            p in paths || (AttemptsCreate(key, build, env, paths) && createSucceeds)
  {
  }

  /** Development-only keys never create anything and succeed exactly when their fixed sub-path exists. */
  lemma TestDirectoriesMustExist(key: PathKey, build: Build, env: Env, paths: set<string>, createSucceeds: bool)
    requires key == DirGenTestData || key == DirTestData || key == DirTestTools
    ensures !AttemptsCreate(key, build, env, paths)
    ensures var p := Provided(key, build, env, paths, createSucceeds);
            p.Some? ==> p.value in paths
    ensures key == DirTestData ==>
            (Provided(key, build, env, paths, createSucceeds).Some? <==>
             env.srcTestDataRoot.Some? && TestDataDir(env.srcTestDataRoot.value) in paths)
  {
  }
}
