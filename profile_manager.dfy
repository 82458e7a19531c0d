/**
 * `ProfileManager`: the map from profile directory to loaded profile, the
 * synchronous and asynchronous creation paths with their callback lists,
 * the loaded-profile listing and the last-used profile bookkeeping.
 * Profile construction (`Profile::CreateProfile`) is a factory whose
 * outcome is an input; callbacks are numbered and running one is recorded.
 */
module ProfileManagement {
  import opened Wrappers
  import FilePath
  import ProfilesState

  /** A profile object: its identity, the directory it lives in and whether it is the system profile. */
  datatype Profile = Profile(id: nat, path: string, isSystem: bool)

  /** `callback.Run(profile)`: the profile, or null (`None`) when creation failed. */
  datatype Event = Ran(callback: nat, profile: Option<Profile>)

  /** `ProfileManager::ProfileInfo`. */
  datatype ProfileInfo = ProfileInfo(profile: Profile, initCallbacks: seq<nat>, createdCallbacks: seq<nat>, created: bool)

  datatype CreateMode = Synchronous | Asynchronous

  /**
   * `GetLastUsedProfileBaseName`: the stored name unless it is empty or the
   * system profile directory, in which case the initial profile.
   */
  function LastUsedBaseName(stored: string): (r: string)
    ensures r != "" && r != ProfilesState.SystemProfileDir
    ensures stored != "" && stored != ProfilesState.SystemProfileDir ==> r == stored
    ensures r == stored || r == ProfilesState.InitialProfile
  {
    ProfilesState.InitialComponent();
    if stored != "" && stored != ProfilesState.SystemProfileDir then stored
    else ProfilesState.InitialProfile
  }

  /** Every callback in `callbacks`, in order, run with `profile`. */
  function Runs(callbacks: seq<nat>, profile: Option<Profile>): (es: seq<Event>)
    ensures |es| == |callbacks|
    ensures forall i :: 0 <= i < |es| ==> es[i] == Ran(callbacks[i], profile)
  {
    seq(|callbacks|, i requires 0 <= i < |callbacks| => Ran(callbacks[i], profile))
  }

  /** A run of an optional callback: nothing for a null one. */
  function RunIfSet(callback: Option<nat>, profile: Option<Profile>): (es: seq<Event>)
    ensures es == if callback.Some? then [Ran(callback.value, profile)] else []
  {
    if callback.Some? then [Ran(callback.value, profile)] else []
  }

  /** The new profile map and the callbacks run during one `CreateProfileAsync`. */
  datatype AsyncOutcome = AsyncOutcome(profiles: map<string, ProfileInfo>, ran: seq<Event>)

  /** An optional callback appended to a list. */
  function Queue(callbacks: seq<nat>, callback: Option<nat>): seq<nat>
  {
    if callback.Some? then callbacks + [callback.value] else callbacks
  }

  /**
   * `CreateProfileAsync` as written: a disallowed path or a failed factory
   * runs the init callback with null; a created profile runs it at once;
   * otherwise both callbacks are queued on the (possibly new) entry.
   */
  function CreateAsync(profiles: map<string, ProfileInfo>, allowed: bool, path: string,
                       initCb: Option<nat>, createdCb: Option<nat>, factoryResult: Option<Profile>): (r: AsyncOutcome)
    ensures forall k :: k in profiles && k != path ==> k in r.profiles && r.profiles[k] == profiles[k]
    ensures r.profiles.Keys <= profiles.Keys + {path}
    ensures r.ran != [] ==> r.profiles == profiles
    ensures !allowed ==> r.profiles == profiles && r.ran == RunIfSet(initCb, None)
    ensures path in r.profiles && path !in profiles ==>
            allowed && factoryResult.Some? && r.ran == [] &&
            r.profiles[path].profile == factoryResult.value && !r.profiles[path].created
  {
    if !allowed then AsyncOutcome(profiles, RunIfSet(initCb, None))
    else if path in profiles && profiles[path].created && initCb.Some? then
      AsyncOutcome(profiles, [Ran(initCb.value, Some(profiles[path].profile))])
    else if path !in profiles && factoryResult.None? then AsyncOutcome(profiles, RunIfSet(initCb, None))
    else
      var info := if path in profiles then profiles[path] else ProfileInfo(factoryResult.value, [], [], false);
      var queued := info.(initCallbacks := Queue(info.initCallbacks, initCb),
                          createdCallbacks := Queue(info.createdCallbacks, createdCb));
      AsyncOutcome(profiles[path := queued], [])
  }

  /** The callbacks run when asynchronous creation finishes: created ones on success only, then every init one. */
  function FinishRuns(info: ProfileInfo, profile: Profile, success: bool): seq<Event>
  {
    (if success then Runs(info.createdCallbacks, Some(profile)) else []) +
    Runs(info.initCallbacks, if success then Some(profile) else None)
  }

  /** Every entry is keyed by its profile's path. */
  ghost predicate KeyedByPath(profiles: map<string, ProfileInfo>)
  {
    forall k :: k in profiles ==> profiles[k].profile.path == k
  }

  /** The directories of a list of profiles. */
  function PathsOf(ps: seq<Profile>): set<string>
  {
    set p | p in ps :: p.path
  }

  /** The paths of fully created profiles. */
  function LoadedPaths(profiles: map<string, ProfileInfo>): set<string>
  {
    set k | k in profiles && profiles[k].created
  }

  /** An entry of a registry keyed by path holds the profile at that path. */
  lemma KeyedEntry(profiles: map<string, ProfileInfo>, path: string)
    requires KeyedByPath(profiles) && path in profiles
    ensures profiles[path].profile.path == path
  {
  }

  /** Storing an entry under its own profile's path keeps the registry keyed by path. */
  lemma KeyedAfterStore(profiles: map<string, ProfileInfo>, path: string, info: ProfileInfo)
    requires KeyedByPath(profiles) && info.profile.path == path
    ensures KeyedByPath(profiles[path := info])
  {
  }

  class ProfileManager {
    const userDataDir: string
    var profiles: map<string, ProfileInfo>
    var events: seq<Event>

    ghost predicate Valid()
      reads this
    {
      KeyedByPath(profiles)
    }

    constructor (userDataDir: string)
      ensures this.userDataDir == userDataDir
      ensures profiles == map[] && events == [] && Valid()
    {
      this.userDataDir := userDataDir;
      profiles := map[];
      events := [];
    }

    /** `IsAllowedProfilePath`: the parent directory is the user-data directory. */
    predicate IsAllowedProfilePath(path: string)
    {
      FilePath.DirName(path) == userDataDir
    }

    /** `GetLastUsedProfileDir` for the stored preference value. */
    function LastUsedProfileDir(stored: string): string
    {
      FilePath.Append(userDataDir, LastUsedBaseName(stored))
    }

    /** `GetProfileByPath`: the entry's profile whether or not its creation has finished. */
    function GetProfileByPath(path: string): (p: Option<Profile>)
      reads this
      ensures p.Some? <==> path in profiles
      ensures p.Some? ==> p.value == profiles[path].profile
    {
      if path in profiles then Some(profiles[path].profile) else None
    }

    /**
     * `CreateAndInitializeProfile`: the factory's profile is registered under
     * its path, not yet marked created; a failed factory registers nothing.
     * The insertion must be fresh (a `CHECK`).
     */
    method CreateAndInitializeProfile(profileDir: string, factoryResult: Option<Profile>) returns (p: Option<Profile>)
      requires Valid()
      requires factoryResult.Some? ==> factoryResult.value.path == profileDir && profileDir !in profiles
      modifies this
      ensures Valid() && events == old(events)
      ensures p == factoryResult
      ensures profiles == if p.None? then old(profiles)
                          else old(profiles)[profileDir := ProfileInfo(p.value, [], [], false)]
    {
      if factoryResult.None? {
        return None;
      }
      var profile := factoryResult.value;
      // The synchronous factory reports completion before the profile is registered.
      OnProfileCreationFinished(profile, Synchronous, true);
      profiles := profiles[profile.path := ProfileInfo(profile, [], [], false)];
      return Some(profile);
    }

    /**
     * `GetProfile`: a loaded profile is returned as is; an absent one is
     * created synchronously only when `create` is set.
     */
    method GetProfile(profileDir: string, create: bool, factoryResult: Option<Profile>) returns (p: Option<Profile>)
      requires Valid()
      requires factoryResult.Some? ==> factoryResult.value.path == profileDir
      modifies this
      ensures Valid() && events == old(events)
      ensures profileDir in old(profiles) ==> p == Some(old(profiles)[profileDir].profile) && profiles == old(profiles)
      ensures profileDir !in old(profiles) && !create ==> p.None? && profiles == old(profiles)
      ensures profileDir !in old(profiles) && create ==>
              p == factoryResult &&
              profiles == if p.None? then old(profiles)
                          else old(profiles)[profileDir := ProfileInfo(p.value, [], [], false)]
    {
      p := GetProfileByPath(profileDir);
      if p.Some? || !create {
        return;
      }
      p := CreateAndInitializeProfile(profileDir, factoryResult);
    }

    /** `CreateProfileAsync`; `factoryResult` is what the asynchronous factory returns when it is consulted. */
    method CreateProfileAsync(path: string, initCb: Option<nat>, createdCb: Option<nat>, factoryResult: Option<Profile>)
      requires Valid()
      requires factoryResult.Some? ==> factoryResult.value.path == path
      modifies this
      ensures Valid()
      ensures var o := CreateAsync(old(profiles), IsAllowedProfilePath(path), path, initCb, createdCb, factoryResult);
              profiles == o.profiles && events == old(events) + o.ran
    {
      hide FilePath.DirName, KeyedByPath;
      if !IsAllowedProfilePath(path) {
        events := events + RunIfSet(initCb, None);
        return;
      }
      var info: ProfileInfo;
      if path in profiles {
        info := profiles[path];
        KeyedEntry(profiles, path);
        if info.created && initCb.Some? {
          events := events + [Ran(initCb.value, Some(info.profile))];
          return;
        }
      } else {
        if factoryResult.None? {
          events := events + RunIfSet(initCb, None);
          return;
        }
        info := ProfileInfo(factoryResult.value, [], [], false);
        KeyedAfterStore(profiles, path, info);
        profiles := profiles[path := info];
      }
      if initCb.Some? {
        info := info.(initCallbacks := info.initCallbacks + [initCb.value]);
      }
      if createdCb.Some? {
        info := info.(createdCallbacks := info.createdCallbacks + [createdCb.value]);
      }
      KeyedAfterStore(profiles, path, info);
      profiles := profiles[path := info];
    }

    /** `RunCallbacks`: each callback run once, in order. */
    method RunCallbacks(callbacks: seq<nat>, profile: Option<Profile>)
      modifies this
      ensures profiles == old(profiles)
      ensures events == old(events) + Runs(callbacks, profile)
    {
      var i := 0;
      while i < |callbacks|
        invariant 0 <= i <= |callbacks|
        invariant profiles == old(profiles)
        invariant events == old(events) + Runs(callbacks[..i], profile)
      {
        assert Runs(callbacks[..i + 1], profile) == Runs(callbacks[..i], profile) + [Ran(callbacks[i], profile)];
        events := events + [Ran(callbacks[i], profile)];
        i := i + 1;
      }
      assert callbacks[..i] == callbacks;
    }

    /**
     * `OnProfileCreationFinished`: nothing for a synchronous creation;
     * otherwise the entry (which must exist, a `CHECK`) is marked created on
     * success or erased on failure, and its callback lists are drained.
     */
    method OnProfileCreationFinished(profile: Profile, mode: CreateMode, success: bool)
      requires Valid()
      requires mode == Asynchronous ==> profile.path in profiles
      modifies this
      ensures Valid()
      ensures mode == Synchronous ==> profiles == old(profiles) && events == old(events)
      ensures mode == Asynchronous ==>
              var info := old(profiles)[profile.path];
              events == old(events) + FinishRuns(info, profile, success) &&
              profiles == if success then old(profiles)[profile.path := info.(initCallbacks := [], createdCallbacks := [], created := true)]
                          else old(profiles) - {profile.path}
    {
      if mode == Synchronous {
        return;
      }
      var info := profiles[profile.path];
      var createdCallbacks := info.createdCallbacks;
      var initCallbacks := info.initCallbacks;
      profiles := profiles[profile.path := ProfileInfo(info.profile, [], [], success)];
      if success {
        RunCallbacks(createdCallbacks, Some(profile));
      }
      var result := Some(profile);
      if !success {
        result := None;
        profiles := profiles - {profile.path};
      }
      RunCallbacks(initCallbacks, result);
    }

    /** `GetLoadedProfiles`: exactly the profiles whose creation has finished, each once. */
    method GetLoadedProfiles() returns (loaded: seq<Profile>)
      requires Valid()
      ensures PathsOf(loaded) == LoadedPaths(profiles)
      ensures |loaded| == |LoadedPaths(profiles)|
      ensures FromMap(profiles, loaded)
    {
      loaded := CollectLoaded(profiles);
    }

    /**
     * `SetProfileAsLastUsed`: a managed, non-system profile's base name is
     * stored unless it already is the last-used name.
     */
    method SetProfileAsLastUsed(lastActive: Profile, localState: ProfilesState.LocalState)
      modifies localState
      ensures localState.registered == old(localState.registered)
      ensures var base := FilePath.BaseName(lastActive.path);
              localState.stored ==
                if lastActive.path in profiles && !lastActive.isSystem &&
                   base != LastUsedBaseName(old(localState.LastUsed())) &&
                   base != ProfilesState.SystemProfileDir
                then Some(base) else old(localState.stored)
    {
      if lastActive.path in profiles && !lastActive.isSystem {
        var base := FilePath.BaseName(lastActive.path);
        if base != LastUsedBaseName(localState.LastUsed()) {
          localState.SetLastUsedProfile(base);
        }
      }
    }
  }

  /** The loop of `GetLoadedProfiles` over a snapshot of the map. */
  method CollectLoaded(m: map<string, ProfileInfo>) returns (loaded: seq<Profile>)
    requires KeyedByPath(m)
    ensures PathsOf(loaded) == LoadedPaths(m)
    ensures |loaded| == |LoadedPaths(m)|
    ensures FromMap(m, loaded)
  {
    loaded := [];
    var remaining := m.Keys;
    CollectStart(m);
    while remaining != {}
      invariant remaining <= m.Keys && Collected(m, remaining, loaded)
      decreases remaining
    {
      var k :| k in remaining;
      CollectStep(m, remaining, loaded, k);
      if m[k].created {
        loaded := loaded + [m[k].profile];
      }
      remaining := remaining - {k};
    }
    CollectEnd(m, loaded);
  }

  /** Each listed profile is the one registered under its own path. */
  predicate FromMap(m: map<string, ProfileInfo>, ps: seq<Profile>)
  {
    forall i :: 0 <= i < |ps| ==> ps[i].path in m && m[ps[i].path].profile == ps[i]
  }

  /** The loop invariant: the created entries already visited are listed, each once. */
  predicate Collected(m: map<string, ProfileInfo>, remaining: set<string>, loaded: seq<Profile>)
  {
    PathsOf(loaded) == LoadedPaths(m) - remaining &&
    |loaded| == |LoadedPaths(m) - remaining| &&
    FromMap(m, loaded)
  }

  lemma CollectStart(m: map<string, ProfileInfo>)
    ensures Collected(m, m.Keys, [])
  {
    assert LoadedPaths(m) - m.Keys == {};
  }

  lemma CollectStep(m: map<string, ProfileInfo>, remaining: set<string>, loaded: seq<Profile>, k: string)
    requires KeyedByPath(m) && remaining <= m.Keys && k in remaining
    requires Collected(m, remaining, loaded)
    ensures Collected(m, remaining - {k}, if m[k].created then loaded + [m[k].profile] else loaded)
  {
    hide LoadedPaths, PathsOf, FromMap;
    LoadedStep(m, remaining, k);
    if m[k].created {
      PathsAppend(loaded, m[k].profile);
      FromMapAppend(m, loaded, k);
    }
  }

  /** Visiting one more key adds it to the loaded paths collected so far exactly when its creation has finished. */
  lemma LoadedStep(m: map<string, ProfileInfo>, remaining: set<string>, k: string)
    requires k in remaining && remaining <= m.Keys
    ensures LoadedPaths(m) - (remaining - {k}) ==
            (LoadedPaths(m) - remaining) + (if m[k].created then {k} else {})
    ensures k !in LoadedPaths(m) - remaining
  {
  }

  lemma PathsAppend(ps: seq<Profile>, p: Profile)
    ensures PathsOf(ps + [p]) == PathsOf(ps) + {p.path}
  {
    assert forall q :: q in ps + [p] <==> q in ps || q == p;
  }

  lemma FromMapAppend(m: map<string, ProfileInfo>, ps: seq<Profile>, k: string)
    requires FromMap(m, ps) && KeyedByPath(m) && k in m
    ensures FromMap(m, ps + [m[k].profile])
  {
  }

  lemma CollectEnd(m: map<string, ProfileInfo>, loaded: seq<Profile>)
    requires Collected(m, {}, loaded)
    ensures PathsOf(loaded) == LoadedPaths(m) && |loaded| == |LoadedPaths(m)| && FromMap(m, loaded)
  {
    assert LoadedPaths(m) - {} == LoadedPaths(m);
  }

  /** `GetLastUsedProfile`: without a manager, null; otherwise the loaded profile at the last-used directory, never created here. */
  method GetLastUsedProfile(manager: ProfileManager?, stored: string) returns (p: Option<Profile>)
    requires manager != null ==> manager.Valid()
    modifies manager
    ensures manager == null ==> p.None?
    ensures manager != null ==>
            p == old(manager.GetProfileByPath(manager.LastUsedProfileDir(stored))) &&
            manager.profiles == old(manager.profiles) && manager.events == old(manager.events)
  {
    if manager == null {
      return None;
    }
    p := manager.GetProfile(manager.LastUsedProfileDir(stored), false, None);
  }

  /** The last-used directory is an allowed profile path whenever the stored name is a single component or unset. */
  lemma LastUsedDirAllowed(manager: ProfileManager, stored: string)
    requires manager.userDataDir != [] && !FilePath.EndsWithSeparator(manager.userDataDir)
    requires stored == "" || FilePath.IsComponent(stored)
    ensures manager.IsAllowedProfilePath(manager.LastUsedProfileDir(stored))
    ensures FilePath.BaseName(manager.LastUsedProfileDir(stored)) == LastUsedBaseName(stored)
  {
    ProfilesState.InitialComponent();
    FilePath.DirNameOfAppend(manager.userDataDir, LastUsedBaseName(stored));
    FilePath.BaseNameOfAppend(manager.userDataDir, LastUsedBaseName(stored));
  }

  /** Storing a profile's base name makes it the last-used one, unless it is empty or the system directory. */
  lemma LastUsedRoundTrip(base: string)
    requires base != "" && base != ProfilesState.SystemProfileDir
    ensures LastUsedBaseName(base) == base
  {
  }

  /** On a disallowed path nothing is registered and only the init callback runs, with null. */
  lemma DisallowedPathRunsNull(profiles: map<string, ProfileInfo>, path: string, initCb: Option<nat>,
                               createdCb: Option<nat>, factoryResult: Option<Profile>)
    ensures var o := CreateAsync(profiles, false, path, initCb, createdCb, factoryResult);
            o.profiles == profiles && o.ran == RunIfSet(initCb, None)
  {
  }

  /** An init callback is never lost: it runs during the call, or it is queued on an entry whose creation has not finished. */
  lemma InitCallbackRunsOrQueued(profiles: map<string, ProfileInfo>, allowed: bool, path: string, cb: nat,
                                 createdCb: Option<nat>, factoryResult: Option<Profile>)
    ensures var o := CreateAsync(profiles, allowed, path, Some(cb), createdCb, factoryResult);
            (|o.ran| == 1 && o.ran[0].callback == cb) ||
            (o.ran == [] && path in o.profiles && !o.profiles[path].created &&
             o.profiles[path].initCallbacks == (if path in profiles then profiles[path].initCallbacks else []) + [cb])
  {
  }

  /** Failed asynchronous creation runs no created callback and every init callback with null. */
  lemma FailedCreationRunsNull(info: ProfileInfo, profile: Profile)
    ensures FinishRuns(info, profile, false) == Runs(info.initCallbacks, None)
  {
  }

  /** Successful asynchronous creation runs every queued callback exactly once, created callbacks first. */
  lemma SucceededCreationRunsAll(info: ProfileInfo, profile: Profile)
    ensures var es := FinishRuns(info, profile, true);
            |es| == |info.createdCallbacks| + |info.initCallbacks| &&
            (forall i :: 0 <= i < |info.createdCallbacks| ==> es[i] == Ran(info.createdCallbacks[i], Some(profile))) &&
            (forall i :: 0 <= i < |info.initCallbacks| ==>
               es[|info.createdCallbacks| + i] == Ran(info.initCallbacks[i], Some(profile)))
  {
  }

  /** A profile created synchronously is registered but never listed as loaded. */
  lemma SynchronousNotLoaded(profiles: map<string, ProfileInfo>, p: Profile)
    requires p.path !in profiles
    ensures LoadedPaths(profiles[p.path := ProfileInfo(p, [], [], false)]) == LoadedPaths(profiles)
  {
  }

  /** After successful asynchronous creation the profile is listed as loaded; after failure it is gone. */
  lemma FinishedCreationLoaded(profiles: map<string, ProfileInfo>, path: string)
    requires path in profiles
    ensures path in LoadedPaths(profiles[path := profiles[path].(initCallbacks := [], createdCallbacks := [], created := true)])
    ensures LoadedPaths(profiles - {path}) == LoadedPaths(profiles) - {path}
  {
  }

  /** No entry whose creation has finished still holds callbacks: nothing is left that would ever drain them. */
  predicate Drained(profiles: map<string, ProfileInfo>)
  {
    forall k :: k in profiles && profiles[k].created ==>
      profiles[k].initCallbacks == [] && profiles[k].createdCallbacks == []
  }

  /**
   * As written, a created callback passed without an init callback for a
   * profile whose creation has finished is queued on that entry, where no
   * later call runs it.
   */
  lemma CreatedCallbackStranded(profiles: map<string, ProfileInfo>, path: string, cb: nat)
    requires path in profiles && profiles[path].created && Drained(profiles)
    ensures var o := CreateAsync(profiles, true, path, None, Some(cb), None);
            o.ran == [] && path in o.profiles && o.profiles[path].created &&
            o.profiles[path].createdCallbacks == [cb] && !Drained(o.profiles)
  {
  }

  /**
   * `CreateProfileAsync` with the early return the surrounding comments
   * describe: once a profile is created its init callback (if any) runs at
   * once and nothing is queued.
   */
  function CreateAsyncIntended(profiles: map<string, ProfileInfo>, allowed: bool, path: string,
                               initCb: Option<nat>, createdCb: Option<nat>, factoryResult: Option<Profile>): (r: AsyncOutcome)
    ensures forall k :: k in profiles && k != path ==> k in r.profiles && r.profiles[k] == profiles[k]
    ensures r.profiles.Keys <= profiles.Keys + {path}
    ensures r.ran != [] ==> r.profiles == profiles
    ensures !allowed ==> r.profiles == profiles && r.ran == RunIfSet(initCb, None)
    ensures path in r.profiles && path !in profiles ==>
            allowed && factoryResult.Some? && r.ran == [] &&
            r.profiles[path].profile == factoryResult.value && !r.profiles[path].created
  {
    if allowed && path in profiles && profiles[path].created then
      AsyncOutcome(profiles, RunIfSet(initCb, Some(profiles[path].profile)))
    else CreateAsync(profiles, allowed, path, initCb, createdCb, factoryResult)
  }

  /** The corrected creation never leaves callbacks on a created entry, and agrees with the code whenever an init callback is given. */
  lemma IntendedKeepsDrained(profiles: map<string, ProfileInfo>, allowed: bool, path: string,
                             initCb: Option<nat>, createdCb: Option<nat>, factoryResult: Option<Profile>)
    requires Drained(profiles)
    requires factoryResult.Some? ==> factoryResult.value.path == path
    ensures Drained(CreateAsyncIntended(profiles, allowed, path, initCb, createdCb, factoryResult).profiles)
    ensures initCb.Some? ==>
            CreateAsyncIntended(profiles, allowed, path, initCb, createdCb, factoryResult) ==
            CreateAsync(profiles, allowed, path, initCb, createdCb, factoryResult)
  {
    var o := CreateAsyncIntended(profiles, allowed, path, initCb, createdCb, factoryResult);
    if !(allowed && path in profiles && profiles[path].created) && allowed &&
       !(path !in profiles && factoryResult.None?) {
      assert !o.profiles[path].created;
      forall k | k in o.profiles && o.profiles[k].created
        ensures o.profiles[k].initCallbacks == [] && o.profiles[k].createdCallbacks == []
      {
        assert k != path;
      }
    }
  }

  /** Finishing asynchronous creation drains the entry it marks created, so it keeps `Drained`. */
  lemma FinishKeepsDrained(profiles: map<string, ProfileInfo>, path: string, success: bool)
    requires Drained(profiles) && path in profiles
    ensures var info := profiles[path];
            Drained(if success then profiles[path := info.(initCallbacks := [], createdCallbacks := [], created := true)]
                    else profiles - {path})
  {
  }
}
