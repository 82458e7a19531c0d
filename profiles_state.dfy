/**
 * Profile-wide state kept in Local State: the default profile directory and
 * the last-used profile preference (`profiles_state.cc`).
 */
module ProfilesState {
  import opened Wrappers
  import FilePath

  /**
   * `radium::kInitialProfile` and `radium::kSystemProfileDir`. Their
   * definitions are not part of this model; the values are Chromium's, and
   * the properties below only use that they are two different components.
   */
  const InitialProfile: string := "Default"
  const SystemProfileDir: string := "System Profile"

  /** `GetDefaultProfileDir`: the initial profile's directory inside the user-data directory. */
  function DefaultProfileDir(userDataDir: string): string
  {
    FilePath.Append(userDataDir, InitialProfile)
  }

  /** The default profile directory is named after the initial profile and sits directly in the user-data directory. */
  lemma DefaultProfileDirInUserData(userDataDir: string)
    ensures FilePath.BaseName(DefaultProfileDir(userDataDir)) == InitialProfile
    ensures userDataDir != [] && !FilePath.EndsWithSeparator(userDataDir) ==>
            FilePath.DirName(DefaultProfileDir(userDataDir)) == userDataDir
  {
    InitialComponent();
    FilePath.BaseNameOfAppend(userDataDir, InitialProfile);
    if userDataDir != [] && !FilePath.EndsWithSeparator(userDataDir) {
      FilePath.DirNameOfAppend(userDataDir, InitialProfile);
    }
  }

  lemma InitialComponent()
    ensures FilePath.IsComponent(InitialProfile)
    ensures FilePath.IsComponent(SystemProfileDir)
    ensures InitialProfile != SystemProfileDir
  {
  }

  /** The Local State preference `kProfileLastUsed`. */
  class LocalState {
    /** Whether `RegisterPrefs` has registered the preference (with an empty default). */
    var registered: bool
    /** The value explicitly stored, if any. */
    var stored: Option<string>

    /** The value a reader sees: the stored one, else the registered default "". */
    function LastUsed(): string
      reads this
    {
      if stored.Some? then stored.value else ""
    }

    constructor ()
      ensures !registered && stored.None?
    {
      registered := false;
      stored := None;
    }

    /** `RegisterPrefs`: registers the preference with an empty default; a stored value is kept. */
    method RegisterPrefs()
      modifies this
      ensures registered && stored == old(stored)
    {
      registered := true;
    }

    /** `SetLastUsedProfile`: stores `profileDir`, except that the system profile is never recorded. */
    method SetLastUsedProfile(profileDir: string)
      modifies this
      ensures registered == old(registered)
      ensures stored == if profileDir == SystemProfileDir then old(stored) else Some(profileDir)
    {
      if profileDir == SystemProfileDir {
        return;
      }
      stored := Some(profileDir);
    }
  }

  /** A freshly registered preference reads as the empty default. */
  method RegisteredDefault() returns (value: string)
    ensures value == ""
  {
    var state := new LocalState();
    state.RegisterPrefs();
    value := state.LastUsed();
  }

  /** Storing the system profile directory never changes what is read back. */
  method SystemProfileNeverStored(previous: string) returns (value: string)
    ensures value == if previous == SystemProfileDir then "" else previous
  {
    var state := new LocalState();
    state.RegisterPrefs();
    state.SetLastUsedProfile(previous);
    state.SetLastUsedProfile(SystemProfileDir);
    value := state.LastUsed();
  }
}
