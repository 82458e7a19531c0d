/**
 * `RadiumContentBrowserClient`: the web-preference updates made after a
 * navigation (forced colours and preferred colour scheme), the directories
 * that hold network contexts, and the product string. What the native theme,
 * the web contents and the tab delegate report is an input; the Android and
 * desktop branches are chosen by the `android` flag.
 */
module RadiumContentBrowserClient {
  import opened Wrappers
  import FP = FilePath

  /** `blink::mojom::PreferredColorScheme`. */
  datatype ColorScheme = Light | Dark

  /** The fields of `blink::web_pref::WebPreferences` the updates touch. */
  class WebPreferences {
    var inForcedColors: bool
    var forcedColorsDisabled: bool
    var preferredColorScheme: ColorScheme
    var rootScrollbarColorScheme: ColorScheme

    constructor (inForcedColors: bool, forcedColorsDisabled: bool, scheme: ColorScheme, rootScheme: ColorScheme)
      ensures this.inForcedColors == inForcedColors && this.forcedColorsDisabled == forcedColorsDisabled
      ensures preferredColorScheme == scheme && rootScrollbarColorScheme == rootScheme
    {
      this.inForcedColors := inForcedColors;
      this.forcedColorsDisabled := forcedColorsDisabled;
      preferredColorScheme := scheme;
      rootScrollbarColorScheme := rootScheme;
    }
  }

  /** `ShouldDisableForcedColorsForWebContent`: the page-colours block list is not consulted; nothing is exempt. */
  function ShouldDisableForcedColorsForWebContent(hasContents: bool, inForcedColors: bool): (r: bool)
    ensures !r
  {
    false
  }

  /**
   * `UpdateForcedColorsForWebContent`: forced colours follow the native
   * theme unless the contents is exempt, the exemption is recorded, and the
   * result says whether either field changed.
   */
  method UpdateForcedColorsForWebContent(prefs: WebPreferences, nativeForcedColors: bool) returns (changed: bool)
    modifies prefs
    ensures prefs.inForcedColors == nativeForcedColors && !prefs.forcedColorsDisabled
    ensures changed <==> prefs.inForcedColors != old(prefs.inForcedColors) || prefs.forcedColorsDisabled != old(prefs.forcedColorsDisabled)
    ensures prefs.preferredColorScheme == old(prefs.preferredColorScheme)
    ensures prefs.rootScrollbarColorScheme == old(prefs.rootScrollbarColorScheme)
  {
    var oldInForcedColors := prefs.inForcedColors;
    var oldDisabled := prefs.forcedColorsDisabled;
    var shouldDisable := ShouldDisableForcedColorsForWebContent(true, nativeForcedColors);
    prefs.inForcedColors := nativeForcedColors && !shouldDisable;
    prefs.forcedColorsDisabled := shouldDisable;
    changed := oldInForcedColors != prefs.inForcedColors || oldDisabled != prefs.forcedColorsDisabled;
  }

  /** The scheme a light or dark colour mode stands for. */
  function SchemeOfMode(colorModeLight: bool): (s: ColorScheme)
    ensures s == Light <==> colorModeLight
  {
    if colorModeLight then Light else Dark
  }

  /** The preferred scheme after `UpdatePreferredColorScheme`, from the scheme before and the inputs. */
  function SchemeAfter(before: ColorScheme, android: bool, nightMode: Option<bool>, nativeDark: bool,
                       colorModeLight: bool, isWebUIUrl: bool): ColorScheme
  {
    if android then (if nightMode.Some? then (if nightMode.value then Dark else Light) else before)
    else if isWebUIUrl then SchemeOfMode(colorModeLight)
    else if nativeDark then Dark else Light
  }

  /** Updating the scheme twice with the same inputs lands where updating once does. */
  lemma SchemeAfterIdempotent(before: ColorScheme, android: bool, nightMode: Option<bool>, nativeDark: bool,
                              colorModeLight: bool, isWebUIUrl: bool)
    ensures var once := SchemeAfter(before, android, nightMode, nativeDark, colorModeLight, isWebUIUrl);
            SchemeAfter(once, android, nightMode, nativeDark, colorModeLight, isWebUIUrl) == once
  {
  }

  /**
   * `UpdatePreferredColorScheme`. On Android, a tab's delegate (`nightMode`
   * is `Some` when the contents has one) sets both schemes from night mode,
   * and without one nothing changes. Elsewhere the scheme follows the native
   * theme, the root scrollbar follows the contents' colour mode, and a WebUI
   * URL's scheme follows the colour mode too. The result says whether the
   * scheme changed.
   */
  method UpdatePreferredColorScheme(prefs: WebPreferences, android: bool, nightMode: Option<bool>,
                                    nativeDark: bool, colorModeLight: bool, isWebUIUrl: bool)
    returns (changed: bool)
    modifies prefs
    ensures changed <==> prefs.preferredColorScheme != old(prefs.preferredColorScheme)
    ensures prefs.preferredColorScheme == SchemeAfter(old(prefs.preferredColorScheme), android, nightMode, nativeDark, colorModeLight, isWebUIUrl)
    ensures prefs.inForcedColors == old(prefs.inForcedColors) && prefs.forcedColorsDisabled == old(prefs.forcedColorsDisabled)
    ensures android && nightMode.None? ==>
            prefs.preferredColorScheme == old(prefs.preferredColorScheme) &&
            prefs.rootScrollbarColorScheme == old(prefs.rootScrollbarColorScheme)
    ensures android && nightMode.Some? ==>
            (prefs.preferredColorScheme == Dark <==> nightMode.value) &&
            prefs.rootScrollbarColorScheme == prefs.preferredColorScheme
    ensures !android ==>
            prefs.rootScrollbarColorScheme == SchemeOfMode(colorModeLight) &&
            prefs.preferredColorScheme == (if isWebUIUrl then SchemeOfMode(colorModeLight) else if nativeDark then Dark else Light)
  {
    var oldScheme := prefs.preferredColorScheme;
    if android {
      if nightMode.Some? {
        prefs.preferredColorScheme := if nightMode.value then Dark else Light;
        prefs.rootScrollbarColorScheme := prefs.preferredColorScheme;
      }
    } else {
      prefs.preferredColorScheme := if nativeDark then Dark else Light;
      var usingDifferentColoredFrame := false;
      prefs.rootScrollbarColorScheme := if colorModeLight || usingDifferentColoredFrame then Light else Dark;
    }
    // `force_light` is the constant `false`, so only the WebUI branch remains.
    if !android && isWebUIUrl {
      prefs.preferredColorScheme := if colorModeLight then Light else Dark;
    }
    changed := oldScheme != prefs.preferredColorScheme;
  }

  /** `OverrideWebPreferencesAfterNavigation`: both updates run; the result says whether either changed something. */
  method OverrideWebPreferencesAfterNavigation(prefs: WebPreferences, android: bool, nightMode: Option<bool>,
                                               nativeForcedColors: bool, nativeDark: bool, colorModeLight: bool,
                                               isWebUIUrl: bool)
    returns (changed: bool)
    modifies prefs
    ensures prefs.inForcedColors == nativeForcedColors && !prefs.forcedColorsDisabled
    ensures prefs.preferredColorScheme == SchemeAfter(old(prefs.preferredColorScheme), android, nightMode, nativeDark, colorModeLight, isWebUIUrl)
    ensures android && nightMode.None? ==> prefs.rootScrollbarColorScheme == old(prefs.rootScrollbarColorScheme)
    ensures android && nightMode.Some? ==>
            (prefs.preferredColorScheme == Dark <==> nightMode.value) &&
            prefs.rootScrollbarColorScheme == prefs.preferredColorScheme
    ensures !android ==>
            prefs.rootScrollbarColorScheme == SchemeOfMode(colorModeLight) &&
            prefs.preferredColorScheme == (if isWebUIUrl then SchemeOfMode(colorModeLight) else if nativeDark then Dark else Light)
    ensures changed <==>
            prefs.inForcedColors != old(prefs.inForcedColors) || prefs.forcedColorsDisabled != old(prefs.forcedColorsDisabled) ||
            prefs.preferredColorScheme != old(prefs.preferredColorScheme)
  {
    changed := false;
    var forced := UpdateForcedColorsForWebContent(prefs, nativeForcedColors);
    changed := changed || forced;
    var scheme := UpdatePreferredColorScheme(prefs, android, nightMode, nativeDark, colorModeLight, isWebUIUrl);
    changed := changed || scheme;
  }

  /** Running the update a second time on the same inputs changes nothing. */
  method OverrideTwiceIsStable(android: bool, nightMode: Option<bool>, nativeForcedColors: bool, nativeDark: bool,
                               colorModeLight: bool, isWebUIUrl: bool, start: ColorScheme)
    returns (second: bool)
    ensures !second
  {
    var prefs := new WebPreferences(false, true, start, start);
    var first := OverrideWebPreferencesAfterNavigation(prefs, android, nightMode, nativeForcedColors, nativeDark, colorModeLight, isWebUIUrl);
    SchemeAfterIdempotent(start, android, nightMode, nativeDark, colorModeLight, isWebUIUrl);
    second := OverrideWebPreferencesAfterNavigation(prefs, android, nightMode, nativeForcedColors, nativeDark, colorModeLight, isWebUIUrl);
  }

  /**
   * The directories `InitOnUIThread` lists as written: the user-data
   * directory; the cache directory unless it lies under the user-data
   * directory; and a non-empty cache directory from local state, also
   * only when the *cache* directory does not lie under the user-data
   * directory.
   */
  function ParentDirectories(userData: string, cache: string, prefCache: Option<string>): (dirs: seq<string>)
    ensures FP.IsParent(userData, cache) ==> dirs == [userData]
    ensures !FP.IsParent(userData, cache) ==>
            dirs == [userData, cache] + (if prefCache.Some? && prefCache.value != [] then [prefCache.value] else [])
  {
    [userData]
    + (if !FP.IsParent(userData, cache) then [cache] else [])
    + (if prefCache.Some? && prefCache.value != [] && !FP.IsParent(userData, cache) then [prefCache.value] else [])
  }

  /**
   * `InitOnUIThread`: build `network_contexts_parent_directory_`. `prefCache`
   * is the disk-cache directory from local state, `None` without local state.
   */
  method InitOnUIThread(userData: string, cache: string, prefCache: Option<string>) returns (dirs: seq<string>)
    ensures dirs == ParentDirectories(userData, cache, prefCache)
  {
    dirs := [];
    dirs := dirs + [userData];
    if !FP.IsParent(userData, cache) {
      dirs := dirs + [cache];
    }
    if prefCache.Some? {
      var prefCacheDir := prefCache.value;
      if prefCacheDir != [] && !FP.IsParent(userData, cache) {
        dirs := dirs + [prefCacheDir];
      }
    }
  }

  /** As written, a cache directory under the user-data directory also drops an overriding cache directory elsewhere. */
  lemma OverriddenCacheDropped()
    ensures FP.IsParent("/u", "/u/c") && !FP.IsParent("/u", "/p")
    ensures "/p" !in ParentDirectories("/u", "/u/c", Some("/p"))
  {
    assert FP.Pieces("u") == ["u"] by {
      assert FP.FirstSeparatorOrEnd("u", 1) == 1;
      assert FP.FirstSeparatorOrEnd("u", 0) == 1;
      assert "u"[..1] == "u";
    }
    assert FP.Pieces("/u") == ["u"] by {
      assert "/u"[1..] == "u";
    }
    assert FP.Pieces("c") == ["c"] by {
      assert FP.FirstSeparatorOrEnd("c", 1) == 1;
      assert FP.FirstSeparatorOrEnd("c", 0) == 1;
      assert "c"[..1] == "c";
    }
    assert FP.Pieces("u/c") == ["u", "c"] by {
      assert FP.FirstSeparatorOrEnd("u/c", 1) == 1;
      assert FP.FirstSeparatorOrEnd("u/c", 0) == 1;
      assert "u/c"[..1] == "u";
      assert "u/c"[2..] == "c";
    }
    assert FP.Pieces("/u/c") == ["u", "c"] by {
      assert "/u/c"[1..] == "u/c";
    }
    assert FP.Pieces("p") == ["p"] by {
      assert FP.FirstSeparatorOrEnd("p", 1) == 1;
      assert FP.FirstSeparatorOrEnd("p", 0) == 1;
      assert "p"[..1] == "p";
    }
    assert FP.Pieces("/p") == ["p"] by {
      assert "/p"[1..] == "p";
    }
    assert FP.Components("/u") == ["/", "u"];
    assert FP.Components("/u/c") == ["/", "u", "c"];
    assert FP.Components("/p") == ["/", "p"];
  }

  /**
   * The directories as evidently intended: the overriding cache directory
   * is tested against the user-data directory itself.
   */
  function IntendedParentDirectories(userData: string, cache: string, prefCache: Option<string>): (dirs: seq<string>)
    ensures |dirs| >= 1 && dirs[0] == userData
  {
    [userData]
    + (if !FP.IsParent(userData, cache) then [cache] else [])
    + (if prefCache.Some? && prefCache.value != [] && !FP.IsParent(userData, prefCache.value) then [prefCache.value] else [])
  }

  /**
   * Every directory a network context may use is covered: the cache
   * directory and a non-empty overriding cache directory are each either
   * listed or under the user-data directory, and nothing else is listed.
   */
  lemma IntendedCoversCaches(userData: string, cache: string, prefCache: Option<string>)
    ensures var dirs := IntendedParentDirectories(userData, cache, prefCache);
            (cache in dirs || FP.IsParent(userData, cache)) &&
            (prefCache.Some? && prefCache.value != [] ==> prefCache.value in dirs || FP.IsParent(userData, prefCache.value)) &&
            (forall d :: d in dirs ==> d == userData || d == cache || Some(d) == prefCache)
  {
    var dirs := IntendedParentDirectories(userData, cache, prefCache);
    if !FP.IsParent(userData, cache) {
      assert dirs[1] == cache;
    }
    if prefCache.Some? && prefCache.value != [] && !FP.IsParent(userData, prefCache.value) {
      assert dirs[|dirs| - 1] == prefCache.value;
    }
  }

  /** `GetProduct`: the product short name and version, joined by a slash. */
  function GetProduct(shortName: string, version: string): (r: string)
    ensures |r| == |shortName| + 1 + |version|
    ensures r[..|shortName|] == shortName && r[|shortName|] == '/' && r[|shortName| + 1..] == version
  {
    shortName + "/" + version
  }

  /** When the short name holds no slash, the product string determines both parts. */
  lemma ProductDeterminesParts(n1: string, v1: string, n2: string, v2: string)
    requires '/' !in n1 && '/' !in n2
    requires GetProduct(n1, v1) == GetProduct(n2, v2)
    ensures n1 == n2 && v1 == v2
  {
  }
}
