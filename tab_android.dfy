/**
 * The native half of the Android tab bridge (tab_android.cc): a TabAndroid
 * binds its own address into the Java tab when it is constructed and clears
 * it when it is destroyed; a web contents finds its tab through a helper
 * attached to it as user data.
 */
module TabAndroid {
  import TabImpl

  /** The native tab; `address` stands for the C++ `this` pointer. */
  class TabAndroid {
    const javaTab: TabImpl.TabImpl
    const address: int

    /** Construction binds the Java tab to the new object's address. */
    constructor (javaTab: TabImpl.TabImpl, address: int)
      requires address != 0 && javaTab.nativeTabAndroid == 0
      modifies javaTab
      ensures this.javaTab == javaTab && this.address == address
      ensures javaTab.nativeTabAndroid == address
    {
      this.javaTab := javaTab;
      this.address := address;
      new;
      javaTab.SetNativePtr(address);
    }

    /** Destruction clears the Java tab's handle. */
    method Destroy()
      requires javaTab.nativeTabAndroid != 0
      modifies javaTab
      ensures javaTab.nativeTabAndroid == 0
    {
      javaTab.ClearNativePtr();
    }
  }

  /** The per-web-contents user data `TabAndroidHelper`, holding a possibly null tab. */
  class TabAndroidHelper {
    var tabAndroid: TabAndroid?
    constructor ()
      ensures tabAndroid == null
    {
      tabAndroid := null;
    }
  }

  /** A web contents, reduced to the helper attached to it (null when none). */
  class WebContents {
    var helper: TabAndroidHelper?
    constructor ()
      ensures helper == null
    {
      helper := null;
    }
  }

  /** `TabAndroidHelper::FromWebContents`: the helper's tab, or null without a helper. */
  function FromWebContents(contents: WebContents): (t: TabAndroid?)
    reads contents, contents.helper
    ensures contents.helper == null ==> t == null
    ensures contents.helper != null ==> t == contents.helper.tabAndroid
  {
    if contents.helper == null then null else contents.helper.tabAndroid
  }

  /**
   * `SetTabForWebContents`: creates the helper if absent, then stores the tab;
   * afterwards `FromWebContents` finds exactly that tab.
   */
  method SetTabForWebContents(contents: WebContents, tab: TabAndroid?)
    modifies contents, contents.helper
    ensures contents.helper != null && FromWebContents(contents) == tab
    ensures old(contents.helper) != null ==> contents.helper == old(contents.helper)
  {
    if contents.helper == null {
      contents.helper := new TabAndroidHelper();
    }
    contents.helper.tabAndroid := tab;
  }

  /** `GetNativeTab`: reads the handle stored in the Java tab. */
  method GetNativeTab(javaTab: TabImpl.TabImpl) returns (address: int)
    ensures address == javaTab.nativeTabAndroid
  {
    address := javaTab.GetNativePtr();
  }

  /**
   * `JNI_TabImpl_FromWebContents`: the Java tab of the contents' native tab,
   * or an empty reference when the contents is null or has no tab.
   */
  function JniFromWebContents(contents: WebContents?): (jtab: TabImpl.TabImpl?)
    reads contents, if contents == null then {} else {contents.helper}
    ensures jtab == null <==> contents == null || FromWebContents(contents) == null
    ensures jtab != null ==> jtab == FromWebContents(contents).javaTab
  {
    var tab := if contents == null then null else FromWebContents(contents);
    if tab == null then null else tab.javaTab
  }

  /** `JNI_TabImpl_Init`: constructing the native tab binds the Java tab. */
  method JniInit(javaTab: TabImpl.TabImpl, address: int) returns (tab: TabAndroid)
    requires address != 0 && javaTab.nativeTabAndroid == 0
    modifies javaTab
    ensures fresh(tab) && tab.javaTab == javaTab && tab.address == address
    ensures javaTab.nativeTabAndroid == address
  {
    tab := new TabAndroid(javaTab, address);
  }

  /**
   * The whole bridge: after init, `GetNativeTab` on the Java tab yields the
   * native object's address, and destroying that object unbinds the Java tab.
   */
  method InitLookupDestroy(javaTab: TabImpl.TabImpl, address: int)
    returns (seen: int)
    requires address != 0 && javaTab.nativeTabAndroid == 0
    modifies javaTab
    ensures seen == address && javaTab.nativeTabAndroid == 0
  {
    var tab := JniInit(javaTab, address);
    seen := GetNativeTab(javaTab);
    tab.Destroy();
  }
}
