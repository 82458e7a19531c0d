/**
 * tab_web_contents_delegate_android.cc: the native delegate's dark-mode
 * queries. Each looks up the Java delegate through a weak reference and
 * answers `false` when it is gone.
 */
module TabWebContentsDelegateAndroid {
  import opened Wrappers
  import Impl = TabWebContentsDelegateAndroidImpl

  /** `IsNightModeEnabled`: false without a Java delegate, else its answer. */
  function IsNightModeEnabled(javaDelegate: Option<Impl.DelegateImpl>): (r: bool)
    ensures javaDelegate.None? ==> !r
    ensures javaDelegate.Some? ==> r == Impl.IsNightModeEnabled(javaDelegate.value)
  {
    match javaDelegate
    case None => false
    case Some(d) => Impl.IsNightModeEnabled(d)
  }

  /** `IsForceDarkWebContentEnabled`: false without a Java delegate, else its answer. */
  function IsForceDarkWebContentEnabled(javaDelegate: Option<Impl.DelegateImpl>): (r: bool)
    ensures javaDelegate.None? ==> !r
    ensures javaDelegate.Some? ==> r == Impl.IsForceDarkWebContentEnabled(javaDelegate.value)
  {
    match javaDelegate
    case None => false
    case Some(d) => Impl.IsForceDarkWebContentEnabled(d)
  }

  /**
   * End to end: a query is true exactly when a Java delegate exists and the
   * embedder's policy delegate it was built with says so.
   */
  lemma QueriesReachPolicy(javaDelegate: Option<Impl.DelegateImpl>)
    ensures IsNightModeEnabled(javaDelegate) <==>
      javaDelegate.Some? && javaDelegate.value.delegate.nightModeEnabled
    ensures IsForceDarkWebContentEnabled(javaDelegate) <==>
      javaDelegate.Some? && javaDelegate.value.delegate.forceDarkWebContentEnabled
  {
  }
}
