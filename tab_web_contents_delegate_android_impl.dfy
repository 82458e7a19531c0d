/**
 * TabWebContentsDelegateAndroidImpl.java: the Java web-contents delegate of a
 * tab, which keeps a final reference to the embedder's policy delegate and
 * forwards the two dark-mode queries to it.
 */
module TabWebContentsDelegateAndroidImpl {
  import TabImpl

  /** The embedder's answers to the two queries. */
  datatype PolicyDelegate = PolicyDelegate(nightModeEnabled: bool, forceDarkWebContentEnabled: bool)

  /** The Java delegate: its only field is the final policy delegate. */
  datatype DelegateImpl = DelegateImpl(delegate: PolicyDelegate)

  /** The constructor keeps the policy delegate and drops the tab argument. */
  function New(tab: TabImpl.TabImpl?, delegate: PolicyDelegate): (d: DelegateImpl)
    ensures d.delegate == delegate
  {
    DelegateImpl(delegate)
  }

  /** Forwards the policy delegate's night-mode answer. */
  function IsNightModeEnabled(d: DelegateImpl): (r: bool)
    ensures r == d.delegate.nightModeEnabled
  {
    d.delegate.nightModeEnabled
  }

  /** Forwards the policy delegate's force-dark answer. */
  function IsForceDarkWebContentEnabled(d: DelegateImpl): (r: bool)
    ensures r == d.delegate.forceDarkWebContentEnabled
  {
    d.delegate.forceDarkWebContentEnabled
  }

  /** The tab given to the constructor has no influence on the delegate built. */
  lemma TabNotStored(t1: TabImpl.TabImpl?, t2: TabImpl.TabImpl?, p: PolicyDelegate)
    ensures New(t1, p) == New(t2, p)
    ensures IsNightModeEnabled(New(t1, p)) == p.nightModeEnabled
    ensures IsForceDarkWebContentEnabled(New(t1, p)) == p.forceDarkWebContentEnabled
  {
  }
}
