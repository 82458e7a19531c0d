/**
 * `BrowserUserData<T>`: per-type data attached to a browser through the
 * browser's user-data table. The table maps each type's key (the address of
 * `T::kUserDataKey`, one per type, modelled as the type's name) to the
 * attached instance. An instance remembers its browser; a fresh instance's
 * identity is an input.
 */
module BrowserUserData {
  import opened Wrappers

  /** An attached object: the browser it belongs to and its own identity. */
  datatype Instance = Instance(browser: nat, serial: nat)

  /** The table after `CreateForBrowser`: an existing entry wins; otherwise `created` is attached under `key`. */
  function Created(data: map<string, Instance>, key: string, created: Instance): (r: map<string, Instance>)
    ensures key in r
    ensures key in data ==> r == data
    ensures key !in data ==> r[key] == created && r - {key} == data
  {
    if key in data then data else data[key := created]
  }

  /** Creating twice is creating once: the second call finds the first instance. */
  lemma CreateIdempotent(data: map<string, Instance>, key: string, a: Instance, b: Instance)
    ensures Created(Created(data, key, a), key, b) == Created(data, key, a)
  {
  }

  /** Creating an instance for one type leaves every other type's entry as it was. */
  lemma CreateKeepsOthers(data: map<string, Instance>, key: string, other: string, created: Instance)
    requires other != key
    ensures other in Created(data, key, created) <==> other in data
    ensures other in data ==> Created(data, key, created)[other] == data[other]
  {
  }

  /** Creating for a type with no instance and removing it again restores the table. */
  lemma CreateThenRemove(data: map<string, Instance>, key: string, created: Instance)
    requires key !in data
    ensures Created(data, key, created) - {key} == data
  {
  }

  /** A browser's user-data table, restricted to the entries `BrowserUserData` manages. */
  class UserDataHost {
    /** The browser owning the table. */
    const browser: nat
    var data: map<string, Instance>

    constructor (browser: nat)
      ensures this.browser == browser && data == map[]
    {
      this.browser := browser;
      data := map[];
    }

    /** `FromBrowser`: the attached instance of the type, or nothing. */
    function FromBrowser(key: string): (r: Option<Instance>)
      reads this
      ensures r.Some? <==> key in data
      ensures r.Some? ==> r.value == data[key]
    {
      if key in data then Some(data[key]) else None
    }

    /** `CreateForBrowser`: attach a new instance `T(browser, ...)` only when none is attached. */
    method CreateForBrowser(key: string, serial: nat)
      modifies this
      ensures data == Created(old(data), key, Instance(browser, serial))
    {
      if FromBrowser(key).None? {
        data := data[key := Instance(browser, serial)];
      }
    }

    /**
     * `GetOrCreateForBrowser`: the attached instance, creating it first when
     * there is none; the result is never null.
     */
    method GetOrCreateForBrowser(key: string, serial: nat) returns (r: Instance)
      modifies this
      ensures data == Created(old(data), key, Instance(browser, serial))
      ensures key in data && r == data[key]
      ensures key in old(data) ==> r == old(data)[key]
      ensures key !in old(data) ==> r == Instance(browser, serial)
    {
      var existing := FromBrowser(key);
      if existing.Some? {
        r := existing.value;
      } else {
        CreateForBrowser(key, serial);
        r := FromBrowser(key).value;
      }
    }

    /** `RemoveFromBrowser`: the caller guarantees an attached instance, which is removed. */
    method RemoveFromBrowser(key: string)
      requires key in data
      modifies this
      ensures data == old(data) - {key}
    {
      data := data - {key};
    }
  }
}
