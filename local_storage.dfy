/**
 * The browser's `localStorage` as the quota counters use it: a durable key-value
 * store. A counter is stored as the decimal text of a natural number; the model
 * keeps the parsed number (`parseInt(text, 10)`) under the key.
 */
module LocalStorage {
  import opened Wrappers

  type Items = map<string, nat>

  class Storage {
    var items: Items

    constructor ()
      ensures items == map[]
    {
      items := map[];
    }

    /** `localStorage.getItem(key)`: `null` (None) when the key is absent. */
    function GetItem(key: string): (r: Option<nat>)
      reads this
      ensures r.Some? <==> key in items
      ensures r.Some? ==> r.value == items[key]
    {
      if key in items then Some(items[key]) else None
    }

    /** `localStorage.setItem(key, value)`. */
    method SetItem(key: string, value: nat)
      modifies this
      ensures items == old(items)[key := value]
    {
      items := items[key := value];
    }

    /** `localStorage.removeItem(key)`. */
    method RemoveItem(key: string)
      modifies this
      ensures items == old(items) - {key}
    {
      items := items - {key};
    }
  }
}
