/** The device key/value store (AsyncStorage) as seen by its callers: a map from keys to strings. */
module Storage {
  import opened Wrappers

  class KeyValueStore {
    var items: map<string, string>

    constructor ()
      ensures items == map[]
    {
      items := map[];
    }

    /** `getItem`: the stored string, or null for a key never written. */
    function GetItem(key: string): (r: Option<string>)
      reads this
      ensures r.Some? <==> key in items
      ensures r.Some? ==> r.value == items[key]
    {
      if key in items then Some(items[key]) else None
    }

    /** `setItem`; `ok` is false when the write is rejected, which leaves the store as it was. */
    method SetItem(key: string, value: string, ok: bool)
      modifies this
      ensures items == if ok then old(items)[key := value] else old(items)
    {
      if ok {
        items := items[key := value];
      }
    }
  }
}
