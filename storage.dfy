/** The browser's `localStorage`: one process-wide map from keys to
    strings, passed to each page rather than reached as a global. */
module Storage {
  import opened Wrappers

  class LocalStorage {
    var items: map<string, string>

    constructor (initial: map<string, string>)
      ensures items == initial
    {
      items := initial;
    }

    /** `getItem(key)`: the stored text, or `None` (JavaScript `null`)
        when nothing is stored under `key`. */
    function GetItem(key: string): Option<string>
      reads this
    {
      if key in items then Some(items[key]) else None
    }

    /** `setItem(key, value)` overwrites unconditionally: the key reads
        back as the new value and every other key reads as before. */
    method SetItem(key: string, value: string)
      modifies this
      ensures items == old(items)[key := value]
      ensures GetItem(key) == Some(value)
      ensures forall k | k != key :: GetItem(k) == old(GetItem(k))
    {
      items := items[key := value];
    }
  }
}
