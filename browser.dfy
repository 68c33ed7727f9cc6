/** The browser's `localStorage`, shared by the local backend and the
    testing flag: string keys to stored JSON text. */
module Browser {
  import opened Documents

  /** What is stored under a key: text that parses to a value, or text that
      does not (the empty string included, which reads as missing too). */
  datatype Item = Encoded(value: Value) | Unparsable

  class BrowserStorage {
    var items: map<string, Item>
    /** Every `setItem` throws: the quota is exhausted or storage is disabled. */
    var full: bool

    constructor (items: map<string, Item>, full: bool)
      ensures this.items == items && this.full == full
    {
      this.items := items;
      this.full := full;
    }
  }

  /** The items after `setItem(key, JSON.stringify(v))`. */
  function AfterSave(items: map<string, Item>, full: bool, key: string, v: Value): map<string, Item>
  {
    if full then items else items[key := Encoded(v)]
  }

  /** `localStorage.getItem(key) === 'true'`. */
  predicate StoredTrue(items: map<string, Item>, key: string)
  {
    key in items && items[key] == Encoded(Flag(true))
  }
}
