/**
 * The preference history: a key/value store that the layout reads at start-up
 * and writes whenever a panel changes, so the layout survives a reload.
 */
module History {
  import opened Wrappers

  /** A stored value. */
  datatype HValue = Num(n: int) | Bool(b: bool) | Str(s: string)

  /** JavaScript truthiness of a stored value. */
  predicate Truthy(v: HValue) {
    match v
    case Num(n) => n != 0
    case Bool(b) => b
    case Str(s) => s != ""
  }

  /** `history.get(key)` on a plain map: `None` for a missing key. */
  function Lookup(entries: map<string, HValue>, key: string): (r: Option<HValue>)
    ensures r.Some? <==> key in entries
    ensures r.Some? ==> r.value == entries[key]
  {
    if key in entries then Some(entries[key]) else None
  }

  class HistoryStore {
    var entries: map<string, HValue>

    constructor(initial: map<string, HValue>)
      ensures entries == initial
    {
      entries := initial;
    }

    function Get(key: string): (r: Option<HValue>)
      reads this
      ensures r == Lookup(entries, key)
    {
      Lookup(entries, key)
    }

    method Put(key: string, value: HValue)
      modifies this
      ensures entries == old(entries)[key := value]
    {
      entries := entries[key := value];
    }
  }
}
