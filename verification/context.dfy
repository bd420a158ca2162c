/**
 * pypyr's Context: the dictionary shared by every step of a pipeline.
 * Steps receive the object itself and change its entries in place.
 */
module Contexts {
  import opened Values

  class Context {
    /** The dictionary's key/value pairs. */
    var entries: map<Value, Value>

    /** `Context(d)`, or `Context()` when given the empty map. */
    constructor (initial: map<Value, Value>)
      ensures entries == initial
    {
      entries := initial;
    }
  }
}
