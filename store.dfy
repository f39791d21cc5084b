/** The key-value store (Redis) as an in-memory map of strings to strings. */
module Store {

  import opened Wrappers

  /** What `redis.get` answers: the value, or null when the key is absent. */
  function Lookup(data: map<string, string>, key: string): Option<string> {
    if key in data then Some(data[key]) else None
  }

  /** JavaScript truthiness of a `redis.get` answer: null and "" are falsy. */
  predicate Truthy(v: Option<string>) {
    v.Some? && v.value != ""
  }

  class Redis {
    var data: map<string, string>
    /** The keys written or deleted so far, oldest first. */
    ghost var writes: seq<string>

    constructor (initial: map<string, string>)
      ensures data == initial && writes == []
    {
      data := initial;
      writes := [];
    }

    method Get(key: string) returns (v: Option<string>)
      ensures v == Lookup(data, key)
    {
      v := if key in data then Some(data[key]) else None;
    }

    method Set(key: string, value: string)
      modifies this
      ensures data == old(data)[key := value]
      ensures writes == old(writes) + [key]
    {
      data := data[key := value];
      writes := writes + [key];
    }

    method Del(key: string)
      modifies this
      ensures data == old(data) - {key}
      ensures writes == old(writes) + [key]
    {
      data := data - {key};
      writes := writes + [key];
    }
  }
}
