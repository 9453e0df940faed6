/** The key-value store as the cache layer sees it: a handle that records
    every call made on it and passes back, unchanged, whatever the store
    answers. The answer is a parameter, since the store itself is not part
    of this model. */
module Store {
  import opened Values

  /** One call on the store: `save(record)`, `delete(key)` or `get(id)`. */
  datatype Call = Put(record: Record) | Remove(key: Record) | Fetch(id: Value)

  class Db {
    /** The calls made on this handle so far, oldest first. */
    var calls: seq<Call>

    constructor ()
      ensures calls == []
    {
      calls := [];
    }

    /** Upsert `record`; the store's result or error comes back unchanged. */
    method Save(record: Record, reply: Result<Value>) returns (r: Result<Value>)
      modifies this
      ensures calls == old(calls) + [Put(record)]
      ensures r == reply
    {
      calls := calls + [Put(record)];
      r := reply;
    }

    /** Remove the record with primary key `key`. */
    method Delete(key: Record, reply: Result<Value>) returns (r: Result<Value>)
      modifies this
      ensures calls == old(calls) + [Remove(key)]
      ensures r == reply
    {
      calls := calls + [Remove(key)];
      r := reply;
    }

    /** Read the record with primary key `id`. */
    method Get<T>(id: Value, reply: Result<T>) returns (r: Result<T>)
      modifies this
      ensures calls == old(calls) + [Fetch(id)]
      ensures r == reply
    {
      calls := calls + [Fetch(id)];
      r := reply;
    }
  }
}
