/** The whitelisted cached record: an identity, a mutable `data` map that
    starts as `{ <type>_id: id }`, populate/stamp operations on it, and
    save/delete calls on a store handle. */
module Items {
  import opened Values
  import Projection
  import Store

  /** The attribute named after the record type: `${type}_id`. An absent type
      spells `undefined`, as JavaScript's template string does. */
  function KeyName(itemType: Option<string>): string {
    (if itemType.Some? then itemType.value else "undefined") + "_id"
  }

  /** The caller's constructor argument object. Only the members the
      constructors read or write are modelled. */
  class ItemParams {
    var id: Value
    var itemType: Option<string>
    var key: Option<string>

    constructor (id: Value, itemType: Option<string>, key: Option<string>)
      ensures this.id == id && this.itemType == itemType && this.key == key
    {
      this.id := id;
      this.itemType := itemType;
      this.key := key;
    }
  }

  class Item {
    const itemType: Option<string>
    const id: Value
    /** The whitelist `populate` picks with. At run time an instance reads
        `this.fields`, which is undefined, so it is `{"undefined"}` (see
        `PopulateAtRunTime`); the subclasses' class-level lists are the
        intended ones. Every property here holds for any set. */
    const fields: set<string>
    const db: Store.Db
    var data: Record

    function Key(): string {
      KeyName(itemType)
    }

    /** `data` holds only whitelisted keys, the identity key and the stamp. */
    ghost predicate Valid()
      reads this
    {
      data.Keys <= fields + {Key(), Projection.ExpiryDate}
    }

    constructor (params: ItemParams, fields: set<string>)
      ensures itemType == params.itemType && id == params.id && this.fields == fields
      ensures data == map[KeyName(params.itemType) := params.id]
      ensures fresh(db) && db.calls == []
      ensures Valid()
    {
      itemType := params.itemType;
      id := params.id;
      this.fields := fields;
      db := new Store.Db();
      data := map[KeyName(params.itemType) := params.id];
    }

    method Populate(input: Record) returns (self: Item)
      modifies this
      ensures self == this
      ensures data == Projection.Populate(old(data), input, fields)
      ensures old(Valid()) ==> Valid()
    {
      if Valid() {
        Projection.PopulateStaysWithin(data, input, fields, {Key(), Projection.ExpiryDate});
      }
      data := Projection.Populate(data, input, fields);
      self := this;
    }

    method AddExpiryDate(expiryField: string) returns (self: Item)
      modifies this
      ensures self == this
      ensures data == Projection.AddExpiryDate(old(data), expiryField)
      ensures old(Valid()) ==> Valid()
    {
      data := Projection.AddExpiryDate(data, expiryField);
      self := this;
    }

    /** Hands the current data to the store and returns its answer unchanged. */
    method Save(reply: Result<Value>) returns (r: Result<Value>)
      modifies db
      ensures db.calls == old(db.calls) + [Store.Put(data)]
      ensures r == reply
    {
      r := db.Save(data, reply);
    }

    /** Deletes by `{ <type>_id: id }`, built from the constructor's id, not
        from whatever `data` now holds under that key. */
    method Delete(reply: Result<Value>) returns (r: Result<Value>)
      modifies db
      ensures db.calls == old(db.calls) + [Store.Remove(map[Key() := id])]
      ensures r == reply
    {
      r := db.Delete(map[Key() := id], reply);
    }
  }

  /** At run time an instance reads `this.fields`, which is undefined, and
      `_pick(input, undefined)` looks up the one key `"undefined"`. So
      populate keeps the identity key and, at most, an input attribute
      literally named `undefined`. */
  method PopulateAtRunTime(id: Value, itemType: string, input: Record) returns (data: Record)
    ensures data.Keys == {itemType + "_id"} + (if "undefined" in input then {"undefined"} else {})
    ensures data[itemType + "_id"] == id
    ensures "undefined" in input ==> data["undefined"] == input["undefined"]
  {
    var key := itemType + "_id";
    assert key != "undefined" by {
      if |key| == 9 {
        assert key[6] == '_' && "undefined"[6] == 'n';
      }
    }
    var params := new ItemParams(id, Some(itemType), None);
    var item := new Item(params, {"undefined"});
    var _ := item.Populate(input);
    data := item.data;
  }

  /** Overwriting the identity key through populate does not change what
      delete sends: the store is asked to remove the original id. */
  method DeleteAfterOverwrite(id: Value, itemType: string, newId: Value, fields: set<string>, reply: Result<Value>)
    returns (sentKey: Record, held: Value)
    requires itemType + "_id" in fields
    ensures held == newId
    ensures sentKey == map[itemType + "_id" := id]
  {
    var params := new ItemParams(id, Some(itemType), None);
    var item := new Item(params, fields);
    var _ := item.Populate(map[itemType + "_id" := newId]);
    held := item.data[itemType + "_id"];
    var _ := item.Delete(reply);
    sentKey := item.db.calls[0].key;
  }
}
