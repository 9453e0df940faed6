/** `Request`: an `Item` of type `request`. Its constructor writes the key
    and type into the caller's own argument object before building the item. */
module Requests {
  import opened Values
  import IdLists
  import Items

  const FieldList: seq<string> := [
    "request_id", "user_primary_id", "request_type", "request_sub_type", "request_status",
    "pickup_location", "pickup_location_type", "pickup_location_library", "material_type",
    "comment", "place_in_queue", "request_date", "barcode", "mms_id", "title", "author",
    "description", "resource_sharing", "process_status"
  ]

  function Fields(): set<string> {
    set f | f in FieldList
  }

  /** Nineteen distinct names; neither expiry attribute is among them, so
      populate can never set the cache stamp or the domain expiry. */
  lemma FieldListFacts()
    ensures |FieldList| == 19
    ensures IdLists.NoDuplicates(FieldList)
    ensures "request_id" in Fields()
    ensures "expiry_date" !in Fields() && "record_expiry_date" !in Fields()
  {
    assert FieldList[0] == "request_id";
    assert forall i, j :: 0 <= i < j < |FieldList| ==> FieldList[i] != FieldList[j];
  }

  /** `new Request(params)`. */
  method NewRequest(params: Items.ItemParams, fields: set<string>) returns (item: Items.Item)
    modifies params
    ensures params.key == Some("request_id") && params.itemType == Some("request")
    ensures params.id == old(params.id)
    ensures fresh(item) && fresh(item.db) && item.db.calls == []
    ensures item.itemType == Some("request") && item.id == params.id && item.fields == fields
    ensures item.Key() == "request_id"
    ensures item.data == map["request_id" := params.id]
    ensures item.Valid()
  {
    params.key := Some("request_id");
    params.itemType := Some("request");
    item := new Items.Item(params, fields);
  }

  /** `addExpiryDate()` with no field name looks up `data[undefined]`, which
      a fresh request does not have, so no stamp is written. */
  method UnnamedStampScenario(id: Value, fields: set<string>) returns (data: Record)
    ensures data == map["request_id" := id]
    ensures "expiry_date" !in data
  {
    var params := new Items.ItemParams(id, None, None);
    var item := NewRequest(params, fields);
    var stamped := item.AddExpiryDate("undefined");
    data := stamped.data;
  }
}
