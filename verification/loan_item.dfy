/** `LoanItem`: an `Item` of type `loan` with its own field list. */
module LoanItems {
  import opened Values
  import Items
  import Projection
  import IdLists

  const FieldList: seq<string> := [
    "loan_id", "user_id", "renewable", "call_number", "loan_status", "due_date",
    "item_barcode", "mms_id", "title", "author", "description", "publication_year",
    "process_status"
  ]

  function Fields(): set<string> {
    set f | f in FieldList
  }

  /** The list has thirteen distinct names and whitelists the identity key. */
  lemma FieldListFacts()
    ensures |FieldList| == 13 && IdLists.NoDuplicates(FieldList)
    ensures "loan_id" in Fields() && "due_date" in Fields()
    ensures "expiry_date" !in Fields()
  {
    assert FieldList[0] == "loan_id" && FieldList[5] == "due_date";
  }

  /** `new LoanItem(loanID, loanCacheTable, region)`: builds the parameter
      object `{ id, key: 'loan_id', type: 'loan', ... }` and constructs the
      item from it. The whitelist is a parameter (see `Items.Item.fields`). */
  method NewLoanItem(loanID: Value, fields: set<string>) returns (item: Items.Item)
    ensures fresh(item) && fresh(item.db)
    ensures item.itemType == Some("loan") && item.id == loanID && item.fields == fields
    ensures item.Key() == "loan_id"
    ensures item.data == map["loan_id" := loanID]
    ensures item.db.calls == [] && item.Valid()
  {
    var params := new Items.ItemParams(loanID, Some("loan"), Some("loan_id"));
    item := new Items.Item(params, fields);
  }

  /** The chained calls `populate({due_date}).addExpiryDate('due_date')`
      stamp 1519395006 when the whitelist is the loan list; without a due
      date there is no stamp. */
  method StampScenario(loanID: Value) returns (stamped: Record, unstamped: Record)
    ensures "expiry_date" in stamped && stamped["expiry_date"] == Num(1519395006)
    ensures "expiry_date" !in unstamped
    ensures unstamped == map["loan_id" := loanID]
  {
    FieldListFacts();
    var a := NewLoanItem(loanID, Fields());
    var a1 := a.Populate(map["due_date" := Str("2018-02-23T14:10:06Z")]);
    var a2 := a1.AddExpiryDate("due_date");
    Projection.StampFromPopulatedDueDate(map["loan_id" := loanID], Fields());
    stamped := a2.data;
    var b := NewLoanItem(loanID, Fields());
    var b1 := b.AddExpiryDate("due_date");
    unstamped := b1.data;
  }
}
