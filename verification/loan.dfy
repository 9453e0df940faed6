/** The older stand-alone `Loan` record: the same lifecycle as `Item`, with
    a module-level whitelist and `due_date` as the default stamp source. */
module Loans {
  import opened Values
  import IdLists
  import Projection
  import Store
  import LoanItems

  const FieldList: seq<string> := [
    "loan_id", "user_id", "renewable", "call_number", "loan_status", "due_date",
    "item_barcode", "mms_id", "title", "author", "description", "publication_year",
    "process_status"
  ]

  function Fields(): set<string> {
    set f | f in FieldList
  }

  lemma FieldListFacts()
    ensures |FieldList| == 13
    ensures IdLists.NoDuplicates(FieldList)
    ensures "loan_id" in Fields() && "due_date" in Fields() && "expiry_date" !in Fields()
  {
    assert FieldList[0] == "loan_id" && FieldList[5] == "due_date";
  }

  class Loan {
    const loanId: Value
    const loanCacheTable: string
    const db: Store.Db
    var loanData: Record

    /** Only listed fields and the stamp are ever held. */
    ghost predicate Valid()
      reads this
    {
      loanData.Keys <= Fields() + {Projection.ExpiryDate}
    }

    constructor (loanId: Value, loanCacheTable: string)
      ensures this.loanId == loanId && this.loanCacheTable == loanCacheTable
      ensures loanData == map["loan_id" := loanId]
      ensures fresh(db) && db.calls == []
      ensures Valid()
    {
      this.loanId := loanId;
      this.loanCacheTable := loanCacheTable;
      db := new Store.Db();
      loanData := map["loan_id" := loanId];
      FieldListFacts();
    }

    /** May replace `loanData.loan_id`; `loanId` and `loanCacheTable` are
        constants and cannot change. */
    method Populate(input: Record) returns (self: Loan)
      modifies this
      ensures self == this
      ensures loanData == Projection.Populate(old(loanData), input, Fields())
      ensures old(Valid()) ==> Valid()
    {
      if Valid() {
        Projection.PopulateStaysWithin(loanData, input, Fields(), {Projection.ExpiryDate});
      }
      loanData := Projection.Populate(loanData, input, Fields());
      self := this;
    }

    method AddExpiryDate(expiryField: string := "due_date") returns (self: Loan)
      modifies this
      ensures self == this
      ensures loanData == Projection.AddExpiryDate(old(loanData), expiryField)
      ensures old(Valid()) ==> Valid()
    {
      loanData := Projection.AddExpiryDate(loanData, expiryField);
      self := this;
    }

    /** `db.saveLoan(loanData)`. */
    method Save(reply: Result<Value>) returns (r: Result<Value>)
      modifies db
      ensures db.calls == old(db.calls) + [Store.Put(loanData)]
      ensures r == reply
    {
      r := db.Save(loanData, reply);
    }
  }

  /** The two loan whitelists in the source name the same thirteen fields. */
  lemma SameFieldsAsLoanItem()
    ensures Fields() == LoanItems.Fields()
  {
    assert FieldList == LoanItems.FieldList;
  }

  /** `new Loan(id, table).populate({due_date}).addExpiryDate()`, chained,
      stamps 1519395006; an unpopulated loan gets no stamp. */
  method StampScenario(loanId: Value, table: string) returns (stamped: Record, unstamped: Record)
    ensures "expiry_date" in stamped && stamped["expiry_date"] == Num(1519395006)
    ensures unstamped == map["loan_id" := loanId]
  {
    FieldListFacts();
    var a := new Loan(loanId, table);
    var a1 := a.Populate(map["due_date" := Str("2018-02-23T14:10:06Z")]);
    var a2 := a1.AddExpiryDate();
    Projection.StampFromPopulatedDueDate(map["loan_id" := loanId], Fields());
    stamped := a2.loanData;
    var b := new Loan(loanId, table);
    var b1 := b.AddExpiryDate();
    unstamped := b1.loanData;
  }
}
