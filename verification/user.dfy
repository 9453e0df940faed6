/** The older `User` cache object: id lists loaded from the store, and a
    `saveable` flag that blocks saving until a load has succeeded. */
module Users {
  import opened Values
  import Store
  import IdLists

  /** What the store's user lookup resolves to. */
  datatype UserData = UserData(loanIds: seq<Value>, requestIds: seq<Value>)

  const NotSaveable: Failure := CacheError("Record is not saveable")

  class User {
    const userId: Value
    const db: Store.Db
    var loanIds: seq<Value>
    var requestIds: seq<Value>
    var saveable: bool

    /** A user is saveable only after its own record has been fetched. */
    ghost predicate Valid()
      reads this, db
    {
      saveable ==> Store.Fetch(userId) in db.calls
    }

    /** The record `save` hands to the store. */
    function Snapshot(): Record
      reads this
    {
      map["user_id" := userId, "loan_ids" := List(loanIds), "request_ids" := List(requestIds)]
    }

    constructor (userId: Value, userCacheTable: string)
      ensures this.userId == userId
      ensures loanIds == [] && requestIds == [] && !saveable
      ensures fresh(db) && db.calls == []
      ensures Valid()
    {
      this.userId := userId;
      loanIds := [];
      requestIds := [];
      saveable := false;
      db := new Store.Db();
    }

    /** Loads both id lists from the store; success makes the user saveable,
        failure rejects with the store's error and changes nothing. */
    method GetData(reply: Result<UserData>) returns (r: Result<User>)
      modifies this, db
      ensures db.calls == old(db.calls) + [Store.Fetch(userId)]
      ensures reply.Ok? ==>
        r == Ok(this) && saveable && loanIds == reply.value.loanIds && requestIds == reply.value.requestIds
      ensures reply.Err? ==>
        r == Err(reply.error) && saveable == old(saveable) && loanIds == old(loanIds) && requestIds == old(requestIds)
      ensures old(Valid()) ==> Valid()
    {
      var fetched := db.Get(userId, reply);
      if fetched.Ok? {
        loanIds := fetched.value.loanIds;
        requestIds := fetched.value.requestIds;
        saveable := true;
        r := Ok(this);
      } else {
        r := Err(fetched.error);
      }
    }

    /** Saves `{ user_id, loan_ids, request_ids }` when saveable; otherwise
        rejects with `CacheError('Record is not saveable')` and makes no call. */
    method Save(reply: Result<Value>) returns (r: Result<Value>)
      modifies db
      ensures saveable ==> r == reply && db.calls == old(db.calls) + [Store.Put(Snapshot())]
      ensures !saveable ==> r == Err(NotSaveable) && db.calls == old(db.calls)
    {
      if saveable {
        r := db.Save(Snapshot(), reply);
      } else {
        r := Err(NotSaveable);
      }
    }

    method AddLoan(loanId: Value) returns (self: User)
      modifies this
      ensures self == this
      ensures loanIds == IdLists.Add(old(loanIds), loanId)
      ensures requestIds == old(requestIds) && saveable == old(saveable)
    {
      loanIds := IdLists.Add(loanIds, loanId);
      self := this;
    }

    /** Has an empty body in the source: nothing changes. */
    method AddRequest(requestId: Value)
      ensures unchanged(this, db)
    {
    }
  }

  /** A fresh user cannot be saved: the store sees no write. */
  method SaveBeforeLoad(userId: Value, reply: Result<Value>) returns (r: Result<Value>, calls: seq<Store.Call>)
    ensures r == Err(NotSaveable)
    ensures calls == []
  {
    var user := new User(userId, "UserCacheTable");
    r := user.Save(reply);
    calls := user.db.calls;
  }

  /** After a successful load the write carries the loaded lists. */
  method SaveAfterLoad(userId: Value, loaded: UserData, reply: Result<Value>) returns (r: Result<Value>, calls: seq<Store.Call>)
    ensures r == reply
    ensures calls == [Store.Fetch(userId),
      Store.Put(map["user_id" := userId, "loan_ids" := List(loaded.loanIds), "request_ids" := List(loaded.requestIds)])]
  {
    var user := new User(userId, "UserCacheTable");
    var _ := user.GetData(Ok(loaded));
    r := user.Save(reply);
    calls := user.db.calls;
  }
}
