/** The user record schema: a lower-cased primary id, three association
    lists with set semantics, a two-hour expiry default, and hydration of
    the lists into records through chunked `batchGet` calls. */
module UserSchema {
  import opened Values
  import Documents
  import Expiry
  import IdLists
  import ValidityGate

  const Declared: Documents.Schema := Documents.Schema(
    {"primary_id", "loan_ids", "request_ids", "fee_ids", "expiry_date"},
    {"primary_id"},
    "expiry_date")

  const ExpiryOffset: Expiry.Offset := Expiry.Offset(2, Expiry.Hours)

  /** The store's maximum number of keys in one batch read. */
  const BatchGetLimit: nat := 25

  /** A model's `batchGet`: the records for a list of key objects, or the
      store's error. */
  type BatchGetter = seq<Record> -> Result<seq<Record>>

  function DefaultExpiry(now: int): int {
    Expiry.OffsetExpiry(now, ExpiryOffset)
  }

  /** `statics.getValid`: the shared gate, so a user is returned exactly while
      its `expiry_date` is a number no smaller than `now`. */
  function GetValid(get: ValidityGate.Getter, id: Value, now: int): (r: Result<Option<Record>>)
    ensures r.Ok? && r.value.Some? ==> r == get(id) && ValidityGate.Live(r.value.value, "expiry_date", now)
    ensures get(id).Ok? && get(id).value.Some? && ValidityGate.Live(get(id).value.value, "expiry_date", now) ==>
      r == get(id)
    ensures get(id).Ok? && (get(id).value.None? || !ValidityGate.Live(get(id).value.value, "expiry_date", now)) ==>
      r == Ok(None)
    ensures get(id).Err? ==> r == get(id)
  {
    ValidityGate.GetValid(get, id, now)
  }

  // ---------------------------------------------------------------------
  // Chunking

  function Flatten<T>(chunks: seq<seq<T>>): seq<T> {
    if chunks == [] then [] else chunks[0] + Flatten(chunks[1..])
  }

  lemma {:induction false} FlattenAppend<T>(a: seq<seq<T>>, b: seq<seq<T>>)
    ensures Flatten(a + b) == Flatten(a) + Flatten(b)
    decreases |a|
  {
    if a == [] {
      assert a + b == b;
    } else {
      assert (a + b)[1..] == a[1..] + b;
      FlattenAppend(a[1..], b);
    }
  }

  /** `_chunk(xs, 25)`: consecutive pieces of at most 25 ids, only the last
      one shorter, which put back together give `xs`. */
  function Chunks<T>(xs: seq<T>): (r: seq<seq<T>>)
    ensures Flatten(r) == xs
    ensures forall i :: 0 <= i < |r| ==> 0 < |r[i]| <= BatchGetLimit
    ensures forall i :: 0 <= i < |r| - 1 ==> |r[i]| == BatchGetLimit
    ensures |r| == (|xs| + BatchGetLimit - 1) / BatchGetLimit
    decreases |xs|
  {
    if |xs| == 0 then []
    else if |xs| <= BatchGetLimit then
      assert Flatten([xs]) == xs + Flatten([]);
      [xs]
    else
      var rest := Chunks(xs[BatchGetLimit..]);
      assert ([xs[..BatchGetLimit]] + rest)[1..] == rest;
      assert xs == xs[..BatchGetLimit] + xs[BatchGetLimit..];
      [xs[..BatchGetLimit]] + rest
  }

  /** `batch.map(id => ({ [tableKey]: id }))`. */
  function KeyObjects(ids: seq<Value>, tableKey: string): seq<Record> {
    seq(|ids|, i requires 0 <= i < |ids| => map[tableKey := ids[i]])
  }

  /** The key lists of the `batchGet` calls, one per chunk, in chunk order.
      Together they ask, in order, for exactly one key object per id: nothing
      dropped, nothing repeated; `ceil(n / 25)` calls of at most 25 keys. */
  function KeyBatches(ids: seq<Value>, tableKey: string): (r: seq<seq<Record>>)
    ensures Flatten(r) == KeyObjects(ids, tableKey)
    ensures |r| == (|ids| + 24) / 25
    ensures forall i :: 0 <= i < |r| ==> 0 < |r[i]| <= 25
  {
    var chunks := Chunks(ids);
    FlattenKeyObjects(chunks, tableKey);
    seq(|chunks|, i requires 0 <= i < |chunks| => KeyObjects(chunks[i], tableKey))
  }

  lemma {:induction false} FlattenKeyObjects(chunks: seq<seq<Value>>, tableKey: string)
    ensures Flatten(seq(|chunks|, i requires 0 <= i < |chunks| => KeyObjects(chunks[i], tableKey)))
         == KeyObjects(Flatten(chunks), tableKey)
    decreases |chunks|
  {
    var mapped := seq(|chunks|, i requires 0 <= i < |chunks| => KeyObjects(chunks[i], tableKey));
    if chunks != [] {
      var tail := chunks[1..];
      FlattenKeyObjects(tail, tableKey);
      assert mapped[1..] == seq(|tail|, i requires 0 <= i < |tail| => KeyObjects(tail[i], tableKey));
      assert KeyObjects(chunks[0] + Flatten(tail), tableKey)
          == KeyObjects(chunks[0], tableKey) + KeyObjects(Flatten(tail), tableKey);
    }
  }

  /** No ids, no calls; thirty ids, two calls of 25 and 5 keys. */
  lemma CallCountExamples(ids: seq<Value>, tableKey: string)
    ensures |ids| == 0 ==> KeyBatches(ids, tableKey) == []
    ensures |ids| == 30 ==>
      |KeyBatches(ids, tableKey)| == 2 && |KeyBatches(ids, tableKey)[0]| == 25 && |KeyBatches(ids, tableKey)[1]| == 5
  {
    if |ids| == 30 {
      var c := Chunks(ids);
      assert |c| == 2;
      assert Flatten(c) == c[0] + (c[1] + Flatten(c[2..]));
      assert c[2..] == [];
    }
  }

  /** Three ids fit one call, with the key objects in id order. */
  lemma SingleBatchExample(a: Value, b: Value, c: Value)
    ensures KeyBatches([a, b, c], "loan_id") == [[map["loan_id" := a], map["loan_id" := b], map["loan_id" := c]]]
  {
    assert Chunks([a, b, c]) == [[a, b, c]];
    var keys := KeyObjects([a, b, c], "loan_id");
    assert keys[0] == map["loan_id" := a] && keys[1] == map["loan_id" := b] && keys[2] == map["loan_id" := c];
    assert keys == [map["loan_id" := a], map["loan_id" := b], map["loan_id" := c]];
  }

  // ---------------------------------------------------------------------
  // Gathering the responses

  /** The outcome of issuing `requests` in order: every response appended,
      or the first error met. An error is that of the first failing call. */
  function Gather(batchGet: BatchGetter, requests: seq<seq<Record>>): (r: Result<seq<Record>>)
    ensures r.Ok? ==> forall i :: 0 <= i < |requests| ==> batchGet(requests[i]).Ok?
    ensures r.Err? ==>
      exists i :: 0 <= i < |requests| && batchGet(requests[i]) == Err(r.error) && (forall j :: 0 <= j < i ==> batchGet(requests[j]).Ok?)
    decreases |requests|
  {
    if requests == [] then Ok([])
    else
      var init := requests[..|requests| - 1];
      var before := Gather(batchGet, init);
      var last := batchGet(requests[|requests| - 1]);
      assert forall j :: 0 <= j < |init| ==> init[j] == requests[j];
      if before.Err? then before
      else if last.Err? then Err(last.error)
      else Ok(before.value + last.value)
  }

  /** The responses of the calls, each taken as empty if it failed. */
  function Responses(batchGet: BatchGetter, requests: seq<seq<Record>>): seq<seq<Record>> {
    seq(|requests|, i requires 0 <= i < |requests| =>
      if batchGet(requests[i]).Ok? then batchGet(requests[i]).value else [])
  }

  /** Hydration succeeds exactly when every call succeeds, and then yields
      all responses concatenated in call order. */
  lemma {:induction false} GatherSucceeds(batchGet: BatchGetter, requests: seq<seq<Record>>)
    ensures Gather(batchGet, requests).Ok? <==> forall i :: 0 <= i < |requests| ==> batchGet(requests[i]).Ok?
    ensures Gather(batchGet, requests).Ok? ==> Gather(batchGet, requests).value == Flatten(Responses(batchGet, requests))
    decreases |requests|
  {
    if requests != [] {
      var n := |requests|;
      var init := requests[..n - 1];
      GatherSucceeds(batchGet, init);
      var rs := Responses(batchGet, requests);
      assert Responses(batchGet, init) == rs[..n - 1];
      assert rs == rs[..n - 1] + [rs[n - 1]];
      FlattenAppend(rs[..n - 1], [rs[n - 1]]);
      assert Flatten([rs[n - 1]]) == rs[n - 1] + Flatten([]);
      if forall i :: 0 <= i < n - 1 ==> batchGet(init[i]).Ok? {
      } else {
        var i :| 0 <= i < n - 1 && !batchGet(init[i]).Ok?;
        assert init[i] == requests[i];
      }
    }
  }

  /** `populateArrayFromModel(model, sourceKeys, modelTableKey)`, with the
      chunk calls issued one after another. Returns the key lists passed to
      `batchGet`, in call order, and the gathered records or the error. */
  method PopulateArrayFromModel(batchGet: BatchGetter, sourceKeys: seq<Value>, modelTableKey: string)
    returns (issued: seq<seq<Record>>, result: Result<seq<Record>>)
    ensures issued == KeyBatches(sourceKeys, modelTableKey)
    ensures result == Gather(batchGet, issued)
  {
    var batches := Chunks(sourceKeys);
    issued := [];
    var retrieved: seq<Record> := [];
    var failure: Option<Failure> := None;
    var i := 0;
    while i < |batches|
      invariant 0 <= i <= |batches|
      invariant issued == KeyBatches(sourceKeys, modelTableKey)[..i]
      invariant Gather(batchGet, issued) == if failure.None? then Ok(retrieved) else Err(failure.value)
    {
      var keys := KeyObjects(batches[i], modelTableKey);
      assert KeyBatches(sourceKeys, modelTableKey)[..i + 1] == issued + [keys];
      issued := issued + [keys];
      assert issued[..|issued| - 1] == issued[..i];
      var response := batchGet(keys);
      if failure.None? {
        if response.Err? {
          failure := Some(response.error);
        } else {
          retrieved := retrieved + response.value;
        }
      }
      i := i + 1;
    }
    assert issued == KeyBatches(sourceKeys, modelTableKey);
    result := if failure.None? then Ok(retrieved) else Err(failure.value);
  }

  // ---------------------------------------------------------------------
  // The user document

  /** Which association list an operation works on. */
  datatype ListField = LoanIds | RequestIds | FeeIds

  class UserDocument {
    var primaryId: string
    var loanIds: seq<Value>
    var requestIds: seq<Value>
    var feeIds: seq<Value>
    var expiryDate: Option<int>
    var loans: Option<seq<Record>>
    var requests: Option<seq<Record>>

    /** A document made from the given attributes. All three lists are
        given: the schema's `[]` defaults for omitted lists are not modelled.
        A document loaded from the store may hold duplicates; it is `Valid`
        exactly when the lists it was given have none. */
    constructor (primaryId: string, loanIds: seq<Value>, requestIds: seq<Value>, feeIds: seq<Value>)
      ensures this.primaryId == primaryId && this.loanIds == loanIds
      ensures this.requestIds == requestIds && this.feeIds == feeIds
      ensures expiryDate == None && loans == None && requests == None
      ensures Valid() <==>
        IdLists.NoDuplicates(loanIds) && IdLists.NoDuplicates(requestIds) && IdLists.NoDuplicates(feeIds)
    {
      this.primaryId := primaryId;
      this.loanIds := loanIds;
      this.requestIds := requestIds;
      this.feeIds := feeIds;
      expiryDate := None;
      loans := None;
      requests := None;
      new;
      assert Ids(LoanIds) == loanIds && Ids(RequestIds) == requestIds && Ids(FeeIds) == feeIds;
    }

    function Ids(field: ListField): seq<Value>
      reads this
    {
      match field
      case LoanIds => loanIds
      case RequestIds => requestIds
      case FeeIds => feeIds
    }

    /** Every association list is free of duplicates. */
    ghost predicate Valid()
      reads this
    {
      forall f: ListField :: IdLists.NoDuplicates(Ids(f))
    }

    /** The attributes the document holds, as a record. */
    function Attributes(): Record
      reads this
    {
      var lists := map["primary_id" := Str(primaryId), "loan_ids" := List(loanIds),
                       "request_ids" := List(requestIds), "fee_ids" := List(feeIds)];
      if expiryDate.Some? then lists["expiry_date" := Num(expiryDate.value)] else lists
    }

    /** The record written to the store at time `now`: the primary id
        lower-cased, the three lists as held, and the document's own stamp or,
        failing that, `now + 2 h`. */
    function Stored(now: int): (r: Record)
      reads this
      ensures r.Keys == {"primary_id", "loan_ids", "request_ids", "fee_ids", "expiry_date"}
      ensures r["primary_id"] == Str(Lower(primaryId)) && IsLowerCase(r["primary_id"].s)
      ensures r["loan_ids"] == List(loanIds) && r["request_ids"] == List(requestIds) && r["fee_ids"] == List(feeIds)
      ensures r["expiry_date"] == Num(if expiryDate.Some? then expiryDate.value else now + 7200)
    {
      LowerIsCanonical(primaryId);
      Documents.Stored(Declared, Attributes(), Some(Num(DefaultExpiry(now))))
    }

    method SetIds(field: ListField, ids: seq<Value>)
      modifies this
      ensures Ids(field) == ids
      ensures forall f :: f != field ==> Ids(f) == old(Ids(f))
      ensures primaryId == old(primaryId) && expiryDate == old(expiryDate)
      ensures loans == old(loans) && requests == old(requests)
    {
      match field
      case LoanIds => loanIds := ids;
      case RequestIds => requestIds := ids;
      case FeeIds => feeIds := ids;
    }

    /** `add(field, value)`: only the named list changes. */
    method Add(field: ListField, value: Value) returns (self: UserDocument)
      modifies this
      ensures self == this
      ensures Ids(field) == IdLists.Add(old(Ids(field)), value)
      ensures forall f :: f != field ==> Ids(f) == old(Ids(f))
      ensures primaryId == old(primaryId) && expiryDate == old(expiryDate)
      ensures loans == old(loans) && requests == old(requests)
      ensures old(Valid()) ==> Valid()
    {
      if Valid() {
        IdLists.AddKeepsNoDuplicates(Ids(field), value);
      }
      SetIds(field, IdLists.Add(Ids(field), value));
      self := this;
    }

    /** `deleteItem(field, value)`: only the named list changes. */
    method DeleteItem(field: ListField, value: Value) returns (self: UserDocument)
      modifies this
      ensures self == this
      ensures Ids(field) == IdLists.Remove(old(Ids(field)), value)
      ensures forall f :: f != field ==> Ids(f) == old(Ids(f))
      ensures primaryId == old(primaryId) && expiryDate == old(expiryDate)
      ensures loans == old(loans) && requests == old(requests)
      ensures old(Valid()) ==> Valid()
    {
      if Valid() {
        IdLists.RemoveKeepsNoDuplicates(Ids(field), value);
      }
      SetIds(field, IdLists.Remove(Ids(field), value));
      self := this;
    }

    method AddLoan(loanId: Value) returns (self: UserDocument)
      modifies this
      ensures self == this
      ensures loanIds == IdLists.Add(old(loanIds), loanId)
      ensures requestIds == old(requestIds) && feeIds == old(feeIds)
      ensures primaryId == old(primaryId) && expiryDate == old(expiryDate)
      ensures loans == old(loans) && requests == old(requests)
      ensures old(Valid()) ==> Valid()
    {
      self := Add(LoanIds, loanId);
      assert Ids(RequestIds) == old(Ids(RequestIds)) && Ids(FeeIds) == old(Ids(FeeIds));
    }

    method AddRequest(requestId: Value) returns (self: UserDocument)
      modifies this
      ensures self == this
      ensures requestIds == IdLists.Add(old(requestIds), requestId)
      ensures loanIds == old(loanIds) && feeIds == old(feeIds)
      ensures primaryId == old(primaryId) && expiryDate == old(expiryDate)
      ensures loans == old(loans) && requests == old(requests)
      ensures old(Valid()) ==> Valid()
    {
      self := Add(RequestIds, requestId);
      assert Ids(LoanIds) == old(Ids(LoanIds)) && Ids(FeeIds) == old(Ids(FeeIds));
    }

    method AddFee(feeId: Value) returns (self: UserDocument)
      modifies this
      ensures self == this
      ensures feeIds == IdLists.Add(old(feeIds), feeId)
      ensures loanIds == old(loanIds) && requestIds == old(requestIds)
      ensures primaryId == old(primaryId) && expiryDate == old(expiryDate)
      ensures loans == old(loans) && requests == old(requests)
      ensures old(Valid()) ==> Valid()
    {
      self := Add(FeeIds, feeId);
      assert Ids(LoanIds) == old(Ids(LoanIds)) && Ids(RequestIds) == old(Ids(RequestIds));
    }

    method DeleteLoan(loanId: Value) returns (self: UserDocument)
      modifies this
      ensures self == this
      ensures loanIds == IdLists.Remove(old(loanIds), loanId)
      ensures requestIds == old(requestIds) && feeIds == old(feeIds)
      ensures primaryId == old(primaryId) && expiryDate == old(expiryDate)
      ensures loans == old(loans) && requests == old(requests)
      ensures old(Valid()) ==> Valid()
    {
      self := DeleteItem(LoanIds, loanId);
      assert Ids(RequestIds) == old(Ids(RequestIds)) && Ids(FeeIds) == old(Ids(FeeIds));
    }

    method DeleteRequest(requestId: Value) returns (self: UserDocument)
      modifies this
      ensures self == this
      ensures requestIds == IdLists.Remove(old(requestIds), requestId)
      ensures loanIds == old(loanIds) && feeIds == old(feeIds)
      ensures primaryId == old(primaryId) && expiryDate == old(expiryDate)
      ensures loans == old(loans) && requests == old(requests)
      ensures old(Valid()) ==> Valid()
    {
      self := DeleteItem(RequestIds, requestId);
      assert Ids(LoanIds) == old(Ids(LoanIds)) && Ids(FeeIds) == old(Ids(FeeIds));
    }

    method DeleteFee(feeId: Value) returns (self: UserDocument)
      modifies this
      ensures self == this
      ensures feeIds == IdLists.Remove(old(feeIds), feeId)
      ensures loanIds == old(loanIds) && requestIds == old(requestIds)
      ensures primaryId == old(primaryId) && expiryDate == old(expiryDate)
      ensures loans == old(loans) && requests == old(requests)
      ensures old(Valid()) ==> Valid()
    {
      self := DeleteItem(FeeIds, feeId);
      assert Ids(LoanIds) == old(Ids(LoanIds)) && Ids(RequestIds) == old(Ids(RequestIds));
    }

    /** `populateLoans(loanModel)`: on success `loans` holds the gathered
        records; on failure the error is passed on and `loans` is kept. */
    method PopulateLoans(batchGet: BatchGetter) returns (issued: seq<seq<Record>>, r: Result<()>)
      modifies this
      ensures issued == KeyBatches(loanIds, "loan_id")
      ensures Gather(batchGet, issued).Ok? ==> r == Ok(()) && loans == Some(Gather(batchGet, issued).value)
      ensures Gather(batchGet, issued).Err? ==> r == Err(Gather(batchGet, issued).error) && loans == old(loans)
      ensures loanIds == old(loanIds) && requestIds == old(requestIds) && feeIds == old(feeIds)
      ensures requests == old(requests)
      ensures primaryId == old(primaryId) && expiryDate == old(expiryDate)
    {
      var result;
      issued, result := PopulateArrayFromModel(batchGet, loanIds, "loan_id");
      if result.Ok? {
        loans := Some(result.value);
        r := Ok(());
      } else {
        r := Err(result.error);
      }
    }

    /** `populateRequests(requestModel)`. */
    method PopulateRequests(batchGet: BatchGetter) returns (issued: seq<seq<Record>>, r: Result<()>)
      modifies this
      ensures issued == KeyBatches(requestIds, "request_id")
      ensures Gather(batchGet, issued).Ok? ==> r == Ok(()) && requests == Some(Gather(batchGet, issued).value)
      ensures Gather(batchGet, issued).Err? ==> r == Err(Gather(batchGet, issued).error) && requests == old(requests)
      ensures loanIds == old(loanIds) && requestIds == old(requestIds) && feeIds == old(feeIds)
      ensures loans == old(loans)
      ensures primaryId == old(primaryId) && expiryDate == old(expiryDate)
    {
      var result;
      issued, result := PopulateArrayFromModel(batchGet, requestIds, "request_id");
      if result.Ok? {
        requests := Some(result.value);
        r := Ok(());
      } else {
        r := Err(result.error);
      }
    }
  }
}
