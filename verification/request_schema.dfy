/** The request record schema: a lower-cased user id, a `record_expiry_date`
    stamp of the cache's own (the `expiry_date` attribute is the request's
    expiry in the library system, a date string), and a validity gate. */
module RequestSchema {
  import opened Values
  import Documents
  import ValidityGate

  const RecordExpiryField: string := "record_expiry_date"

  const Declared: Documents.Schema := Documents.Schema(
    {"request_id", "user_primary_id", "request_type", "request_sub_type", "request_status",
     "pickup_location", "pickup_location_type", "pickup_location_library", "material_type",
     "comment", "place_in_queue", "request_date", "expiry_date", "barcode", "mms_id", "title",
     "author", "description", "resource_sharing", "process_status", RecordExpiryField},
    {"user_primary_id"},
    RecordExpiryField)

  /** The record the store receives for `doc`. The default of
      `record_expiry_date` comes from a helper that is not part of this
      model, so it is a parameter: `None` where it yields nothing. Only
      declared attributes are kept, the user id is lower-cased, and the
      default fills a missing stamp. */
  function StoredRequest(doc: Record, default: Option<Value>): (r: Record)
    ensures r.Keys == doc.Keys * Declared.attributes + (if default.Some? then {RecordExpiryField} else {})
    ensures "user_primary_id" in doc && doc["user_primary_id"].Str? ==>
      r["user_primary_id"] == Str(Lower(doc["user_primary_id"].s))
    ensures forall k :: k in doc && k in Declared.attributes && k != "user_primary_id" ==> r[k] == doc[k]
    ensures RecordExpiryField !in doc && default.Some? ==> r[RecordExpiryField] == default.value
  {
    Documents.Stored(Declared, doc, default)
  }

  /** An attribute the schema does not declare is dropped; with no default
      stamp, as the repository's own test of this case expects, nothing is
      added. */
  lemma UndeclaredDropped(id: Value)
    ensures StoredRequest(map["request_id" := id, "bad_param" := Str("danger")], None) == map["request_id" := id]
  {
    var r := StoredRequest(map["request_id" := id, "bad_param" := Str("danger")], None);
    assert "bad_param" !in r;
  }

  /** A request stored from a document without a cache stamp, given a
      default stamp, is found by the intended gate exactly until that stamp. */
  lemma StampedRequestFoundUntilStamp(get: ValidityGate.Getter, id: Value, doc: Record, stamp: int, now: int)
    requires RecordExpiryField !in doc
    requires get(id) == Ok(Some(StoredRequest(doc, Some(Num(stamp)))))
    ensures now <= stamp ==> GetValid(get, id, now) == get(id)
    ensures now > stamp ==> GetValid(get, id, now) == Ok(None)
  {
  }

  /** `getValid(requestID)` as written: it hands `'record_expiry_date'` to
      the shared gate, which takes one argument and drops the second, so the
      gate reads `expiry_date`. */
  function GetValidAsWritten(get: ValidityGate.Getter, id: Value, now: int): (r: Result<Option<Record>>)
    ensures r.Ok? && r.value.Some? ==> r == get(id) && ValidityGate.Live(r.value.value, "expiry_date", now)
    ensures get(id).Ok? && get(id).value.Some? && ValidityGate.Live(get(id).value.value, "expiry_date", now) ==>
      r == get(id)
    ensures get(id).Ok? && (get(id).value.None? || !ValidityGate.Live(get(id).value.value, "expiry_date", now)) ==>
      r == Ok(None)
    ensures get(id).Err? ==> r == get(id)
  {
    ValidityGate.GetValid(get, id, now)
  }

  /** The evident intent: judge a request by its own cache stamp. */
  function GetValid(get: ValidityGate.Getter, id: Value, now: int): (r: Result<Option<Record>>)
    ensures r.Ok? && r.value.Some? ==> r == get(id) && ValidityGate.Live(r.value.value, RecordExpiryField, now)
    ensures get(id).Ok? && get(id).value.Some? && ValidityGate.Live(get(id).value.value, RecordExpiryField, now) ==>
      r == get(id)
    ensures get(id).Ok? && (get(id).value.None? || !ValidityGate.Live(get(id).value.value, RecordExpiryField, now)) ==>
      r == Ok(None)
    ensures get(id).Err? ==> r == get(id)
  {
    ValidityGate.GetValidBy(get, id, now, RecordExpiryField)
  }

  /** As written, a request whose `expiry_date` is a date string, as the
      schema declares it, is never returned, whatever its cache stamp says;
      the intended gate returns the same record while its stamp is live. */
  lemma StringExpiryHidesLiveRequest(get: ValidityGate.Getter, id: Value, rec: Record, now: int)
    requires get(id) == Ok(Some(rec))
    requires "expiry_date" in rec && rec["expiry_date"].Str?
    requires ValidityGate.Live(rec, RecordExpiryField, now)
    ensures GetValidAsWritten(get, id, now) == Ok(None)
    ensures GetValid(get, id, now) == Ok(Some(rec))
  {
  }

  /** A concrete request that shows it: cache stamp 100, library expiry
      `'a date'`, looked up at time 0. */
  lemma StringExpiryExample(id: Value)
    ensures var rec := map["request_id" := id, "expiry_date" := Str("a date"), RecordExpiryField := Num(100)];
      var get: ValidityGate.Getter := _ => Ok(Some(rec));
      && GetValidAsWritten(get, id, 0) == Ok(None)
      && GetValid(get, id, 0) == Ok(Some(rec))
  {
  }

  /** Under the intended gate a request found live at `t` is found at every
      earlier time too. */
  lemma ValidEarlier(get: ValidityGate.Getter, id: Value, t: int, earlier: int)
    requires earlier <= t
    ensures GetValid(get, id, t).Ok? && GetValid(get, id, t).value.Some? ==> GetValid(get, id, earlier) == GetValid(get, id, t)
  {
  }
}
