/** The fee record schema: fees stay cached for two weeks from the moment
    they are stored. */
module FeeSchema {
  import opened Values
  import Documents
  import ValidityGate

  const Declared: Documents.Schema := Documents.Schema(
    {"id", "user_primary_id", "type", "status", "balance", "remaining_vat_amount", "original_amount",
     "original_vat_amount", "creation_time", "status_time", "comment", "owner", "title", "barcode",
     "bursar_transaction_id", "transactions", "expiry_date"},
    {},
    "expiry_date")

  /** Two weeks, in seconds. */
  const Window: int := 2 * 7 * 24 * 60 * 60

  /** `Math.floor(Date.now() / 1000) + 2 weeks`, with the clock in
      milliseconds passed in. */
  function DefaultExpiry(nowMs: int): int {
    nowMs / 1000 + Window
  }

  function StoredFee(doc: Record, nowMs: int): Record {
    Documents.Stored(Declared, doc, Some(Num(DefaultExpiry(nowMs))))
  }

  /** `statics.getValid`: the shared gate, so a fee is returned exactly while
      its `expiry_date` is a number no smaller than `now`. */
  function GetValid(get: ValidityGate.Getter, id: Value, now: int): (r: Result<Option<Record>>)
    ensures r.Ok? && r.value.Some? ==> r == get(id) && ValidityGate.Live(r.value.value, "expiry_date", now)
    ensures get(id).Ok? && get(id).value.Some? && ValidityGate.Live(get(id).value.value, "expiry_date", now) ==>
      r == get(id)
    ensures get(id).Ok? && (get(id).value.None? || !ValidityGate.Live(get(id).value.value, "expiry_date", now)) ==>
      r == Ok(None)
    ensures get(id).Err? ==> r == get(id)
  {
    ValidityGate.GetValid(get, id, now)
  }

  /** The stamp is two weeks past the current whole second: the floor of
      the clock in seconds, even before the epoch. */
  lemma DefaultExpiryIsFloor(nowMs: int)
    ensures 1000 * (DefaultExpiry(nowMs) - Window) <= nowMs < 1000 * (DefaultExpiry(nowMs) - Window + 1)
  {
  }

  /** A later clock never gives an earlier stamp. */
  lemma DefaultExpiryMonotone(a: int, b: int)
    requires a <= b
    ensures DefaultExpiry(a) <= DefaultExpiry(b)
  {
  }

  /** The pinned values: at 1000000 ms and at 0 ms. */
  lemma DefaultExpiryExamples()
    ensures DefaultExpiry(1000000) == 1000 + 1209600
    ensures DefaultExpiry(0) == 1209600
  {
  }

  /** An attribute the schema does not declare is dropped, and the stamp
      filled in. */
  lemma UndeclaredDropped(id: Value)
    ensures StoredFee(map["id" := id, "bad_param" := Str("danger")], 0)
         == map["id" := id, "expiry_date" := Num(1209600)]
  {
    var r := StoredFee(map["id" := id, "bad_param" := Str("danger")], 0);
    assert "bad_param" !in r;
  }
}
