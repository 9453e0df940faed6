/** The queued-user schema: a bare id that stays queued for five minutes. */
module QueuedUserSchema {
  import opened Values
  import Documents
  import Expiry
  import ValidityGate

  const Declared: Documents.Schema := Documents.Schema({"primary_id", "expiry_date"}, {}, "expiry_date")

  const ExpiryOffset: Expiry.Offset := Expiry.Offset(5, Expiry.Minutes)

  function DefaultExpiry(now: int): int {
    Expiry.OffsetExpiry(now, ExpiryOffset)
  }

  function StoredQueuedUser(doc: Record, now: int): Record {
    Documents.Stored(Declared, doc, Some(Num(DefaultExpiry(now))))
  }

  /** `statics.getValid`: the shared gate, so a queued user is returned exactly while
      its `expiry_date` is a number no smaller than `now`. */
  function GetValid(get: ValidityGate.Getter, id: Value, now: int): (r: Result<Option<Record>>)
    ensures r.Ok? && r.value.Some? ==> r == get(id) && ValidityGate.Live(r.value.value, "expiry_date", now)
    ensures get(id).Ok? && get(id).value.Some? && ValidityGate.Live(get(id).value.value, "expiry_date", now) ==>
      r == get(id)
    ensures get(id).Ok? && (get(id).value.None? || !ValidityGate.Live(get(id).value.value, "expiry_date", now)) ==>
      r == Ok(None)
    ensures get(id).Err? ==> r == get(id)
  {
    ValidityGate.GetValid(get, id, now)
  }

  /** Stored at `now`, a queued user without a stamp is live until exactly
      `now + 300` and no longer; the stamp does not depend on the document. */
  lemma QueuedUserLifetime(doc: Record, other: Record, now: int)
    requires "expiry_date" !in doc && "expiry_date" !in other
    ensures var r := StoredQueuedUser(doc, now);
      && ValidityGate.Live(r, "expiry_date", now + 300)
      && !ValidityGate.Live(r, "expiry_date", now + 301)
      && r["expiry_date"] == StoredQueuedUser(other, now)["expiry_date"]
  {
  }

  /** A document that brings its own `expiry_date` keeps it: the default
      fills only a missing stamp, so such a user lives by its own stamp. */
  lemma QueuedUserOwnStamp(doc: Record, now: int)
    requires "expiry_date" in doc
    ensures StoredQueuedUser(doc, now)["expiry_date"] == doc["expiry_date"]
  {
  }

  /** The pinned value: a user queued at time 0 expires at 300. */
  lemma StoredQueuedUserExample(id: Value)
    ensures StoredQueuedUser(map["primary_id" := id], 0) == map["primary_id" := id, "expiry_date" := Num(300)]
  {
  }
}
