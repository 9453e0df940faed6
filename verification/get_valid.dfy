/** The `getValid` gate every schema installs: fetch a record and hand it
    back only while its `expiry_date` has not passed. Expiry is filtering at
    read time; the gate never deletes or changes the record. */
module ValidityGate {
  import opened Values

  /** The store lookup a schema's `get` performs: a record, no record, or the
      store's error. */
  type Getter = Value -> Result<Option<Record>>

  const ExpiryField: string := "expiry_date"

  /** A record is live at `now` when its stamp is a number no smaller than
      `now`. A missing or non-numeric stamp is never live. */
  predicate Live(rec: Record, field: string, now: int) {
    field in rec && rec[field].Num? && rec[field].n >= now
  }

  /** The gate, over any stamp field. */
  function GetValidBy(get: Getter, id: Value, now: int, field: string): (r: Result<Option<Record>>)
    ensures get(id).Err? ==> r == get(id)
    ensures get(id) == Ok(None) ==> r == Ok(None)
    ensures get(id).Ok? && get(id).value.Some? ==>
      (Live(get(id).value.value, field, now) ==> r == get(id)) &&
      (!Live(get(id).value.value, field, now) ==> r == Ok(None))
  {
    match get(id)
    case Err(e) => Err(e)
    case Ok(None) => Ok(None)
    case Ok(Some(rec)) => if Live(rec, field, now) then Ok(Some(rec)) else Ok(None)
  }

  /** `getValid(ID)`: the record itself while `expiry_date >= now`, null
      otherwise; a store error is passed on. */
  function GetValid(get: Getter, id: Value, now: int): (r: Result<Option<Record>>)
    ensures r.Ok? && r.value.Some? ==> r == get(id) && Live(r.value.value, ExpiryField, now)
    ensures get(id).Ok? && get(id).value.Some? && Live(get(id).value.value, ExpiryField, now) ==> r == get(id)
    ensures get(id).Ok? && (get(id).value.None? || !Live(get(id).value.value, ExpiryField, now)) ==> r == Ok(None)
    ensures get(id).Err? ==> r == get(id)
  {
    GetValidBy(get, id, now, ExpiryField)
  }

  /** A record stamped exactly `now` still counts as valid. */
  lemma BoundaryIsValid(get: Getter, id: Value, rec: Record, now: int)
    requires get(id) == Ok(Some(rec)) && ExpiryField in rec && rec[ExpiryField] == Num(now)
    ensures GetValid(get, id, now) == Ok(Some(rec))
  {
  }

  /** Validity only runs out: a record returned at time `t` is returned at
      every earlier time, and a record refused at `t` is refused later. */
  lemma ValidEarlier(get: Getter, id: Value, t: int, earlier: int)
    requires earlier <= t
    ensures GetValid(get, id, t).Ok? && GetValid(get, id, t).value.Some? ==>
      GetValid(get, id, earlier) == GetValid(get, id, t)
  {
  }
}
