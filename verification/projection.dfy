/** Field whitelisting and merging (`_pick` then `_merge`) and the
    expiry stamp that every cached record entity shares. */
module Projection {
  import opened Values
  import DateTime

  const ExpiryDate: string := "expiry_date"

  /** `_pick(input, fields)`: the entries of `input` whose key is whitelisted. */
  function Pick(input: Record, fields: set<string>): (r: Record)
    ensures r.Keys == input.Keys * fields
    ensures forall k :: k in r ==> r[k] == input[k]
  {
    map k | k in input && k in fields :: input[k]
  }

  /** `_merge(target, source)` on atomic values: every key of either side,
      the source's value winning where both have one. */
  function Merge(target: Record, source: Record): (r: Record)
    ensures r.Keys == target.Keys + source.Keys
    ensures forall k :: k in source ==> r[k] == source[k]
    ensures forall k :: k in target && k !in source ==> r[k] == target[k]
  {
    target + source
  }

  /** `populate`: whitelisted incoming values replace old ones, and keys the
      input lacks (or may not set) keep their old values. */
  function Populate(data: Record, input: Record, fields: set<string>): (r: Record)
    ensures r.Keys == data.Keys + (input.Keys * fields)
    ensures forall k :: k in input && k in fields ==> r[k] == input[k]
    ensures forall k :: k in data && !(k in input && k in fields) ==> r[k] == data[k]
  {
    Merge(data, Pick(input, fields))
  }

  /** Populate never adds a key outside the field set: whatever bound on the
      keys held before, extended by the field set, still holds. */
  lemma PopulateStaysWithin(data: Record, input: Record, fields: set<string>, fixed: set<string>)
    requires data.Keys <= fields + fixed
    ensures Populate(data, input, fields).Keys <= fields + fixed
  {
  }

  /** With an empty field set populate keeps nothing and changes nothing. */
  lemma PopulateNoFields(data: Record, input: Record)
    ensures Populate(data, input, {}) == data
  {
  }

  /** Two populates in a row are one populate with the second input laid
      over the first: later values win, earlier keys survive. */
  lemma PopulateTwice(data: Record, first: Record, second: Record, fields: set<string>)
    ensures Populate(Populate(data, first, fields), second, fields)
         == Populate(data, Merge(first, second), fields)
  {
  }

  /** Repeating the same populate changes nothing more. */
  lemma PopulateIdempotent(data: Record, input: Record, fields: set<string>)
    ensures Populate(Populate(data, input, fields), input, fields) == Populate(data, input, fields)
  {
  }

  /** `addExpiryDate(field)`: when `data[field]` is truthy, `expiry_date`
      becomes its unix time; otherwise nothing changes. No other key is touched. */
  function AddExpiryDate(data: Record, field: string): (r: Record)
    ensures forall k :: k != ExpiryDate ==> (k in r <==> k in data)
    ensures forall k :: k != ExpiryDate && k in r ==> r[k] == data[k]
    ensures FieldSet(data, field) ==> ExpiryDate in r && r[ExpiryDate] == DateTime.UnixValue(data[field])
    ensures !FieldSet(data, field) ==> r == data
  {
    if FieldSet(data, field) then data[ExpiryDate := DateTime.UnixValue(data[field])] else data
  }

  /** Stamping adds at most `expiry_date`, so any key bound containing it is kept. */
  lemma AddExpiryStaysWithin(data: Record, field: string, allowed: set<string>)
    requires data.Keys <= allowed && ExpiryDate in allowed
    ensures AddExpiryDate(data, field).Keys <= allowed
  {
  }

  /** A populated date-time in the fixed shape stamps its unix seconds; the
      due date of the tests gives 1519395006. */
  lemma StampFromPopulatedDueDate(data: Record, fields: set<string>)
    requires "due_date" in fields
    ensures var r := AddExpiryDate(Populate(data, map["due_date" := Str("2018-02-23T14:10:06Z")], fields), "due_date");
      ExpiryDate in r && r[ExpiryDate] == Num(1519395006)
  {
    DateTime.DueDateInstant();
  }

  /** Without the source field no stamp appears. */
  lemma NoStampWithoutSource(data: Record, field: string)
    requires field !in data && ExpiryDate !in data
    ensures ExpiryDate !in AddExpiryDate(data, field)
  {
  }
}
