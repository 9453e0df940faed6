/** The loan record schema: every loan expires from the cache when it falls
    due, unless the document already carries its own stamp. */
module LoanSchema {
  import opened Values
  import opened DateTime
  import Documents
  import ValidityGate

  const Declared: Documents.Schema := Documents.Schema(
    {"loan_id", "user_id", "renewable", "call_number", "loan_status", "due_date", "expiry_date",
     "item_barcode", "mms_id", "title", "author", "description", "publication_year", "process_status"},
    {},
    "expiry_date")

  /** `calculateExpiry(dueDate)`: 0 for a missing or falsy due date, else the
      due date read as `YYYY-MM-DDTHH:mm:ssZ`, in unix seconds. */
  function CalculateExpiry(dueDate: Option<Value>): (r: Value)
    ensures dueDate.None? || !Truthy(dueDate.value) ==> r == Num(0)
    ensures dueDate.Some? && dueDate.value.Str? && Parse(dueDate.value.s).Some? ==>
      r == Num(UnixSeconds(Parse(dueDate.value.s).value))
  {
    if dueDate.Some? && Truthy(dueDate.value) then UnixValue(dueDate.value) else Num(0)
  }

  /** The default the schema gives `expiry_date`: the expiry of the
      document's own due date. */
  function DefaultExpiry(doc: Record): Value {
    CalculateExpiry(if "due_date" in doc then Some(doc["due_date"]) else None)
  }

  function StoredLoan(doc: Record): Record {
    Documents.Stored(Declared, doc, Some(DefaultExpiry(doc)))
  }

  /** `statics.getValid`: the shared gate, so a loan is returned exactly while
      its `expiry_date` is a number no smaller than `now`. */
  function GetValid(get: ValidityGate.Getter, id: Value, now: int): (r: Result<Option<Record>>)
    ensures r.Ok? && r.value.Some? ==> r == get(id) && ValidityGate.Live(r.value.value, "expiry_date", now)
    ensures get(id).Ok? && get(id).value.Some? && ValidityGate.Live(get(id).value.value, "expiry_date", now) ==>
      r == get(id)
    ensures get(id).Ok? && (get(id).value.None? || !ValidityGate.Live(get(id).value.value, "expiry_date", now)) ==>
      r == Ok(None)
    ensures get(id).Err? ==> r == get(id)
  {
    ValidityGate.GetValid(get, id, now)
  }

  /** A due date written in the fixed shape expires at exactly that instant. */
  lemma CalculateExpiryOfFormat(t: Stamp)
    requires Valid(t)
    ensures CalculateExpiry(Some(Str(Format(t)))) == Num(UnixSeconds(t))
  {
    ParseFormat(t);
  }

  /** A loan due one calendar day later expires 86400 seconds later. */
  lemma CalculateExpiryNextDay(t: Stamp)
    requires Valid(t) && Valid(NextDay(t))
    ensures CalculateExpiry(Some(Str(Format(NextDay(t))))) == Num(UnixSeconds(t) + 86400)
  {
    var n := NextDay(t);
    assert n.hour == t.hour && n.minute == t.minute && n.second == t.second;
    NextDayIsNextNumber(t);
    assert UnixSeconds(n) == UnixSeconds(t) + 86400;
    CalculateExpiryOfFormat(t);
    CalculateExpiryOfFormat(n);
  }

  /** The three pinned values: the epoch is 0, one second after it is 1,
      and no due date at all is 0. */
  lemma CalculateExpiryExamples()
    ensures CalculateExpiry(Some(Str("1970-01-01T00:00:00Z"))) == Num(0)
    ensures CalculateExpiry(Some(Str("1970-01-01T00:00:01Z"))) == Num(1)
    ensures CalculateExpiry(None) == Num(0)
  {
    EpochInstant();
    EpochPlusOneInstant();
  }

  /** A stored loan keeps its declared attributes, and one without a stamp
      is stamped with the expiry of its due date. */
  lemma StoredLoanStamp(doc: Record)
    requires "expiry_date" !in doc
    ensures var r := StoredLoan(doc);
      && "expiry_date" in r
      && r["expiry_date"] == CalculateExpiry(if "due_date" in doc then Some(doc["due_date"]) else None)
      && (forall k :: k in doc && k in Declared.attributes ==> k in r && r[k] == doc[k])
      && (forall k :: k in r ==> k in doc || k == "expiry_date")
  {
  }

  /** A loan holding only its id and due date is stored with the expiry of
      that due date and nothing else added. */
  lemma StoredLoanWithDueDate(id: Value, dueDate: Value)
    ensures StoredLoan(map["loan_id" := id, "due_date" := dueDate])
         == map["loan_id" := id, "due_date" := dueDate, "expiry_date" := CalculateExpiry(Some(dueDate))]
  {
    var doc := map["loan_id" := id, "due_date" := dueDate];
    assert doc.Keys == {"loan_id", "due_date"};
    DeclaredAttributes();
    Documents.StoredDeclared(Declared, doc, Some(DefaultExpiry(doc)));
  }

  /** A loan due at the epoch is stored already expired: stamp 0. */
  lemma StoredLoanExample(id: Value)
    ensures StoredLoan(map["loan_id" := id, "due_date" := Str("1970-01-01T00:00:00Z")])
         == map["loan_id" := id, "due_date" := Str("1970-01-01T00:00:00Z"), "expiry_date" := Num(0)]
  {
    StoredLoanWithDueDate(id, Str("1970-01-01T00:00:00Z"));
    CalculateExpiryExamples();
  }

  /** A loan stored without a stamp, due at `t`, is found by `getValid`
      exactly until its due instant. */
  lemma LoanValidUntilDue(get: ValidityGate.Getter, id: Value, doc: Record, t: Stamp, now: int)
    requires Valid(t)
    requires "expiry_date" !in doc && "due_date" in doc && doc["due_date"] == Str(Format(t))
    requires get(id) == Ok(Some(StoredLoan(doc)))
    ensures GetValid(get, id, now).Ok?
    ensures GetValid(get, id, now).value.Some? <==> now <= UnixSeconds(t)
  {
    CalculateExpiryOfFormat(t);
    StoredLoanStamp(doc);
  }

  lemma DeclaredAttributes()
    ensures {"loan_id", "due_date"} <= Declared.attributes && Declared.lowercase == {}
    ensures Declared.expiryField == "expiry_date" && "expiry_date" in Declared.attributes
  {
  }
}
