/** What a schema does to a document on its way into the store: only
    declared attributes are kept, attributes flagged `lowercase` are
    lower-cased, and the schema's expiry default fills in a missing stamp. */
module Documents {
  import opened Values

  datatype Schema = Schema(
    attributes: set<string>,
    lowercase: set<string>,
    expiryField: string)

  /** The value a declared attribute is stored with. */
  function Normalise(schema: Schema, name: string, v: Value): Value {
    if name in schema.lowercase && v.Str? then Str(Lower(v.s)) else v
  }

  /** The record the store receives for `doc`, given the default stamp the
      schema computes for it (`None` where that default is not modelled). */
  function Stored(schema: Schema, doc: Record, default: Option<Value>): (r: Record)
    requires schema.expiryField in schema.attributes
    ensures r.Keys <= schema.attributes
    ensures forall k :: k in doc && k in schema.attributes ==> k in r && r[k] == Normalise(schema, k, doc[k])
    ensures forall k :: k in r && k !in doc ==> k == schema.expiryField && default == Some(r[k])
    ensures schema.expiryField !in doc && default.Some? ==>
      schema.expiryField in r && r[schema.expiryField] == default.value
  {
    var kept := map k | k in doc && k in schema.attributes :: Normalise(schema, k, doc[k]);
    if schema.expiryField !in kept && default.Some? then kept[schema.expiryField := default.value] else kept
  }

  /** Storing a document twice stores the same thing: the stored record is
      already declared-only and normalised. */
  lemma StoredIsStable(schema: Schema, doc: Record, default: Option<Value>)
    requires schema.expiryField in schema.attributes && schema.expiryField !in schema.lowercase
    ensures Stored(schema, Stored(schema, doc, default), default) == Stored(schema, doc, default)
  {
    var once := Stored(schema, doc, default);
    forall k | k in once ensures Normalise(schema, k, once[k]) == once[k] {
      if k in schema.lowercase && once[k].Str? {
        LowerIsCanonical(doc[k].s);
      }
    }
  }

  /** A document that already holds only declared, unflagged attributes and
      no stamp is stored as it is, plus the default stamp. */
  lemma StoredDeclared(schema: Schema, doc: Record, default: Option<Value>)
    requires schema.expiryField in schema.attributes && schema.expiryField !in doc
    requires doc.Keys <= schema.attributes && doc.Keys * schema.lowercase == {}
    requires default.Some?
    ensures Stored(schema, doc, default) == doc[schema.expiryField := default.value]
  {
    var kept := map k | k in doc && k in schema.attributes :: Normalise(schema, k, doc[k]);
    forall k | k in doc ensures k !in schema.lowercase {
      assert k !in doc.Keys * schema.lowercase;
    }
    assert kept == doc;
  }
}
