/** Turning a raw change event into the payload sent to the sinks
    (the insert/update and delete branches of lambda_handler). */
module ChangeEvents {
  import opened Wrappers
  import opened Bson
  import opened Settings

  /** A raw change event. `fullDocument` is None when the event carries a null
      document (an update looked up after the document was deleted);
      `clusterTime` is the seconds part of the cluster timestamp. */
  datatype ChangeEvent = ChangeEvent(
    operationType: string,
    fullDocument: Option<Doc>,
    documentKey: Doc,
    clusterTime: nat)

  /** What an event becomes. `body` is the document given to the search index,
      `payload` what the batch file, Kinesis, MSK and SNS receive. */
  datatype Normalized =
    | Upsert(id: string, body: Doc, payload: Doc)
    | Removal(id: string, payload: Doc)
    | Ignored  // any other operation type: counted, delivered nowhere

  const ID_KEY: string := "_id"
  const STAMP_KEYS: set<string> := {"operation", "timestamp", "timestampReadable"}

  predicate IsUpsertOp(op: string)
  {
    op == "insert" || op == "update"
  }

  /** The three fields merged into every payload. The timestamp is the decimal
      text of the cluster time; `iso` stands for datetime.fromtimestamp(..).isoformat(). */
  function Stamp(op: string, time: nat, iso: nat -> string): (m: Doc)
    ensures m.Keys == STAMP_KEYS
  {
    map["operation" := Str(op), "timestamp" := Str(NatString(time)), "timestampReadable" := Str(iso(time))]
  }

  /** str(doc.pop("_id", None)): the missing id prints as "None". */
  function DocId(doc: Doc): (id: string)
    ensures ID_KEY !in doc ==> id == "None"
    ensures ID_KEY in doc && doc[ID_KEY].Str? ==> id == doc[ID_KEY].s
  {
    PyStr(if ID_KEY in doc then doc[ID_KEY] else Null)
  }

  /** The document without its id, with the stamp fields merged over it. */
  function Body(op: string, doc: Doc, time: nat, iso: nat -> string): (b: Doc)
    ensures b.Keys == (doc.Keys - {ID_KEY}) + STAMP_KEYS
  {
    (doc - {ID_KEY}) + Stamp(op, time, iso)
  }

  /** {'_id': id} updated with the rest of the fields. */
  function WithId(id: string, fields: Doc): (p: Doc)
    ensures p.Keys == fields.Keys + {ID_KEY}
    ensures ID_KEY !in fields ==> p[ID_KEY] == Str(id)
  {
    map[ID_KEY := Str(id)] + fields
  }

  /** An event that makes the handler raise before any sink is reached. */
  predicate Malformed(ev: ChangeEvent)
  {
    || (IsUpsertOp(ev.operationType) && ev.fullDocument.None?)
    || (ev.operationType == "delete" && ID_KEY !in ev.documentKey)
  }

  function Normalize(ev: ChangeEvent, iso: nat -> string): (r: Result<Normalized, Error>)
    ensures r.Err? <==> Malformed(ev)
    ensures r.Err? ==> r.error == (if IsUpsertOp(ev.operationType) then AttributeError else KeyError)
    ensures r == Ok(Ignored) <==> !IsUpsertOp(ev.operationType) && ev.operationType != "delete"
    ensures r.Ok? && r.value.Upsert? ==> IsUpsertOp(ev.operationType)
    ensures r.Ok? && r.value.Removal? ==> ev.operationType == "delete"
  {
    if IsUpsertOp(ev.operationType) then
      match ev.fullDocument
      case None => Err(AttributeError)
      case Some(doc) =>
        var id := DocId(doc);
        var body := Body(ev.operationType, doc, ev.clusterTime, iso);
        Ok(Upsert(id, body, WithId(id, body)))
    else if ev.operationType == "delete" then
      if ID_KEY in ev.documentKey then
        var id := PyStr(ev.documentKey[ID_KEY]);
        Ok(Removal(id, WithId(id, Stamp(ev.operationType, ev.clusterTime, iso))))
      else Err(KeyError)
    else Ok(Ignored)
  }

  /** An insert/update payload: the top-level `_id` is the str() of the document's
      id; every other document field is carried unchanged except the three stamp
      fields, which override same-named document fields; the index body is the
      payload without `_id`. */
  lemma UpsertShape(op: string, doc: Doc, time: nat, iso: nat -> string)
    requires IsUpsertOp(op)
    ensures var ev := ChangeEvent(op, Some(doc), map[], time);
      && Normalize(ev, iso).Ok? && Normalize(ev, iso).value.Upsert?
      && var n := Normalize(ev, iso).value;
      && n.id == DocId(doc)
      && n.payload.Keys == doc.Keys + {ID_KEY} + STAMP_KEYS
      && n.payload[ID_KEY] == Str(DocId(doc))
      && ID_KEY !in n.body
      && n.body == n.payload - {ID_KEY}
      && n.payload["operation"] == Str(op)
      && n.payload["timestamp"] == Str(NatString(time))
      && n.payload["timestampReadable"] == Str(iso(time))
      && forall k :: k in doc && k != ID_KEY && k !in STAMP_KEYS ==> n.payload[k] == doc[k]
  {
    BodyShape(op, doc, time, iso);
    WithIdShape(DocId(doc), Body(op, doc, time, iso));
  }

  /** The index body: the document's fields but `_id`, with the stamp fields over them. */
  lemma BodyShape(op: string, doc: Doc, time: nat, iso: nat -> string)
    ensures var b := Body(op, doc, time, iso);
      && b.Keys == (doc.Keys - {ID_KEY}) + STAMP_KEYS
      && b["operation"] == Str(op)
      && b["timestamp"] == Str(NatString(time))
      && b["timestampReadable"] == Str(iso(time))
      && forall k :: k in doc && k != ID_KEY && k !in STAMP_KEYS ==> b[k] == doc[k]
  {
  }

  /** Putting `_id` in front of fields that lack it, and taking it off again. */
  lemma WithIdShape(id: string, fields: Doc)
    requires ID_KEY !in fields
    ensures var p := WithId(id, fields);
      && p.Keys == fields.Keys + {ID_KEY}
      && p[ID_KEY] == Str(id)
      && p - {ID_KEY} == fields
      && forall k :: k in fields ==> p[k] == fields[k]
  {
    var p := WithId(id, fields);
    assert (p - {ID_KEY}).Keys == fields.Keys;
  }

  /** A delete payload has exactly the keys `_id`, operation, timestamp and
      timestampReadable: no document field reaches it. */
  lemma RemovalShape(key: Doc, time: nat, iso: nat -> string)
    requires ID_KEY in key
    ensures var ev := ChangeEvent("delete", None, key, time);
      && Normalize(ev, iso).Ok? && Normalize(ev, iso).value.Removal?
      && var n := Normalize(ev, iso).value;
      && n.id == PyStr(key[ID_KEY])
      && n.payload.Keys == {ID_KEY} + STAMP_KEYS
      && n.payload == WithId(n.id, Stamp("delete", time, iso))
  {
  }

  /** Recovers a document from an insert/update payload. */
  function Restore(payload: Doc): Doc
  {
    payload - STAMP_KEYS
  }

  /** Normalising loses nothing but the three stamp fields: a document whose id
      is a string and that has no field named like a stamp field comes back
      from its payload unchanged. */
  lemma UpsertRoundTrip(op: string, doc: Doc, time: nat, iso: nat -> string)
    requires IsUpsertOp(op)
    requires ID_KEY in doc && doc[ID_KEY].Str?
    requires doc.Keys !! STAMP_KEYS
    ensures var r := Normalize(ChangeEvent(op, Some(doc), map[], time), iso);
      r.Ok? && r.value.Upsert? && Restore(r.value.payload) == doc
  {
    var r := Normalize(ChangeEvent(op, Some(doc), map[], time), iso);
    var p := r.value.payload;
    assert p == WithId(DocId(doc), Body(op, doc, time, iso));
    assert Restore(p).Keys == doc.Keys;
    forall k | k in doc ensures Restore(p)[k] == doc[k] {
      if k == ID_KEY {
        assert doc[k] == Str(doc[k].s);
      }
    }
  }
}
