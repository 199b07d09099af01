/** The state collection that holds the resume token between invocations
    (get_last_processed_id and store_last_processed_id). */
module StateStore {
  import opened Wrappers
  import opened Settings

  /** The `lastProcessed` field of a state record: absent (as inserted on
      bootstrap) or present with a token or null. */
  datatype Cursor = Absent | Present(token: Option<Token>)

  datatype StateRecord = StateRecord(
    dbWatched: string,
    collectionWatched: string,
    currentState: bool,
    lastProcessed: Cursor)

  /** The state collection, in its natural (insertion) order. */
  type Table = seq<StateRecord>

  /** find_one({'currentState': True}): the first current record. */
  function FirstCurrent(t: Table): (k: Option<nat>)
    ensures k.Some? ==> k.value < |t| && t[k.value].currentState
    ensures k.Some? ==> forall j :: 0 <= j < k.value ==> !t[j].currentState
    ensures k.None? ==> forall j :: 0 <= j < |t| ==> !t[j].currentState
  {
    if t == [] then None
    else if t[0].currentState then Some(0)
    else match FirstCurrent(t[1..])
      case None => None
      case Some(k) => Some(k + 1)
  }

  predicate Watches(r: StateRecord, db: string, coll: string)
  {
    r.dbWatched == db && r.collectionWatched == coll
  }

  /** The filter of update_one: the first record for (db, coll). */
  function FirstMatch(t: Table, db: string, coll: string): (k: Option<nat>)
    ensures k.Some? ==> k.value < |t| && Watches(t[k.value], db, coll)
    ensures k.Some? ==> forall j :: 0 <= j < k.value ==> !Watches(t[j], db, coll)
    ensures k.None? ==> forall j :: 0 <= j < |t| ==> !Watches(t[j], db, coll)
  {
    if t == [] then None
    else if Watches(t[0], db, coll) then Some(0)
    else match FirstMatch(t[1..], db, coll)
      case None => None
      case Some(k) => Some(k + 1)
  }

  /** The record inserted when the collection has no current record. */
  function Bootstrap(db: string, coll: string): (r: StateRecord)
    ensures r.currentState && Watches(r, db, coll) && r.lastProcessed.Absent?
  {
    StateRecord(db, coll, true, Absent)
  }

  /** get_last_processed_id as the source writes it: `state_doc['lastProcessed']`
      raises KeyError on a current record without that field. Ok carries the
      token read and the collection afterwards. */
  function ReadAsWritten(t: Table, db: string, coll: string, unreachable: bool)
    : (r: Result<(Option<Token>, Table), Error>)
    ensures r == Err(KeyError) <==>
              !unreachable && FirstCurrent(t).Some? && t[FirstCurrent(t).value].lastProcessed.Absent?
    ensures r != Err(KeyError) ==> r == Read(t, db, coll, unreachable)
  {
    if unreachable then Err(StoreFailure)
    else match FirstCurrent(t)
      case None => Ok((None, t + [Bootstrap(db, coll)]))
      case Some(k) =>
        match t[k].lastProcessed
        case Absent => Err(KeyError)
        case Present(c) => Ok((c, t))
  }

  /** The token a current record holds, reading a missing field as null. */
  function CursorValue(c: Cursor): Option<Token>
  {
    match c
    case Absent => None
    case Present(v) => v
  }

  /** get_last_processed_id as evidently intended (and used by the handler):
      a missing `lastProcessed` reads as null, like the record just bootstrapped. */
  function Read(t: Table, db: string, coll: string, unreachable: bool)
    : (r: Result<(Option<Token>, Table), Error>)
    ensures r.Err? <==> unreachable
    ensures r.Ok? ==> FirstCurrent(r.value.1).Some? && StoredCursor(r.value.1) == r.value.0
    ensures r.Ok? ==> r.value.1 == t || (FirstCurrent(t).None? && r.value.1 == t + [Bootstrap(db, coll)])
  {
    if unreachable then Err(StoreFailure)
    else match FirstCurrent(t)
      case None =>
        var u := t + [Bootstrap(db, coll)];
        assert u[|t|].currentState;
        Ok((None, u))
      case Some(k) => Ok((CursorValue(t[k].lastProcessed), t))
  }

  /** update_one({dbWatched, collectionWatched}, {'$set': {'lastProcessed': c}}),
      without upsert: nothing changes when no record matches. */
  function Store(t: Table, db: string, coll: string, c: Option<Token>): (u: Table)
    ensures |u| == |t|
    ensures FirstMatch(t, db, coll).None? ==> u == t
    ensures FirstMatch(t, db, coll).Some? ==> u[FirstMatch(t, db, coll).value].lastProcessed == Present(c)
  {
    match FirstMatch(t, db, coll)
    case None => t
    case Some(k) => t[k := t[k].(lastProcessed := Present(c))]
  }

  /** The token the current record holds (null when there is none). */
  function StoredCursor(t: Table): Option<Token>
  {
    match FirstCurrent(t)
    case None => None
    case Some(k) => CursorValue(t[k].lastProcessed)
  }

  /** Reads and writes address the same record: the first current record is
      the first record for (db, coll). */
  predicate Coherent(t: Table, db: string, coll: string)
  {
    FirstCurrent(t).Some? && FirstCurrent(t) == FirstMatch(t, db, coll)
  }

  /** Two collections that agree on every record's keys and current flag. */
  predicate SameKeys(t: Table, u: Table)
  {
    && |t| == |u|
    && forall j :: 0 <= j < |t| ==>
         t[j].dbWatched == u[j].dbWatched
         && t[j].collectionWatched == u[j].collectionWatched
         && t[j].currentState == u[j].currentState
  }

  lemma {:induction false} SameKeysFind(t: Table, u: Table, db: string, coll: string)
    requires SameKeys(t, u)
    ensures FirstCurrent(t) == FirstCurrent(u)
    ensures FirstMatch(t, db, coll) == FirstMatch(u, db, coll)
  {
    if t != [] {
      assert SameKeys(t[1..], u[1..]) by {
        forall j | 0 <= j < |t[1..]| ensures
          t[1..][j].dbWatched == u[1..][j].dbWatched
          && t[1..][j].collectionWatched == u[1..][j].collectionWatched
          && t[1..][j].currentState == u[1..][j].currentState
        {
          assert t[1..][j] == t[j + 1] && u[1..][j] == u[j + 1];
        }
      }
      SameKeysFind(t[1..], u[1..], db, coll);
    }
  }

  /** store_last_processed_id changes only `lastProcessed`, and only on the first
      record for (db, coll). */
  lemma StoreTouchesOnlyLastProcessed(t: Table, db: string, coll: string, c: Option<Token>)
    ensures var u := Store(t, db, coll, c);
      && SameKeys(t, u)
      && (forall j :: 0 <= j < |t| && FirstMatch(t, db, coll) != Some(j) ==> u[j] == t[j])
      && (FirstMatch(t, db, coll).Some? ==>
            var k := FirstMatch(t, db, coll).value;
            u[k] == t[k].(lastProcessed := Present(c)))
  {
  }

  /** A later store replaces an earlier one. */
  lemma StoreOverwrites(t: Table, db: string, coll: string, c1: Option<Token>, c2: Option<Token>)
    ensures Store(Store(t, db, coll, c1), db, coll, c2) == Store(t, db, coll, c2)
  {
    var u := Store(t, db, coll, c1);
    StoreTouchesOnlyLastProcessed(t, db, coll, c1);
    SameKeysFind(t, u, db, coll);
  }

  /** On a coherent collection a store is what the next read returns, and the
      collection stays coherent. */
  lemma ReadAfterStore(t: Table, db: string, coll: string, c: Option<Token>)
    requires Coherent(t, db, coll)
    ensures var u := Store(t, db, coll, c);
      Coherent(u, db, coll) && StoredCursor(u) == c && Read(u, db, coll, false) == Ok((c, u))
  {
    var u := Store(t, db, coll, c);
    StoreTouchesOnlyLastProcessed(t, db, coll, c);
    SameKeysFind(t, u, db, coll);
  }

  /** Bootstrap: on a collection without a current record the read inserts
      exactly one current record, for (db, coll) and without `lastProcessed`,
      and returns null; with no earlier record for (db, coll) the result is coherent. */
  lemma ReadBootstrap(t: Table, db: string, coll: string)
    requires FirstCurrent(t).None?
    ensures Read(t, db, coll, false) == Ok((None, t + [StateRecord(db, coll, true, Absent)]))
    ensures ReadAsWritten(t, db, coll, false) == Read(t, db, coll, false)
    ensures FirstCurrent(t + [Bootstrap(db, coll)]) == Some(|t|)
    ensures FirstMatch(t, db, coll).None? ==> Coherent(t + [Bootstrap(db, coll)], db, coll)
  {
    var u := t + [Bootstrap(db, coll)];
    assert u[|t|].currentState;
    if FirstMatch(t, db, coll).None? {
      assert Watches(u[|t|], db, coll);
    }
  }

  /** An existing current record is read, not changed. */
  lemma ReadExisting(t: Table, db: string, coll: string)
    requires FirstCurrent(t).Some?
    ensures Read(t, db, coll, false) == Ok((StoredCursor(t), t))
    ensures t[FirstCurrent(t).value].lastProcessed.Absent? ==> ReadAsWritten(t, db, coll, false) == Err(KeyError)
    ensures t[FirstCurrent(t).value].lastProcessed.Present? ==> ReadAsWritten(t, db, coll, false) == Read(t, db, coll, false)
  {
  }

  /** As written, bootstrap is not idempotent: the record the first read
      inserts makes the second read raise KeyError. */
  lemma ReadAsWrittenRaisesAfterBootstrap(db: string, coll: string)
    ensures ReadAsWritten([], db, coll, false) == Ok((None, [Bootstrap(db, coll)]))
    ensures ReadAsWritten([Bootstrap(db, coll)], db, coll, false) == Err(KeyError)
  {
    var t := [Bootstrap(db, coll)];
    assert [] + t == t;
    assert FirstCurrent(t) == Some(0);
  }

  /** Corrected, reading is idempotent: reading again the collection a read left
      behind gives the same token and changes nothing. */
  lemma ReadIdempotent(t: Table, db: string, coll: string, v: Option<Token>, u: Table)
    requires Read(t, db, coll, false) == Ok((v, u))
    ensures Read(u, db, coll, false) == Ok((v, u))
  {
    if FirstCurrent(t).None? {
      ReadBootstrap(t, db, coll);
      assert u[|t|].currentState;
    }
  }
}
