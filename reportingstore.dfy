/**
 * The reporting databases the MySQL module writes to: records keyed by
 * `_id`, written by `pushResponse` (normalising a record's `data` and
 * reusing the stored `_rev` when the id is already there) and by
 * `saveFlatResponse`, which stores a response's primitive top-level
 * properties with its normalised flat record as `data`.
 */
module ReportingStore {
  import opened Wrappers
  import opened Strings
  import opened JsonValues
  import opened ReportingFlat

  /** A column value as MySQL receives it: anything `typeof` calls an object (null, arrays, objects) becomes its JSON text. */
  function Converted(v: Json): (r: Json)
    ensures !TypeofObject(r)
    ensures !TypeofObject(v) ==> r == v
  {
    if TypeofObject(v) then Stringify(v) else v
  }

  /** What one property contributes to the normalised record: nothing for the empty key, else its lower-cased key and converted value. */
  function NormalizedEntry(key: string, v: Json): Fields {
    if key == "" then [] else [(Lower(key), Converted(v))]
  }

  /** The reduction the module uses to normalise a record: each property spread onto a copy of the accumulator. */
  function NormalizeFrom(acc: Fields, fields: Fields): Fields
    decreases |fields|
  {
    if fields == [] then acc
    else NormalizeFrom(Spread(Spread([], acc), NormalizedEntry(fields[0].0, fields[0].1)), fields[1..])
  }

  function Normalize(fields: Fields): Fields {
    NormalizeFrom([], fields)
  }

  /** The shape of a normalised record: unique, non-empty, lower-case keys and no object values. */
  predicate Normalized(fields: Fields) {
    && UniqueKeys(fields)
    && forall i :: 0 <= i < |fields| ==> fields[i].0 != "" && Lower(fields[i].0) == fields[i].0 && !TypeofObject(fields[i].1)
  }

  /** One reduction step on a record with unique keys is the assignment `acc[key] = value`. */
  lemma NormalizeStep(acc: Fields, key: string, v: Json)
    requires UniqueKeys(acc)
    ensures Spread(Spread([], acc), NormalizedEntry(key, v))
      == if key == "" then acc else ObjSet(acc, Lower(key), Converted(v))
  {
    assert [] + acc == acc;
    SpreadOntoFresh([], acc);
  }

  lemma {:induction false} NormalizeFromShape(acc: Fields, fields: Fields)
    requires Normalized(acc)
    ensures Normalized(NormalizeFrom(acc, fields))
    decreases |fields|
  {
    if fields != [] {
      var key := fields[0].0;
      NormalizeStep(acc, key, fields[0].1);
      if key != "" {
        var next := ObjSet(acc, Lower(key), Converted(fields[0].1));
        ObjSetKeepsUniqueKeys(acc, Lower(key), Converted(fields[0].1));
        ObjSetEntries(acc, Lower(key), Converted(fields[0].1));
        LowerIdempotent(key);
        forall i | 0 <= i < |next|
          ensures next[i].0 != "" && Lower(next[i].0) == next[i].0 && !TypeofObject(next[i].1)
        {
          assert next[i] in next;
        }
      }
      NormalizeFromShape(Spread(Spread([], acc), NormalizedEntry(key, fields[0].1)), fields[1..]);
    }
  }

  /** A normalised record has unique, non-empty, lower-case keys and no nested values. */
  lemma NormalizeShape(fields: Fields)
    ensures Normalized(Normalize(fields))
  {
    NormalizeFromShape([], fields);
  }

  /** The converted value of the last property whose lower-cased key is `k` (the empty key never matches). */
  function LastMatching(fields: Fields, k: string): Option<Json>
    decreases |fields|
  {
    if fields == [] then None
    else
      var last := fields[|fields| - 1];
      if last.0 != "" && Lower(last.0) == k then Some(Converted(last.1)) else LastMatching(fields[..|fields| - 1], k)
  }

  lemma {:induction false} LastMatchingAppend(a: Fields, b: Fields, k: string)
    ensures LastMatching(a + b, k) == if LastMatching(b, k).Some? then LastMatching(b, k) else LastMatching(a, k)
    decreases |b|
  {
    if b == [] {
      assert a + b == a;
    } else {
      assert (a + b)[..|a + b| - 1] == a + b[..|b| - 1];
      LastMatchingAppend(a, b[..|b| - 1], k);
    }
  }

  /** One step of the reduction: the accumulator stays free of duplicate keys, and key `k` reads the new property's value if it matches. */
  lemma NormalizeHeadLookup(acc: Fields, key: string, v: Json, k: string)
    requires UniqueKeys(acc)
    ensures UniqueKeys(Spread(Spread([], acc), NormalizedEntry(key, v)))
    ensures Lookup(Spread(Spread([], acc), NormalizedEntry(key, v)), k)
            == match LastMatching([(key, v)], k) case Some(w) => w case None => Lookup(acc, k)
  {
    NormalizeStep(acc, key, v);
    if key != "" {
      ObjSetKeepsUniqueKeys(acc, Lower(key), Converted(v));
      ObjSetLookup(acc, Lower(key), Converted(v), k);
    }
    assert [(key, v)][..0] == [];
  }

  lemma {:induction false} NormalizeFromLookup(acc: Fields, fields: Fields, k: string)
    requires UniqueKeys(acc)
    ensures Lookup(NormalizeFrom(acc, fields), k) == match LastMatching(fields, k) case Some(v) => v case None => Lookup(acc, k)
    decreases |fields|
  {
    if fields != [] {
      var next := Spread(Spread([], acc), NormalizedEntry(fields[0].0, fields[0].1));
      NormalizeHeadLookup(acc, fields[0].0, fields[0].1, k);
      NormalizeFromLookup(next, fields[1..], k);
      assert fields == [fields[0]] + fields[1..];
      LastMatchingAppend([fields[0]], fields[1..], k);
    }
  }

  /**
   * Reading key `k` of a normalised record gives the converted value of the
   * last property whose key lower-cases to `k`: keys differing only in case
   * collapse into one column, the later value winning.
   */
  lemma NormalizeLookup(fields: Fields, k: string)
    ensures Lookup(Normalize(fields), k) == LastMatching(fields, k).GetOr(Undefined)
  {
    NormalizeFromLookup([], fields, k);
  }

  /** Normalising a record of that shape changes nothing. */
  lemma {:induction false} NormalizeFromNormalized(acc: Fields, fields: Fields)
    requires Normalized(acc + fields)
    ensures NormalizeFrom(acc, fields) == acc + fields
    decreases |fields|
  {
    if fields == [] {
      assert acc + fields == acc;
    } else {
      var e := fields[0];
      assert (acc + fields)[|acc|] == e;
      assert acc + fields == (acc + [e]) + fields[1..];
      UniqueKeysParts(acc + [e], fields[1..]);
      UniqueKeysParts(acc, [e]);
      NormalizeStep(acc, e.0, e.1);
      forall i | 0 <= i < |acc|
        ensures Keys(acc)[i] != e.0
      {
        assert (acc + fields)[i].0 != (acc + fields)[|acc|].0;
      }
      ObjSetNewKey(acc, e.0, e.1);
      assert Normalized((acc + [e]) + fields[1..]) by {
        forall i | 0 <= i < |acc + fields|
          ensures ((acc + [e]) + fields[1..])[i] == (acc + fields)[i]
        {
        }
      }
      NormalizeFromNormalized(acc + [e], fields[1..]);
    }
  }

  /** Normalising twice is normalising once: `pushResponse` re-normalising the `data` `saveFlatResponse` already normalised is a no-op. */
  lemma NormalizeIdempotent(fields: Fields)
    ensures Normalize(Normalize(fields)) == Normalize(fields)
  {
    NormalizeShape(fields);
    assert [] + Normalize(fields) == Normalize(fields);
    NormalizeFromNormalized([], Normalize(fields));
  }

  /** The own enumerable properties of a value, as `Object.keys` and spreading see them. */
  function OwnEntries(v: Json): (r: Fields)
    ensures v.Obj? ==> r == v.fields
    ensures !v.Obj? && !v.Arr? && !v.Str? ==> r == []
  {
    match v
    case Obj(fields) => fields
    case Arr(items) => seq(|items|, i requires 0 <= i < |items| => (NatToString(i), items[i]))
    case Str(s) => seq(|s|, i requires 0 <= i < |s| => (NatToString(i), Str([s[i]])))
    case _ => []
  }

  /** The record `pushResponse` goes on with: its `data` normalised when it is a truthy object or array. */
  function WithNormalizedData(doc: Fields): Fields {
    var data := Lookup(doc, "data");
    if Truthy(data) && TypeofObject(data) then ObjSet(doc, "data", Obj(Normalize(OwnEntries(data)))) else doc
  }

  /**
   * The store after `pushResponse(doc, db)`, or None when it rejects. A
   * record already stored under the id is overwritten with the stored
   * `_rev`; otherwise the record is stored without any `_rev`. A record whose
   * `_id` is not a string is refused by the database.
   */
  function Upserted(docs: map<string, Fields>, doc: Fields): Option<map<string, Fields>> {
    var d := WithNormalizedData(doc);
    var id := Lookup(d, "_id");
    if !id.Str? then None
    else if id.s in docs then Some(docs[id.s := Spread(Spread([], d), [("_rev", Lookup(docs[id.s], "_rev"))])])
    else Some(docs[id.s := ObjRemove(Spread([], d), "_rev")])
  }

  /** Whether `pushResponse(doc, db)` resolves. */
  predicate PushOk(docs: map<string, Fields>, doc: Fields) {
    Upserted(docs, doc).Some?
  }

  /** The store after `pushResponse(doc, db)`; unchanged when it rejects. */
  function AfterPush(docs: map<string, Fields>, doc: Fields): map<string, Fields> {
    Upserted(docs, doc).GetOr(docs)
  }

  /** One reporting database: its records by id. */
  class ReportingDb {
    var docs: map<string, Fields>

    constructor ()
      ensures docs == map[]
    {
      docs := map[];
    }
  }

  /** `pushResponse(doc, db)`: true when the record was written; a rejected write leaves the store as it was. */
  method PushResponse(doc: Fields, db: ReportingDb) returns (ok: bool)
    modifies db
    ensures ok == PushOk(old(db.docs), doc)
    ensures db.docs == AfterPush(old(db.docs), doc)
  {
    var d := doc;
    var data := Lookup(d, "data");
    if Truthy(data) && TypeofObject(data) {
      d := ObjSet(d, "data", Obj(Normalize(OwnEntries(data))));
    }
    var id := Lookup(d, "_id");
    if !id.Str? {
      return false;
    }
    if id.s in db.docs {
      var oldDoc := db.docs[id.s];
      var updated := Spread(Spread([], d), [("_rev", Lookup(oldDoc, "_rev"))]);
      db.docs := db.docs[id.s := updated];
    } else {
      var clone := ObjRemove(Spread([], d), "_rev");
      db.docs := db.docs[id.s := clone];
    }
    ok := true;
  }

  /** A write touches the record under its own id and no other. */
  lemma UpsertedOthers(docs: map<string, Fields>, doc: Fields, other: string)
    requires Upserted(docs, doc).Some? && other != Lookup(WithNormalizedData(doc), "_id").s
    ensures other in Upserted(docs, doc).value <==> other in docs
    ensures other in docs ==> Upserted(docs, doc).value[other] == docs[other]
  {
  }

  /** A write is refused exactly when the record's `_id` is not a string. */
  lemma UpsertedRefused(docs: map<string, Fields>, doc: Fields)
    ensures Upserted(docs, doc).None? <==> !Lookup(doc, "_id").Str?
  {
    ObjSetLookup(doc, "data", Obj(Normalize(OwnEntries(Lookup(doc, "data")))), "_id");
  }

  /** Normalising `data` keeps the record's keys unique and changes no other property. */
  lemma WithNormalizedDataLookup(doc: Fields, k: string)
    requires UniqueKeys(doc)
    ensures UniqueKeys(WithNormalizedData(doc))
    ensures k != "data" ==> Lookup(WithNormalizedData(doc), k) == Lookup(doc, k)
  {
    var data := Lookup(doc, "data");
    if Truthy(data) && TypeofObject(data) {
      ObjSetKeepsUniqueKeys(doc, "data", Obj(Normalize(OwnEntries(data))));
      ObjSetLookup(doc, "data", Obj(Normalize(OwnEntries(data))), k);
    }
  }

  /** What the two branches of `pushResponse` store for a record `d` with unique keys. */
  lemma StoredLookup(d: Fields, rev: Json, existing: bool, k: string)
    requires UniqueKeys(d)
    ensures var stored := if existing then Spread(Spread([], d), [("_rev", rev)]) else ObjRemove(Spread([], d), "_rev");
      Lookup(stored, k) == if k == "_rev" then (if existing then rev else Undefined) else Lookup(d, k)
  {
    assert [] + d == d;
    SpreadOntoFresh([], d);
    if existing {
      SpreadLookup(d, [("_rev", rev)], k);
      assert Keys([("_rev", rev)]) == ["_rev"];
    } else {
      ObjRemoveLookup(d, "_rev", k);
    }
  }

  /** The record `pushResponse` stores under the id of `doc`. */
  function StoredRecord(docs: map<string, Fields>, doc: Fields): Fields
    requires UniqueKeys(doc) && Lookup(doc, "_id").Str?
    ensures Upserted(docs, doc) == Some(docs[Lookup(doc, "_id").s := StoredRecord(docs, doc)])
  {
    var d := WithNormalizedData(doc);
    WithNormalizedDataLookup(doc, "_id");
    var id := Lookup(doc, "_id").s;
    if id in docs then Spread(Spread([], d), [("_rev", Lookup(docs[id], "_rev"))]) else ObjRemove(Spread([], d), "_rev")
  }

  /**
   * The stored record: the `_rev` of the record it replaced (none for a new
   * id), `data` normalised when it was an object or array, and every other
   * property of the written record.
   */
  lemma UpsertedRecord(docs: map<string, Fields>, doc: Fields, k: string)
    requires UniqueKeys(doc) && Lookup(doc, "_id").Str?
    ensures var id := Lookup(doc, "_id").s;
      Lookup(StoredRecord(docs, doc), k) ==
        if k == "_rev" then (if id in docs then Lookup(docs[id], "_rev") else Undefined)
        else if k == "data" then Lookup(WithNormalizedData(doc), "data")
        else Lookup(doc, k)
  {
    var d := WithNormalizedData(doc);
    WithNormalizedDataLookup(doc, k);
    var id := Lookup(doc, "_id").s;
    StoredLookup(d, if id in docs then Lookup(docs[id], "_rev") else Undefined, id in docs, k);
  }

  /** `value === Object(value)` is false: primitives, null and undefined are kept as top-level columns. */
  function TopDoc(top: Fields): (r: Fields)
    ensures forall i :: 0 <= i < |r| ==> !IsObjectValue(r[i].1) && r[i] in top
    ensures forall e :: e in top && !IsObjectValue(e.1) ==> e in r
    decreases |top|
  {
    if top == [] then []
    else
      var init := TopDoc(top[..|top| - 1]);
      var last := top[|top| - 1];
      assert forall e :: e in top[..|top| - 1] ==> e in top;
      assert forall e :: e in top ==> e in top[..|top| - 1] || e == last;
      init + (if IsObjectValue(last.1) then [] else [last])
  }

  /** The record `saveFlatResponse` writes: the primitive top-level properties and, as `data`, the normalised flat record. */
  function SavedRecord(top: Fields, flat: FlatResponse): Fields {
    Spread(Spread([], TopDoc(top)), [("data", Obj(Normalize(FlatRecord(flat))))])
  }

  /**
   * `saveFlatResponse(doc, targetDb, sanitized)`: returns the response as
   * `generateFlatResponse` left it and whether the write went through
   * (false also when building the flat record throws).
   */
  method SaveFlatResponse(r: Response, db: ReportingDb, sanitized: bool) returns (r': Response, ok: bool)
    modifies db
    ensures r' == WithFormId(r)
    ensures FlatOf(r, sanitized).None? ==> !ok && db.docs == old(db.docs)
    ensures FlatOf(r, sanitized).Some? ==> (
      && ok == PushOk(old(db.docs), SavedRecord(r.top, FlatOf(r, sanitized).value))
      && db.docs == AfterPush(old(db.docs), SavedRecord(r.top, FlatOf(r, sanitized).value)))
  {
    var flat;
    r', flat := GenerateFlatResponse(r, sanitized);
    if flat.None? {
      return r', false;
    }
    var normalized := Normalize(FlatRecord(flat.value));
    var top := TopDoc(r.top);
    ok := PushResponse(Spread(Spread([], top), [("data", Obj(normalized))]), db);
  }

  /** The `data` stored by `saveFlatResponse` is the normalised flat record, unchanged by the second normalisation. */
  lemma SavedData(top: Fields, flat: FlatResponse)
    ensures Lookup(WithNormalizedData(SavedRecord(top, flat)), "data") == Obj(Normalize(FlatRecord(flat)))
  {
    var data := Obj(Normalize(FlatRecord(flat)));
    var rec := SavedRecord(top, flat);
    SpreadLookup(Spread([], TopDoc(top)), [("data", data)], "data");
    assert Keys([("data", data)]) == ["data"];
    NormalizeIdempotent(FlatRecord(flat));
    ObjSetLookup(rec, "data", Obj(Normalize(OwnEntries(data))), "data");
  }
}
