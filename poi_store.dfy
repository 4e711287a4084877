/**
 * The `pois` collection seen through the one write the pipeline makes:
 * `updateOne({ocmId}, {$set: fields}, {upsert: true})`. The collection is a
 * map from `ocmId` to the stored record; the store reports how many records
 * it inserted and how many it modified.
 */
module PoiStore {
  import opened Wrappers
  import opened Schemas

  /** What the store reports about one upsert. */
  datatype UpdateResult = UpdateResult(upsertedCount: nat, modifiedCount: nat)

  /** Errors the store throws. `Unavailable` stands for any transient failure
      (lost connection, timeout) that the model receives as a parameter. */
  datatype StoreError =
    | ValidationError(path: string)
    | DuplicateKey(index: string)
    | Unavailable(reason: string)

  /** The collection after a successful write, and the write's report. */
  datatype Write = Write(docs: map<int, Poi>, result: UpdateResult)

  /**
   * An upsert keyed by `u.ocmId`: refused when `ocmId` is missing; otherwise
   * the matching record gets every field of `u` and keeps its `_id`, or, when
   * there is none, a record with `_id == freshId` is inserted. A `fault`
   * makes the store throw that error and change nothing.
   */
  function Upsert(docs: map<int, Poi>, u: PoiUpdate, freshId: string, fault: Option<StoreError>)
    : (r: Result<Write, StoreError>)
    ensures fault.Some? ==> r == Err(fault.value)
    ensures fault.None? && u.ocmId.None? ==> r == Err(ValidationError("ocmId"))
    ensures fault.None? && u.ocmId.Some? && r.Err? ==>
              r.error == DuplicateKey("_id") && u.ocmId.value !in docs && freshId in Ids(docs)
    ensures r.Ok? ==> u.ocmId.Some? && fault.None?
    ensures r.Ok? ==>
              var k := u.ocmId.value;
              && r.value.docs.Keys == docs.Keys + {k}
              && Carries(r.value.docs[k], u)
              && (forall j :: j in docs && j != k ==> r.value.docs[j] == docs[j])
              && (k in docs ==> r.value.docs[k].id == docs[k].id)
              && (k !in docs ==> r.value.docs[k].id == freshId)
    ensures r.Ok? ==>
              var k := u.ocmId.value;
              && (r.value.result.upsertedCount > 0 <==> k !in docs)
              && (r.value.result.modifiedCount > 0 <==> k in docs && r.value.docs[k] != docs[k])
              && r.value.result.upsertedCount + r.value.result.modifiedCount <= 1
    ensures r.Ok? && StoreInvariant(docs) ==> StoreInvariant(r.value.docs)
  {
    if fault.Some? then Err(fault.value)
    else if u.ocmId.None? then Err(ValidationError("ocmId"))
    else
      var k := u.ocmId.value;
      if k in docs then
        var p := SetFields(docs[k], u);
        Ok(Write(docs[k := p], UpdateResult(0, if p == docs[k] then 0 else 1)))
      else if freshId in Ids(docs) then
        Err(DuplicateKey("_id"))
      else
        var p := NewPoi(freshId, u);
        var docs' := docs[k := p];
        assert StoreInvariant(docs) ==> UniqueIds(docs') by {
          if StoreInvariant(docs) {
            forall k1, k2 | k1 in docs' && k2 in docs' && k1 != k2
              ensures docs'[k1].id != docs'[k2].id
            {
              if k1 == k {
                assert docs[k2].id in Ids(docs);
              } else if k2 == k {
                assert docs[k1].id in Ids(docs);
              }
            }
          }
        }
        Ok(Write(docs', UpdateResult(1, 0)))
  }

  /**
   * Upserting the same fields a second time finds the record, changes
   * nothing and reports neither an insert nor a modification, whatever fresh
   * id is on offer.
   */
  lemma UpsertIdempotent(docs: map<int, Poi>, u: PoiUpdate, freshId: string, freshId': string)
    requires Upsert(docs, u, freshId, None).Ok?
    ensures var w := Upsert(docs, u, freshId, None).value;
            Upsert(w.docs, u, freshId', None) == Ok(Write(w.docs, UpdateResult(0, 0)))
  {
    var w := Upsert(docs, u, freshId, None).value;
    var k := u.ocmId.value;
    assert SetFields(w.docs[k], u) == w.docs[k];
    assert w.docs[k := w.docs[k]] == w.docs;
  }

  /** The collection: a map from `ocmId` to the stored record. */
  class PoiModel {
    var docs: map<int, Poi>

    ghost predicate Valid()
      reads this
    {
      StoreInvariant(docs)
    }

    constructor ()
      ensures Valid() && docs == map[]
    {
      docs := map[];
    }

    /** `updateOne({ocmId: u.ocmId}, {$set: u}, {upsert: true})`. */
    method UpdateOne(u: PoiUpdate, freshId: string, fault: Option<StoreError>)
      returns (r: Result<UpdateResult, StoreError>)
      requires Valid()
      modifies this
      ensures Valid()
      ensures match Upsert(old(docs), u, freshId, fault)
              case Ok(w) => r == Ok(w.result) && docs == w.docs
              case Err(e) => r == Err(e) && docs == old(docs)
    {
      var w := Upsert(docs, u, freshId, fault);
      match w {
        case Ok(write) =>
          docs := write.docs;
          r := Ok(write.result);
        case Err(e) =>
          r := Err(e);
      }
    }
  }
}
