/**
 * The canonical charging-station record as the persistence schema declares it
 * (the `Poi`, `PoiAddress` and `PoiConnection` schema classes), and the
 * invariants of the `pois` collection: `ocmId` is required and unique, and the
 * generated `_id` is unique.
 */
module Schemas {
  import opened Wrappers

  /** A JavaScript number. The pipeline only copies such values around, so any
      number type serves; real stands in for an IEEE double. */
  type Number = real

  /** Address subdocument (no `_id` of its own). Every field is optional. */
  datatype PoiAddress = PoiAddress(
    title: Option<string>,
    addressLine1: Option<string>,
    town: Option<string>,
    stateOrProvince: Option<string>,
    postcode: Option<string>,
    country: Option<string>,
    latitude: Option<Number>,
    longitude: Option<Number>)

  /** The address whose every field is absent. */
  const NoAddress := PoiAddress(None, None, None, None, None, None, None, None)

  /** Connection subdocument (no `_id` of its own). Every field is optional. */
  datatype PoiConnection = PoiConnection(
    connectionType: Option<string>,
    powerKW: Option<Number>,
    currentType: Option<string>,
    quantity: Option<Number>)

  /** The document a worker hands to the store: every schema field except `_id`.
      `ocmId` is optional here because the raw record may lack it; the store
      refuses such a write. */
  datatype PoiUpdate = PoiUpdate(
    ocmId: Option<int>,
    status: Option<string>,
    dateLastStatusUpdate: Option<string>,
    address: PoiAddress,
    connections: seq<PoiConnection>)

  /** A stored record: `id` is the generated `_id`, `ocmId` the required key.
      With `strict: true` nothing outside these fields is ever persisted. */
  datatype Poi = Poi(
    id: string,
    ocmId: int,
    status: Option<string>,
    dateLastStatusUpdate: Option<string>,
    address: PoiAddress,
    connections: seq<PoiConnection>)

  /** The stored record carries exactly the fields of the update. */
  predicate Carries(p: Poi, u: PoiUpdate) {
    && u.ocmId == Some(p.ocmId)
    && p.status == u.status
    && p.dateLastStatusUpdate == u.dateLastStatusUpdate
    && p.address == u.address
    && p.connections == u.connections
  }

  /** The record an upsert inserts: the fields of the update and a new `_id`. */
  function NewPoi(id: string, u: PoiUpdate): (p: Poi)
    requires u.ocmId.Some?
    ensures p.id == id && Carries(p, u)
  {
    Poi(id, u.ocmId.value, u.status, u.dateLastStatusUpdate, u.address, u.connections)
  }

  /** `$set` applied to an existing record: every field of the update,
      `ocmId` included, is overwritten; `_id` is kept. */
  function SetFields(p: Poi, u: PoiUpdate): (q: Poi)
    requires u.ocmId.Some?
    ensures q.id == p.id && Carries(q, u)
    ensures q == p <==> Carries(p, u)
  {
    p.(ocmId := u.ocmId.value, status := u.status, dateLastStatusUpdate := u.dateLastStatusUpdate,
       address := u.address, connections := u.connections)
  }

  /** The collection is keyed by `ocmId`: one record per `ocmId`. */
  predicate KeyedByOcmId(docs: map<int, Poi>) {
    forall k :: k in docs ==> docs[k].ocmId == k
  }

  /** The unique index on `_id`. */
  predicate UniqueIds(docs: map<int, Poi>) {
    forall k1, k2 :: k1 in docs && k2 in docs && k1 != k2 ==> docs[k1].id != docs[k2].id
  }

  predicate StoreInvariant(docs: map<int, Poi>) {
    KeyedByOcmId(docs) && UniqueIds(docs)
  }

  /** The `_id` values in use. */
  function Ids(docs: map<int, Poi>): set<string> {
    set k | k in docs :: docs[k].id
  }
}
