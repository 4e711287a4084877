/**
 * The raw charging-station record as the external catalog returns it. The
 * worker reads it without any schema, so every nested object and field may be
 * missing. Field names follow the catalog's JSON.
 */
module OcmRecord {
  import opened Wrappers
  import opened Schemas

  /** A nested object of which only `Title` is read (`StatusType`,
      `Country`, `ConnectionType`, `CurrentType`). */
  datatype Titled = Titled(Title: Option<string>)

  datatype RawAddressInfo = RawAddressInfo(
    Title: Option<string>,
    AddressLine1: Option<string>,
    Town: Option<string>,
    StateOrProvince: Option<string>,
    Postcode: Option<string>,
    Country: Option<Titled>,
    Latitude: Option<Number>,
    Longitude: Option<Number>)

  datatype RawConnection = RawConnection(
    ConnectionType: Option<Titled>,
    PowerKW: Option<Number>,
    CurrentType: Option<Titled>,
    Quantity: Option<Number>)

  /** `Connections` is None when the catalog sends null or leaves it out. */
  datatype RawPoi = RawPoi(
    ID: Option<int>,
    StatusType: Option<Titled>,
    DateLastStatusUpdate: Option<string>,
    AddressInfo: Option<RawAddressInfo>,
    Connections: Option<seq<RawConnection>>)
}
