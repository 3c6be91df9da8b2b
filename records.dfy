/** The records the backend keeps in its in-memory store and sends to the
    frontend. */
module Records {
  import opened Js

  /** A zone's `type`. */
  datatype ZoneType = Safe | Danger | Avoid

  /** The string the JSON carries for a zone's `type`. */
  function TypeName(t: ZoneType): string {
    match t
    case Safe => "safe"
    case Danger => "danger"
    case Avoid => "avoid"
  }

  /** A zone as sent to the frontend. `id`, `name`, `lat` and `lng` are
      whatever the zone's source put there (a live zone copies them from the
      upstream element); `distance` is present only on fallback zones. */
  datatype Zone = Zone(
    id: JsValue,
    kind: ZoneType,
    name: JsValue,
    category: string,
    lat: JsValue,
    lng: JsValue,
    distance: Option<real>)

  /** A stored contact: `{ id, name, phone, priority }`. A stored priority is
      always a finite number or null. */
  datatype Contact = Contact(id: string, name: JsValue, phone: JsValue, priority: Option<real>)

  /** The single SOS record. `time` is an ISO timestamp or null. */
  datatype SosRecord = SosRecord(active: bool, time: Option<string>, lat: Option<real>, lng: Option<real>)

  /** The single last-known-location record. */
  datatype LocationRecord = LocationRecord(lat: Option<real>, lng: Option<real>, updatedAt: Option<string>)
}
