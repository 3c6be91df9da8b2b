/** The backend process's shared in-memory store (`app.locals.store`), its
    initial contents, and the health endpoint. */
module Server {
  import opened Js
  import opened Records

  /** The mutable store every route handler reads and updates. */
  class Store {
    var sos: SosRecord
    var location: LocationRecord
    var contacts: seq<Contact>
    var zones: seq<Zone>

    /** The store as the process starts: no SOS, no location, no contacts,
        and the twelve seeded demo zones. */
    constructor ()
      ensures !sos.active && sos.time == None && sos.lat == None && sos.lng == None
      ensures location.lat == None && location.lng == None && location.updatedAt == None
      ensures contacts == []
      ensures zones == SeededZones()
    {
      sos := SosRecord(false, None, None, None);
      location := LocationRecord(None, None, None);
      contacts := [];
      zones := SeededZones();
    }
  }

  function Seeded(id: int, kind: ZoneType, name: string, category: string, lat: real, lng: real): Zone {
    Zone(Num(id as real), kind, Str(name), category, Num(lat), Num(lng), None)
  }

  /** The demo zones served by `GET /zones`. */
  function SeededZones(): (zs: seq<Zone>)
    ensures |zs| == 12
  {
    [ Seeded(1, Safe, "Nagarkurnool District Hospital", "Hospital", 16.4833, 78.3167),
      Seeded(2, Safe, "Nagarkurnool Police Station", "Police", 16.4841, 78.3189),
      Seeded(3, Safe, "Wanaparthy Police Station", "Police", 16.3667, 78.0667),
      Seeded(4, Safe, "Kalwakurthy Hospital", "Hospital", 16.6850, 78.0180),
      Seeded(5, Safe, "Mahbubnagar District Hospital", "Hospital", 16.7488, 77.9816),
      Seeded(6, Safe, "Gadwal Police Station", "Police", 16.2333, 77.8000),
      Seeded(7, Safe, "Nalgonda District Hospital", "Hospital", 17.0484, 79.2674),
      Seeded(8, Safe, "Gandhi Hospital Hyderabad", "Hospital", 17.4416, 78.4983),
      Seeded(9, Safe, "Warangal Police Station", "Police", 17.9689, 79.5941),
      Seeded(10, Avoid, "Nagarkurnool Highway Construction", "Construction", 16.4700, 78.3000),
      Seeded(11, Safe, "Achampet Police Station", "Police", 16.4167, 78.0667),
      Seeded(12, Safe, "Karimnagar Police Station", "Police", 18.4386, 79.1288) ]
  }

  datatype HealthReply = HealthReply(status: string, message: string)

  /** `GET /health` reports "ok" whatever the state of the store. */
  method Health(store: Store) returns (r: HealthReply)
    ensures r.status == "ok" && r.message == "Backend running"
  {
    r := HealthReply("ok", "Backend running");
  }

  /** The demo zones have ids 1 to 12 in order, so none is one of the
      fallback ids, which start at 1000. */
  lemma SeededZonesNumbered()
    ensures forall i :: 0 <= i < |SeededZones()| ==> SeededZones()[i].id == Num((i + 1) as real)
  {
  }

  /** The demo zones are only "safe" and "avoid" zones. */
  lemma SeededZonesKinds()
    ensures forall i :: 0 <= i < |SeededZones()| ==>
      SeededZones()[i].kind == Safe || SeededZones()[i].kind == Avoid
  {
  }

  /** Every demo zone has a position and no distance. */
  lemma SeededZonesPositioned()
    ensures forall i :: 0 <= i < |SeededZones()| ==>
      SeededZones()[i].distance == None && Truthy(SeededZones()[i].lat) && Truthy(SeededZones()[i].lng)
  {
  }
}
