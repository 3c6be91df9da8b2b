/** The `/sos` routes: one SOS record in the shared store, switched between
    active and inactive. Each switch overwrites the whole record. */
module SosRoutes {
  import opened Js
  import opened Records
  import Server

  /** The reply of a trigger or a resolve: a status line and the time stored. */
  datatype SosReply = SosReply(status: string, time: string)

  /** `GET /sos`: the stored record, unchanged. */
  method GetSos(store: Server.Store) returns (r: SosRecord)
    ensures r == store.sos
  {
    r := store.sos;
  }

  /** `POST /sos` at time `now`: the record becomes active with that time and
      the body's coordinates, each kept only when it is a number. Nothing
      about the previous record survives, so a second trigger overwrites the
      first one's time and position. */
  method TriggerSos(store: Server.Store, lat: JsValue, lng: JsValue, now: string) returns (reply: SosReply)
    modifies store`sos
    ensures store.sos.active && store.sos.time == Some(now)
    ensures store.sos.lat == NumberOrNull(lat) && store.sos.lng == NumberOrNull(lng)
    ensures reply == SosReply("SOS triggered", now) && store.sos.time == Some(reply.time)
  {
    store.sos := SosRecord(true, Some(now), NumberOrNull(lat), NumberOrNull(lng));
    reply := SosReply("SOS triggered", now);
  }

  /** `POST /sos/resolve` at time `now`: the record becomes inactive, its
      coordinates are cleared, and the resolve time is recorded. */
  method ResolveSos(store: Server.Store, now: string) returns (reply: SosReply)
    modifies store`sos
    ensures !store.sos.active && store.sos.time == Some(now)
    ensures store.sos.lat == None && store.sos.lng == None
    ensures reply == SosReply("SOS resolved", now) && store.sos.time == Some(reply.time)
  {
    store.sos := SosRecord(false, Some(now), None, None);
    reply := SosReply("SOS resolved", now);
  }
}
