/** The `/location` routes: the last reported position, replaced whole on
    every update. */
module LocationRoutes {
  import opened Js
  import opened Records
  import Server

  /** `GET /location`: the stored record, unchanged. */
  method GetLocation(store: Server.Store) returns (r: LocationRecord)
    ensures r == store.location
  {
    r := store.location;
  }

  /** `POST /location` at time `now`: a new record replaces the old one;
      each coordinate is kept only when it is a number, and the reply is the
      record just stored. */
  method UpdateLocation(store: Server.Store, lat: JsValue, lng: JsValue, now: string) returns (reply: LocationRecord)
    modifies store`location
    ensures store.location == LocationRecord(NumberOrNull(lat), NumberOrNull(lng), Some(now))
    ensures reply == store.location
  {
    store.location := LocationRecord(NumberOrNull(lat), NumberOrNull(lng), Some(now));
    reply := store.location;
  }
}
