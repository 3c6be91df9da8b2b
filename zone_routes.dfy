/** The `/zones` routes: the seeded demo list, and `/nearby`, which asks an
    upstream map service for police stations, hospitals, fire stations,
    shelters, industrial land and construction sites around a point, and
    falls back to a built-in catalog of Telangana zones ranked by distance
    when the request throws. */
module ZoneRoutes {
  import opened Js
  import opened Records
  import opened Seqs
  import Server

  // ---------------------------------------------------------------------
  // Upstream elements and `mapZone`

  /** An element's `tags`; a missing `tags` object reads as all-Undefined. */
  datatype Tags = Tags(amenity: JsValue, landuse: JsValue, name: JsValue, operator: JsValue)

  /** An element's `center`. */
  datatype Point = Point(lat: JsValue, lon: JsValue)

  /** One upstream element; `center` is None when it is null or absent. */
  datatype Element = Element(id: JsValue, lat: JsValue, lon: JsValue, center: Option<Point>, tags: Tags)

  /** A JavaScript call that either returns a value or throws. */
  datatype Outcome<+T> = Returns(value: T) | Throws

  /** `s.replace(/_/g, " ")` */
  function UnderscoresToSpaces(s: string): (r: string)
    ensures |r| == |s|
    ensures forall i :: 0 <= i < |s| ==> r[i] == (if s[i] == '_' then ' ' else s[i])
    ensures '_' !in r
  {
    if s == [] then []
    else [if s[0] == '_' then ' ' else s[0]] + UnderscoresToSpaces(s[1..])
  }

  /** A zone's `type` with its category label. */
  datatype Classification = Classification(kind: ZoneType, category: string)

  /** The `type` and category label `mapZone` picks from the tags. A truthy
      `amenity` that is not a string has no `replace` method, so the call
      throws a TypeError. */
  function Classify(tags: Tags): (r: Outcome<Classification>)
    // landuse decides first, whatever the amenity
    ensures tags.landuse == Str("industrial") ==> r == Returns(Classification(Danger, "Industrial area"))
    ensures tags.landuse == Str("construction") ==> r == Returns(Classification(Avoid, "Construction"))
    // the type is danger or avoid exactly for those two landuse values
    ensures r.Returns? ==> (r.value.kind == Danger <==> tags.landuse == Str("industrial"))
    ensures r.Returns? ==> (r.value.kind == Avoid <==> tags.landuse == Str("construction"))
    // otherwise a truthy amenity names the category, with "_" turned into " "
    ensures r.Returns? && r.value.kind == Safe && Truthy(tags.amenity) ==>
      tags.amenity.Str? && r.value.category == UnderscoresToSpaces(tags.amenity.s)
    ensures r.Returns? && r.value.kind == Safe && !Truthy(tags.amenity) ==> r.value.category == "Safe"
    ensures r.Throws? <==>
      tags.landuse != Str("industrial") && tags.landuse != Str("construction")
      && Truthy(tags.amenity) && !tags.amenity.Str?
    ensures r.Returns? ==> '_' !in r.value.category
  {
    if tags.landuse == Str("industrial") then Returns(Classification(Danger, "Industrial area"))
    else if tags.landuse == Str("construction") then Returns(Classification(Avoid, "Construction"))
    else if Truthy(tags.amenity) then
      (if tags.amenity.Str? then Returns(Classification(Safe, UnderscoresToSpaces(tags.amenity.s))) else Throws)
    else Returns(Classification(Safe, "Safe"))
  }

  /** `tags.name || tags.operator || "Unnamed area"`: the first truthy of the
      two tags, so an empty string falls through; never a falsy name. */
  function ZoneName(tags: Tags): (r: JsValue)
    ensures Truthy(r)
    ensures Truthy(tags.name) ==> r == tags.name
    ensures !Truthy(tags.name) && Truthy(tags.operator) ==> r == tags.operator
    ensures !Truthy(tags.name) && !Truthy(tags.operator) ==> r == Str("Unnamed area")
  {
    Or(Or(tags.name, tags.operator), Str("Unnamed area"))
  }

  /** `own ?? center?.<field> ?? null`: the element's own coordinate when it
      is not null or undefined, else the center's, else null. */
  function Coordinate(own: JsValue, centerField: JsValue): (r: JsValue)
    ensures !r.Undefined?
    ensures !Nullish(own) ==> r == own
    ensures Nullish(own) && !Nullish(centerField) ==> r == centerField
    ensures Nullish(own) && Nullish(centerField) ==> r == Null
  {
    Coalesce(own, Coalesce(centerField, Null))
  }

  function CenterLat(e: Element): JsValue {
    if e.center.Some? then e.center.value.lat else Undefined
  }

  function CenterLon(e: Element): JsValue {
    if e.center.Some? then e.center.value.lon else Undefined
  }

  /** `mapZone(element)`: the id is copied unchanged, type and category come
      from `Classify`, and the position from the element or its center; it
      throws exactly when `Classify` does. */
  function MapZone(e: Element): (r: Outcome<Zone>)
    ensures r.Throws? <==> Classify(e.tags).Throws?
    ensures r.Returns? ==>
      && r.value.id == e.id
      && Classification(r.value.kind, r.value.category) == Classify(e.tags).value
      && r.value.name == ZoneName(e.tags)
      && r.value.lat == Coordinate(e.lat, CenterLat(e))
      && r.value.lng == Coordinate(e.lon, CenterLon(e))
      && r.value.distance == None
  {
    match Classify(e.tags)
    case Throws => Throws
    case Returns(c) =>
      Returns(Zone(e.id, c.kind, ZoneName(e.tags), c.category,
                   Coordinate(e.lat, CenterLat(e)), Coordinate(e.lon, CenterLon(e)), None))
  }

  // ---------------------------------------------------------------------
  // Live path

  /** `elements.map(mapZone)`: throws if mapping any element throws, and
      otherwise maps every element in place. */
  function MapAll(es: seq<Element>): (r: Outcome<seq<Zone>>)
    ensures r.Returns? ==> |r.value| == |es|
  {
    if es == [] then Returns([])
    else
      var head, tail := MapZone(es[0]), MapAll(es[1..]);
      if head.Throws? || tail.Throws? then Throws else Returns([head.value] + tail.value)
  }

  /** Mapping succeeds exactly when no element's mapping throws, and then
      holds each element's zone at the element's own index. */
  lemma {:induction false} MapAllPointwise(es: seq<Element>)
    ensures MapAll(es).Returns? <==> forall i :: 0 <= i < |es| ==> MapZone(es[i]).Returns?
    ensures MapAll(es).Returns? ==>
      forall i :: 0 <= i < |es| ==> MapAll(es).value[i] == MapZone(es[i]).value
  {
    if es != [] {
      MapAllPointwise(es[1..]);
      assert forall i :: 1 <= i < |es| ==> es[i] == es[1..][i - 1];
    }
  }

  lemma {:induction false} MapAllConcat(a: seq<Element>, b: seq<Element>)
    requires MapAll(a).Returns? && MapAll(b).Returns?
    ensures MapAll(a + b) == Returns(MapAll(a).value + MapAll(b).value)
  {
    if a == [] {
      assert a + b == b;
      assert [] + MapAll(b).value == MapAll(b).value;
    } else {
      var ab := a + b;
      assert ab[0] == a[0] && ab[1..] == a[1..] + b;
      MapAllConcat(a[1..], b);
      var z, ta, tb := MapZone(a[0]).value, MapAll(a[1..]).value, MapAll(b).value;
      assert MapAll(ab).value == [z] + (ta + tb);
      assert [z] + (ta + tb) == ([z] + ta) + tb;
    }
  }

  /** `zone.lat && zone.lng` */
  predicate HasPosition(z: Zone) {
    Truthy(z.lat) && Truthy(z.lng)
  }

  /** The live answer: every element mapped, in upstream order, keeping only
      those with a truthy latitude and longitude. */
  function LiveZones(es: seq<Element>): (r: Outcome<seq<Zone>>)
    ensures r.Throws? <==> MapAll(es).Throws?
  {
    match MapAll(es)
    case Throws => Throws
    case Returns(zs) => Returns(Filter(zs, HasPosition))
  }

  /** The live answer holds exactly the mapped elements that have a
      position: every zone in it has one, and every element whose mapped zone
      has one is in it. */
  lemma LiveZonesKeepExactlyPositioned(es: seq<Element>)
    requires LiveZones(es).Returns?
    ensures forall z :: z in LiveZones(es).value ==> HasPosition(z)
    ensures forall z :: z in LiveZones(es).value ==> exists i :: 0 <= i < |es| && MapZone(es[i]) == Returns(z)
    ensures forall i :: 0 <= i < |es| ==> MapZone(es[i]).Returns?
    ensures forall i :: 0 <= i < |es| && HasPosition(MapZone(es[i]).value) ==>
      MapZone(es[i]).value in LiveZones(es).value
    ensures |LiveZones(es).value| <= |es|
  {
    var zs := MapAll(es).value;
    MapAllPointwise(es);
    forall z | z in LiveZones(es).value
      ensures exists i :: 0 <= i < |es| && MapZone(es[i]) == Returns(z)
    {
      assert z in zs;
      var i :| 0 <= i < |zs| && zs[i] == z;
      assert MapZone(es[i]) == Returns(z);
    }
    forall i | 0 <= i < |es| && HasPosition(MapZone(es[i]).value)
      ensures MapZone(es[i]).value in LiveZones(es).value
    {
      assert zs[i] in zs;
    }
  }

  /** Upstream order is kept: the live answer for two batches of elements is
      the answer for the first followed by the answer for the second. */
  lemma {:induction false} LiveZonesKeepOrder(a: seq<Element>, b: seq<Element>)
    requires LiveZones(a).Returns? && LiveZones(b).Returns?
    ensures LiveZones(a + b) == Returns(LiveZones(a).value + LiveZones(b).value)
  {
    var za, zb := MapAll(a).value, MapAll(b).value;
    MapAllConcat(a, b);
    FilterConcat(za, zb, HasPosition);
  }

  // ---------------------------------------------------------------------
  // Fallback path

  /** One entry of the built-in catalog (no id, no distance). */
  datatype CatalogEntry = CatalogEntry(kind: ZoneType, name: string, category: string, lat: real, lng: real)

  /** The number of entries in the built-in catalog. */
  const CatalogSize := 50

  /** The fifty zones the fallback ranks, in catalog order. */
  function Catalog(): (c: seq<CatalogEntry>)
    ensures |c| == CatalogSize
    ensures forall i :: 0 <= i < CatalogSize ==> c[i] == CatalogEntryAt(i)
  {
    seq(CatalogSize, i requires 0 <= i < CatalogSize => CatalogEntryAt(i))
  }

  /** The catalog entry at index i, as the route lists it. */
  function CatalogEntryAt(i: nat): CatalogEntry
    requires i < CatalogSize
  {
    match i
    case 0 => CatalogEntry(Safe, "Nagarkurnool District Hospital", "Hospital", 16.4833, 78.3167)
    case 1 => CatalogEntry(Safe, "Nagarkurnool Police Station", "Police", 16.4841, 78.3189)
    case 2 => CatalogEntry(Safe, "Nagarkurnool Town Police", "Police", 16.4850, 78.3200)
    case 3 => CatalogEntry(Safe, "Achampet Police Station", "Police", 16.4167, 78.0667)
    case 4 => CatalogEntry(Safe, "Kalwakurthy Police Station", "Police", 16.6833, 78.0167)
    case 5 => CatalogEntry(Safe, "Kalwakurthy Hospital", "Hospital", 16.6850, 78.0180)
    case 6 => CatalogEntry(Safe, "Wanaparthy Police Station", "Police", 16.3667, 78.0667)
    case 7 => CatalogEntry(Safe, "Wanaparthy District Hospital", "Hospital", 16.3680, 78.0690)
    case 8 => CatalogEntry(Avoid, "Nagarkurnool Highway Construction", "Construction", 16.4700, 78.3000)
    case 9 => CatalogEntry(Safe, "Banjara Hills Police Station", "Police", 17.4239, 78.4738)
    case 10 => CatalogEntry(Safe, "Gandhi Hospital", "Hospital", 17.4416, 78.4983)
    case 11 => CatalogEntry(Safe, "NIMS Hospital", "Hospital", 17.4313, 78.4099)
    case 12 => CatalogEntry(Safe, "Cyberabad Police Station", "Police", 17.4435, 78.3772)
    case 13 => CatalogEntry(Danger, "Balanagar Industrial Area", "Industrial", 17.4887, 78.4412)
    case 14 => CatalogEntry(Safe, "Osmania Hospital", "Hospital", 17.3753, 78.4815)
    case 15 => CatalogEntry(Avoid, "Metro Construction - Ameerpet", "Construction", 17.4374, 78.4482)
    case 16 => CatalogEntry(Safe, "Punjagutta Police Station", "Police", 17.4239, 78.4482)
    case 17 => CatalogEntry(Danger, "Jeedimetla Industrial Estate", "Industrial", 17.5074, 78.4447)
    case 18 => CatalogEntry(Safe, "Care Hospital - Banjara Hills", "Hospital", 17.4126, 78.4501)
    case 19 => CatalogEntry(Safe, "Secunderabad Railway Police", "Police", 17.4400, 78.5018)
    case 20 => CatalogEntry(Safe, "Apollo Hospital - Jubilee Hills", "Hospital", 17.4326, 78.4071)
    case 21 => CatalogEntry(Avoid, "ORR Construction Zone", "Construction", 17.3850, 78.4867)
    case 22 => CatalogEntry(Safe, "Nalgonda District Hospital", "Hospital", 17.0484, 79.2674)
    case 23 => CatalogEntry(Safe, "Nalgonda Police Station", "Police", 17.0491, 79.2644)
    case 24 => CatalogEntry(Safe, "Nalgonda Town Police", "Police", 17.0522, 79.2701)
    case 25 => CatalogEntry(Safe, "Miryalaguda Police Station", "Police", 16.8767, 79.5662)
    case 26 => CatalogEntry(Safe, "Suryapet Government Hospital", "Hospital", 17.1489, 79.6237)
    case 27 => CatalogEntry(Safe, "Suryapet Police Station", "Police", 17.1482, 79.6198)
    case 28 => CatalogEntry(Avoid, "Nalgonda Highway Construction", "Construction", 17.0300, 79.2500)
    case 29 => CatalogEntry(Safe, "Warangal Police Station", "Police", 17.9689, 79.5941)
    case 30 => CatalogEntry(Safe, "MGM Hospital Warangal", "Hospital", 17.9784, 79.6008)
    case 31 => CatalogEntry(Safe, "Hanamkonda Police Station", "Police", 18.0011, 79.5746)
    case 32 => CatalogEntry(Safe, "Kakatiya Medical College", "Hospital", 18.0034, 79.5827)
    case 33 => CatalogEntry(Safe, "Khammam District Hospital", "Hospital", 17.2473, 80.1514)
    case 34 => CatalogEntry(Safe, "Khammam Police Station", "Police", 17.2474, 80.1438)
    case 35 => CatalogEntry(Safe, "Kothagudem Police Station", "Police", 17.5503, 80.6176)
    case 36 => CatalogEntry(Safe, "Nizamabad District Hospital", "Hospital", 18.6725, 78.0941)
    case 37 => CatalogEntry(Safe, "Nizamabad Police Station", "Police", 18.6739, 78.0943)
    case 38 => CatalogEntry(Safe, "Karimnagar Police Station", "Police", 18.4386, 79.1288)
    case 39 => CatalogEntry(Safe, "Karimnagar District Hospital", "Hospital", 18.4391, 79.1250)
    case 40 => CatalogEntry(Safe, "Adilabad District Hospital", "Hospital", 19.6637, 78.5311)
    case 41 => CatalogEntry(Safe, "Adilabad Police Station", "Police", 19.6648, 78.5322)
    case 42 => CatalogEntry(Safe, "Sangareddy Police Station", "Police", 17.6243, 78.0835)
    case 43 => CatalogEntry(Safe, "Sangareddy Hospital", "Hospital", 17.6229, 78.0801)
    case 44 => CatalogEntry(Safe, "Mahbubnagar District Hospital", "Hospital", 16.7488, 77.9816)
    case 45 => CatalogEntry(Safe, "Mahbubnagar Police Station", "Police", 16.7514, 77.9846)
    case 46 => CatalogEntry(Safe, "Gadwal Police Station", "Police", 16.2333, 77.8000)
    case 47 => CatalogEntry(Safe, "Gadwal Hospital", "Hospital", 16.2350, 77.8020)
    case 48 => CatalogEntry(Safe, "LB Nagar Police Station", "Police", 17.3523, 78.5528)
    case _ /* 49 */ => CatalogEntry(Safe, "Shamshabad Police Station", "Police", 17.2403, 78.4294)
  }

  /** A distance in metres is never negative. */
  type Meters = r: real | r >= 0.0

  /** The distance in metres from the first point to the second (the source
      uses the haversine formula; the model keeps only that it is a
      non-negative function of the two points). */
  type DistanceFn = (real, real, real, real) -> Meters

  /** The first id the fallback hands out. */
  const FallbackIdBase := 1000

  /** At most this many fallback zones are returned. */
  const FallbackLimit := 20

  /** `{ ...catalog[i], id: 1000 + i, distance }` */
  function Annotated(catalog: seq<CatalogEntry>, lat: real, lng: real, dist: DistanceFn, i: nat): (z: Zone)
    requires i < |catalog|
  {
    var e := catalog[i];
    Zone(Num((FallbackIdBase + i) as real), e.kind, Str(e.name), e.category,
         Num(e.lat), Num(e.lng), Some(dist(lat, lng, e.lat, e.lng)))
  }

  /** The catalog mapped with its indices, before any filtering. */
  function AnnotatedCatalog(catalog: seq<CatalogEntry>, lat: real, lng: real, dist: DistanceFn): (zs: seq<Zone>)
    ensures |zs| == |catalog|
    ensures forall i :: 0 <= i < |zs| ==> zs[i] == Annotated(catalog, lat, lng, dist, i)
  {
    seq(|catalog|, i requires 0 <= i < |catalog| => Annotated(catalog, lat, lng, dist, i))
  }

  /** A zone's distance, the sort key. */
  function DistanceOf(z: Zone): real {
    z.distance.GetOr(0.0)
  }

  /** A zone's numeric id, used to state the tie order. */
  function IdOf(z: Zone): real {
    if z.id.Num? then z.id.n else 0.0
  }

  /** `distance <= radius` for a JavaScript number `radius`: false for NaN. */
  predicate WithinRadius(d: real, radius: JsNumber) {
    match radius
    case Finite(x) => d <= x
    case PosInfinity => true
    case NaN => false
    case NegInfinity => false
  }

  predicate InRadius(radius: JsNumber, z: Zone) {
    WithinRadius(DistanceOf(z), radius)
  }

  /** The annotated catalog entries within the radius, in catalog order. */
  function Candidates(catalog: seq<CatalogEntry>, lat: real, lng: real, radius: JsNumber, dist: DistanceFn): seq<Zone> {
    Filter(AnnotatedCatalog(catalog, lat, lng, dist), z => InRadius(radius, z))
  }

  /** The fallback answer over a catalog (`NearbyRoute` passes `Catalog()`):
      the candidates stably sorted by distance, first 20. */
  function Fallback(catalog: seq<CatalogEntry>, lat: real, lng: real, radius: JsNumber, dist: DistanceFn): seq<Zone> {
    Take(SortBy(Candidates(catalog, lat, lng, radius, dist), DistanceOf), FallbackLimit)
  }

  lemma CandidatesFromCatalog(catalog: seq<CatalogEntry>, lat: real, lng: real, radius: JsNumber, dist: DistanceFn)
    ensures forall z :: z in Candidates(catalog, lat, lng, radius, dist) ==>
      InRadius(radius, z) && exists i :: 0 <= i < |catalog| && z == Annotated(catalog, lat, lng, dist, i)
    ensures forall i :: 0 <= i < |catalog| && InRadius(radius, Annotated(catalog, lat, lng, dist, i)) ==>
      Annotated(catalog, lat, lng, dist, i) in Candidates(catalog, lat, lng, radius, dist)
    ensures IncreasingBy(Candidates(catalog, lat, lng, radius, dist), IdOf)
  {
    var all := AnnotatedCatalog(catalog, lat, lng, dist);
    forall z | z in Candidates(catalog, lat, lng, radius, dist)
      ensures exists i :: 0 <= i < |catalog| && z == Annotated(catalog, lat, lng, dist, i)
    {
      assert z in all;
      var i :| 0 <= i < |all| && all[i] == z;
    }
    forall i | 0 <= i < |catalog| && InRadius(radius, Annotated(catalog, lat, lng, dist, i))
      ensures Annotated(catalog, lat, lng, dist, i) in Candidates(catalog, lat, lng, radius, dist)
    {
      assert all[i] in all;
    }
    assert IncreasingBy(all, IdOf);
    FilterKeepsIncreasing(all, z => InRadius(radius, z), IdOf);
  }

  /** Every fallback zone is the catalog entry at some index i, extended with
      id 1000 + i and its distance from the query point, and lies within the
      radius. */
  lemma FallbackFromCatalogWithinRadius(catalog: seq<CatalogEntry>, lat: real, lng: real, radius: JsNumber, dist: DistanceFn)
    ensures forall z :: z in Fallback(catalog, lat, lng, radius, dist) ==>
      exists i :: 0 <= i < |catalog| && z == Annotated(catalog, lat, lng, dist, i)
    ensures forall z :: z in Fallback(catalog, lat, lng, radius, dist) ==>
      z.distance.Some? && WithinRadius(z.distance.value, radius)
    ensures radius.Finite? ==> forall z :: z in Fallback(catalog, lat, lng, radius, dist) ==>
      z.distance.value <= radius.value
  {
    var cands := Candidates(catalog, lat, lng, radius, dist);
    CandidatesFromCatalog(catalog, lat, lng, radius, dist);
    SortByPermutes(cands, DistanceOf);
    forall z | z in Fallback(catalog, lat, lng, radius, dist)
      ensures z in cands
    {
      assert z in SortBy(cands, DistanceOf);
      assert z in multiset(SortBy(cands, DistanceOf));
    }
  }

  /** The fallback zones come nearest first, catalog order breaking ties,
      with pairwise distinct ids, and at most 20 of them: all candidates when
      there are no more than 20. */
  lemma FallbackRanked(catalog: seq<CatalogEntry>, lat: real, lng: real, radius: JsNumber, dist: DistanceFn)
    ensures SortedBy(Fallback(catalog, lat, lng, radius, dist), DistanceOf)
    ensures TiesByRank(Fallback(catalog, lat, lng, radius, dist), DistanceOf, IdOf)
    ensures |Fallback(catalog, lat, lng, radius, dist)| <= FallbackLimit
    ensures |Candidates(catalog, lat, lng, radius, dist)| <= FallbackLimit ==>
      multiset(Fallback(catalog, lat, lng, radius, dist)) == multiset(Candidates(catalog, lat, lng, radius, dist))
  {
    CandidatesFromCatalog(catalog, lat, lng, radius, dist);
    SortedPrefixRanked(Candidates(catalog, lat, lng, radius, dist), DistanceOf, IdOf, FallbackLimit);
  }

  /** Top-k: no within-radius catalog zone left out of the answer is nearer
      than any zone in it. */
  lemma FallbackNearest(catalog: seq<CatalogEntry>, lat: real, lng: real, radius: JsNumber, dist: DistanceFn, i: nat)
    requires i < |catalog|
    requires InRadius(radius, Annotated(catalog, lat, lng, dist, i))
    requires Annotated(catalog, lat, lng, dist, i) !in Fallback(catalog, lat, lng, radius, dist)
    ensures forall z :: z in Fallback(catalog, lat, lng, radius, dist) ==>
      DistanceOf(z) <= dist(lat, lng, catalog[i].lat, catalog[i].lng)
  {
    CandidatesFromCatalog(catalog, lat, lng, radius, dist);
    SortedPrefixIsNearest(Candidates(catalog, lat, lng, radius, dist), DistanceOf, FallbackLimit,
                          Annotated(catalog, lat, lng, dist, i));
  }

  // ---------------------------------------------------------------------
  // The /nearby handler

  /** What the upstream request did: threw (network failure, the 15 s abort,
      an unreadable body), answered with a non-OK status, or answered with a
      body whose `elements` field is `Some` list, or falsy (`None`). */
  datatype Upstream = Threw | NotOk(status: int) | Responded(elements: Option<seq<Element>>)

  /** The handler's answer; each is a distinct HTTP reply. */
  datatype NearbyReply =
    | InvalidQuery                     // 400 "lat and lng are required"
    | UpstreamFailed                   // 502 "Overpass API request failed"
    | LiveResult(zones: seq<Zone>)     // 200
    | FallbackResult(zones: seq<Zone>) // 200

  /** The HTTP status of each reply. */
  function StatusCode(r: NearbyReply): (code: int)
    ensures code == 200 <==> r.LiveResult? || r.FallbackResult?
    ensures r.InvalidQuery? <==> code == 400
    ensures r.UpstreamFailed? <==> code == 502
  {
    match r
    case InvalidQuery => 400
    case UpstreamFailed => 502
    case LiveResult(_) => 200
    case FallbackResult(_) => 200
  }

  /** `Number(req.query.radius || 10000)`: `None` is an absent or empty
      parameter; `Some(n)` is the number the parameter text converts to. */
  function RadiusOf(param: Option<JsNumber>): (r: JsNumber)
    ensures param.None? ==> r == Finite(10000.0)
    ensures param.Some? ==> r == param.value
  {
    param.GetOr(Finite(10000.0))
  }

  /** `GET /zones/nearby`. `lat` and `lng` are `Number(req.query.lat)` and
      `Number(req.query.lng)`; the upstream outcome is consulted only after
      both are found finite. `catalog` is the list the fallback is drawn
      from; `NearbyRoute` passes the built-in one. */
  function Nearby(catalog: seq<CatalogEntry>, lat: JsNumber, lng: JsNumber, radiusParam: Option<JsNumber>,
                  upstream: Upstream, dist: DistanceFn): (r: NearbyReply)
    // validation comes first, whatever the upstream would have done
    ensures r.InvalidQuery? <==> !IsFinite(lat) || !IsFinite(lng)
    // a non-OK status is a 502, never the fallback
    ensures r.UpstreamFailed? <==> IsFinite(lat) && IsFinite(lng) && upstream.NotOk?
    // a missing elements list is an empty live answer
    ensures IsFinite(lat) && IsFinite(lng) && upstream == Responded(None) ==> r == LiveResult([])
    // only a throw reaches the fallback
    ensures r.FallbackResult? <==>
      IsFinite(lat) && IsFinite(lng) &&
      (upstream.Threw? || (upstream.Responded? && upstream.elements.Some?
                           && LiveZones(upstream.elements.value).Throws?))
    ensures r.FallbackResult? ==> r.zones == Fallback(catalog, lat.value, lng.value, RadiusOf(radiusParam), dist)
    ensures r.LiveResult? && upstream.Responded? && upstream.elements.Some? ==>
      LiveZones(upstream.elements.value) == Returns(r.zones)
  {
    if !IsFinite(lat) || !IsFinite(lng) then InvalidQuery
    else
      var fallback := FallbackResult(Fallback(catalog, lat.value, lng.value, RadiusOf(radiusParam), dist));
      match upstream
      case Threw => fallback
      case NotOk(_) => UpstreamFailed
      case Responded(elements) =>
        match LiveZones(elements.GetOr([]))
        case Throws => fallback
        case Returns(zones) => LiveResult(zones)
  }

  /** `GET /zones/nearby` as routed, with the built-in catalog. A fallback
      answer holds at most 20 zones, nearest first with catalog order on
      ties, each one catalog entry i within the radius, carrying id
      1000 + i, that entry's name, and its distance from the query point. */
  function NearbyRoute(lat: JsNumber, lng: JsNumber, radiusParam: Option<JsNumber>,
                       upstream: Upstream, dist: DistanceFn): (r: NearbyReply)
    ensures r.InvalidQuery? <==> !IsFinite(lat) || !IsFinite(lng)
    ensures r.UpstreamFailed? <==> IsFinite(lat) && IsFinite(lng) && upstream.NotOk?
    ensures r.FallbackResult? ==> IsFinite(lat) && IsFinite(lng)
    ensures r.FallbackResult? ==> |r.zones| <= FallbackLimit
    ensures r.FallbackResult? ==> SortedBy(r.zones, DistanceOf) && TiesByRank(r.zones, DistanceOf, IdOf)
    ensures r.FallbackResult? ==> forall z :: z in r.zones ==>
      exists i :: 0 <= i < CatalogSize && z.id == Num((FallbackIdBase + i) as real)
        && z.name == Str(CatalogEntryAt(i).name)
        && z.distance == Some(dist(lat.value, lng.value, CatalogEntryAt(i).lat, CatalogEntryAt(i).lng))
    ensures r.FallbackResult? ==> forall z :: z in r.zones ==>
      z.distance.Some? && WithinRadius(z.distance.value, RadiusOf(radiusParam))
  {
    var r := Nearby(Catalog(), lat, lng, radiusParam, upstream, dist);
    if r.FallbackResult? then
      FallbackRanked(Catalog(), lat.value, lng.value, RadiusOf(radiusParam), dist);
      FallbackFromCatalogWithinRadius(Catalog(), lat.value, lng.value, RadiusOf(radiusParam), dist);
      r
    else r
  }

  /** `GET /zones`: the stored demo zones, unchanged. */
  method ListZones(store: Server.Store) returns (zs: seq<Zone>)
    ensures zs == store.zones
  {
    zs := store.zones;
  }
}
