# shield_r personal-safety app: a Dafny model

This project models the core of shield_r, a personal-safety web app, and
proves properties of that model.

The backend is an Express server. It keeps all state in one in-memory store:
- the SOS status;
- the last reported location;
- a list of emergency contacts;
- a seeded list of demo zones.

The model covers every route. `/zones/nearby` gets special attention. It
validates the query and asks the Overpass service for police stations,
hospitals, fire stations, shelters, industrial land and construction sites.
It maps each element to a zone and keeps only the positioned ones. When
anything in that path throws, it falls back to a built-in catalog of 50
Telangana zones: it annotates them with ids and distances, keeps those inside
the radius, and returns the nearest 20 in a stable order.

The React frontend contributes pure helpers and one small state machine:
- the contacts page's relationship icon, form payload and priority count;
- the location page's compass label and area name;
- the zones page's type filter, counts and labels;
- the SOS page's five-second quick-alert countdown.

Layout:

| file | module | what |
|---|---|---|
| js.dfy | `Js` | JavaScript values decoded from JSON, `Number(...)` results, truthiness, `??`, `\|\|`, `typeof === "number"` |
| seqs.dfy | `Seqs` | `filter`, `slice(0, n)` and the stable `sort` with a numeric-key comparator, with their properties |
| records.dfy | `Records` | zones, contacts, the SOS record and the location record |
| server.dfy | `Server` | the store, as a class whose fields the routes reassign, its initial contents, `/health` |
| zone_routes.dfy | `ZoneRoutes` | `mapZone`, `/zones`, `/zones/nearby` and its fallback |
| contact_routes.dfy | `ContactRoutes` | `/contacts` list, create, update and delete |
| sos_routes.dfy | `SosRoutes` | `/sos` read, trigger and resolve |
| location_routes.dfy | `LocationRoutes` | `/location` read and update |
| contacts_page.dfy | `ContactsPage` | relationship icons, `trim`, the submitted payload, the priority count |
| location_page.dfy | `LocationPage` | the compass label and the area name |
| zones_page.dfy | `ZonesPage` | the type filter, the statistics strip, the card labels, the radius options |
| sos_page.dfy | `SosPage` | the quick-alert countdown: a class and a step function over events |

Some inputs are parameters instead of modelled computations:
- the request clock (`Date.now()`, `toISOString()`);
- the distance function;
- the outcome of the upstream request;
- the text-to-number conversion of a form field.

The fallback catalog is a parameter of `Nearby` and of the fallback
functions and lemmas, so each fallback property is proved for any catalog.
`NearbyRoute` is the route as registered: it passes the built-in
`Catalog()`, whose fifty entries are those of `zones.js` in order, and
states the fallback properties for it.

## Model

| member | source | states |
|---|---|---|
| Js.Coalesce | Downloads/shield_r/backend/routes/contacts.js:41-42 | `a ?? b` is `b` exactly when `a` is null or undefined, else `a` |
| Js.Or | Downloads/shield_r/backend/routes/zones.js:20 | `a \|\| b` is `a` when `a` is truthy, else `b` |
| Js.NumberOrNull | Downloads/shield_r/backend/routes/sos.js:15-16 | `typeof v === "number" ? v : null` keeps exactly the numbers, unchanged |
| Js.NumberToJson | Downloads/shield_r/frontend/src/pages/Contacts.jsx:41 | a number reaches a JSON body as itself when finite, and as null when NaN or infinite |
| Seqs.Filter | Downloads/shield_r/backend/routes/zones.js:86 | `filter` keeps exactly the elements that pass, and never more than it was given |
| Seqs.FilterConcat | Downloads/shield_r/frontend/src/pages/Zones.jsx:147 | filtering distributes over concatenation, so relative order is kept |
| Seqs.FilterCountAll | Downloads/shield_r/frontend/src/pages/Contacts.jsx:138 | a filter keeps every element exactly when every element passes |
| Seqs.Take | Downloads/shield_r/backend/routes/zones.js:186 | `slice(0, n)` is a prefix of length `min(n, length)` |
| Seqs.SortByPermutes | Downloads/shield_r/backend/routes/contacts.js:4-5 | the sort returns a permutation of its input |
| Seqs.SortBySorted | Downloads/shield_r/backend/routes/contacts.js:4-5 | the sort returns its input in non-decreasing key order |
| Seqs.SortByStable | Downloads/shield_r/backend/routes/contacts.js:4-5 | stability: for every key, the elements with that key keep their relative order |
| Seqs.SortByTiesByRank | Downloads/shield_r/backend/routes/zones.js:185 | if the input is strictly increasing in some rank, the sorted output orders equal keys by that rank |
| Seqs.FilterKeepsIncreasing | Downloads/shield_r/backend/routes/zones.js:184 | a filter keeps a strictly increasing order |
| Seqs.SortedPrefixRanked | Downloads/shield_r/backend/routes/zones.js:184-186 | the first `n` of a stable sort of a rank-increasing input are sorted, break ties by rank, number at most `n`, and are the whole input when it has at most `n` elements |
| Seqs.SortedPrefixIsNearest | Downloads/shield_r/backend/routes/zones.js:185-186 | top-k: an element left out of the first `n` after sorting has a key no smaller than any element kept |
| Server.Store.constructor | Downloads/shield_r/backend/server.js:15-42 | the store starts with an inactive SOS, no location, no contacts and the twelve seeded zones |
| Server.SeededZones | Downloads/shield_r/backend/server.js:28-41 | the store starts with twelve demo zones |
| Server.SeededZonesNumbered | Downloads/shield_r/backend/server.js:28-41 | the demo zones carry ids 1 to 12, in order |
| Server.SeededZonesKinds | Downloads/shield_r/backend/server.js:28-41 | every demo zone is safe or avoid; none is danger |
| Server.SeededZonesPositioned | Downloads/shield_r/backend/server.js:28-41 | every demo zone has a latitude and a longitude and no distance |
| Server.Health | Downloads/shield_r/backend/server.js:44-46 | `/health` answers status "ok" with "Backend running" |
| ZoneRoutes.UnderscoresToSpaces | Downloads/shield_r/backend/routes/zones.js:32 | `replace(/_/g, " ")` keeps the length, turns every underscore into a space, leaves every other character, and leaves no underscore |
| ZoneRoutes.Classify | Downloads/shield_r/backend/routes/zones.js:22-33 | landuse "industrial" is danger/"Industrial area" and "construction" is avoid/"Construction", checked before `amenity`. Otherwise a truthy string amenity gives safe, labelled with underscores as spaces. A falsy amenity gives safe/"Safe". A truthy non-string amenity throws, exactly then. |
| ZoneRoutes.ZoneName | Downloads/shield_r/backend/routes/zones.js:20 | the name is `tags.name`, else `tags.operator`, else "Unnamed area", and is always truthy |
| ZoneRoutes.Coordinate | Downloads/shield_r/backend/routes/zones.js:35-36 | a coordinate is the element's own, else its center's, else null, and is never undefined |
| ZoneRoutes.MapZone | Downloads/shield_r/backend/routes/zones.js:16-45 | `mapZone` copies the id and takes type, category, name and coordinates as above. It throws exactly when the classification throws. |
| ZoneRoutes.MapAll | Downloads/shield_r/backend/routes/zones.js:86 | a successful `elements.map(mapZone)` has one zone per element |
| ZoneRoutes.MapAllPointwise | Downloads/shield_r/backend/routes/zones.js:86 | the map succeeds exactly when every element maps, and then its i-th zone is the i-th element's zone |
| ZoneRoutes.MapAllConcat | Downloads/shield_r/backend/routes/zones.js:86 | mapping two batches one after the other is mapping their concatenation |
| ZoneRoutes.LiveZones | Downloads/shield_r/backend/routes/zones.js:83-86 | the live answer throws exactly when the map throws |
| ZoneRoutes.LiveZonesKeepExactlyPositioned | Downloads/shield_r/backend/routes/zones.js:86 | the live answer holds exactly the mapped zones with truthy lat and lng, each from some element, and no more zones than there were elements |
| ZoneRoutes.LiveZonesKeepOrder | Downloads/shield_r/backend/routes/zones.js:86 | upstream order is kept: the answer for two batches is the first batch's answer followed by the second's |
| ZoneRoutes.AnnotatedCatalog | Downloads/shield_r/backend/routes/zones.js:178-183 | catalog entry i gets id 1000 + i and its distance from the query point |
| ZoneRoutes.CandidatesFromCatalog | Downloads/shield_r/backend/routes/zones.js:178-184 | the candidates are exactly the annotated catalog entries within the radius, in strictly increasing id order |
| ZoneRoutes.FallbackFromCatalogWithinRadius | Downloads/shield_r/backend/routes/zones.js:178-186 | every fallback zone is an annotated catalog entry within the radius; for a finite radius its distance is at most the radius |
| ZoneRoutes.FallbackRanked | Downloads/shield_r/backend/routes/zones.js:184-186 | the fallback is nearest first, equal distances in catalog order, at most 20 zones, and all the candidates when there are at most 20 |
| ZoneRoutes.FallbackNearest | Downloads/shield_r/backend/routes/zones.js:178-186 | no catalog zone within the radius that is left out is nearer than any zone returned |
| ZoneRoutes.StatusCode | Downloads/shield_r/backend/routes/zones.js:59-89 | an invalid query is exactly the 400, a failed upstream exactly the 502, and the live and fallback answers exactly the 200s |
| ZoneRoutes.RadiusOf | Downloads/shield_r/backend/routes/zones.js:55 | an absent radius parameter means 10000 metres; a given one is used as it is |
| ZoneRoutes.Nearby | Downloads/shield_r/backend/routes/zones.js:52-193 | 400 exactly when lat or lng is not finite, whatever the upstream did. 502 exactly on a non-OK upstream status. A missing `elements` gives an empty live answer. The fallback is used exactly when the request or the mapping throws, and is then drawn from the catalog given. Each answer's zones are as specified above. |
| ZoneRoutes.NearbyRoute | Downloads/shield_r/backend/routes/zones.js:52-186 | the route with the built-in catalog: 400 and 502 as for `Nearby`; a fallback answer has at most 20 zones, nearest first with catalog order on ties, each the catalog entry i within the radius with id 1000 + i, that entry's name and its distance from the query point |
| ZoneRoutes.Catalog | Downloads/shield_r/backend/routes/zones.js:93-165 | the catalog has fifty entries, entry i being the i-th listed |
| ZoneRoutes.ListZones | Downloads/shield_r/backend/routes/zones.js:48-50 | `GET /zones` answers the stored zones |
| ContactRoutes.GetSortedIsStableSort | Downloads/shield_r/backend/routes/contacts.js:4-5 | `getSorted` is a permutation sorted by `priority ?? 99`, with equal priorities in insertion order |
| ContactRoutes.MissingPrioritySortsAsNinetyNine | Downloads/shield_r/backend/routes/contacts.js:5 | a contact without priority comes after every contact with a priority below 99 |
| ContactRoutes.ListContacts | Downloads/shield_r/backend/routes/contacts.js:7-9 | `GET /contacts` answers the stored contacts stably sorted by effective priority |
| ContactRoutes.NewContact | Downloads/shield_r/backend/routes/contacts.js:11-26 | 400 "Name and phone are required" exactly when name or phone is falsy. Otherwise 201 with the given id, name and phone, and the priority kept exactly when it is a number. |
| ContactRoutes.NewContactIgnoresRelationship | Downloads/shield_r/backend/routes/contacts.js:12-23 | the `relationship` a client sends has no effect on the stored contact |
| ContactRoutes.CreateContact | Downloads/shield_r/backend/routes/contacts.js:11-27 | a created contact is appended at the end; a refused one leaves the list unchanged |
| ContactRoutes.FindIndex | Downloads/shield_r/backend/routes/contacts.js:33 | `findIndex` is -1 exactly when no contact has the id, else the first index holding it |
| ContactRoutes.Merged | Downloads/shield_r/backend/routes/contacts.js:39-44 | the id is kept. Name and phone are replaced unless the new value is null or undefined. The priority is replaced only by a number. |
| ContactRoutes.MergedCanBlankName | Downloads/shield_r/backend/routes/contacts.js:41 | an update with name "" stores a falsy name, which create would refuse |
| ContactRoutes.UpdateContact | Downloads/shield_r/backend/routes/contacts.js:29-48 | 404 with no change exactly when the id is absent; otherwise only the first matching contact is replaced, in place, by its merge |
| ContactRoutes.DeleteContact | Downloads/shield_r/backend/routes/contacts.js:50-61 | 404 with no change exactly when the id is absent; otherwise the first matching contact is removed and returned, the rest kept in order |
| SosRoutes.GetSos | Downloads/shield_r/backend/routes/sos.js:4-7 | `GET /sos` answers the stored record |
| SosRoutes.TriggerSos | Downloads/shield_r/backend/routes/sos.js:9-19 | the SOS becomes active at the request time, with the coordinates that are numbers (null otherwise), and the reply carries that time |
| SosRoutes.ResolveSos | Downloads/shield_r/backend/routes/sos.js:21-30 | the SOS becomes inactive at the request time with null coordinates, and the reply carries that time |
| LocationRoutes.GetLocation | Downloads/shield_r/backend/routes/location.js:4-6 | `GET /location` answers the stored record |
| LocationRoutes.UpdateLocation | Downloads/shield_r/backend/routes/location.js:8-19 | the location becomes the numeric coordinates (null otherwise) stamped with the request time, and the reply is the new record |
| ContactsPage.LowerChar | Downloads/shield_r/frontend/src/pages/Contacts.jsx:71 | each capital A to Z becomes the matching small letter, and every other character is unchanged |
| ContactsPage.ToLower | Downloads/shield_r/frontend/src/pages/Contacts.jsx:71 | `toLowerCase` lower-cases each character in place |
| ContactsPage.ToLowerKeepsLowerCase | Downloads/shield_r/frontend/src/pages/Contacts.jsx:71 | text without capitals is unchanged by lower-casing |
| ContactsPage.ToLowerIdempotent | Downloads/shield_r/frontend/src/pages/Contacts.jsx:71 | lower-casing twice is lower-casing once |
| ContactsPage.GlyphsDistinct | Downloads/shield_r/frontend/src/pages/Contacts.jsx:70-78 | the six icons are six different emoji |
| ContactsPage.RelationshipIcon | Downloads/shield_r/frontend/src/pages/Contacts.jsx:70-78 | no relationship gives the default icon. Otherwise each icon is chosen exactly when its keywords occur in the lower-cased text and no earlier group's keywords do. |
| ContactsPage.RelationshipIconIgnoresCase | Downloads/shield_r/frontend/src/pages/Contacts.jsx:71 | a relationship and its lower-cased form get the same icon |
| ContactsPage.NoKeywordDefaultIcon | Downloads/shield_r/frontend/src/pages/Contacts.jsx:77 | a relationship with no keyword gets the default icon |
| ContactsPage.FamilyFriendIsFamily | Downloads/shield_r/frontend/src/pages/Contacts.jsx:72-73 | "family friend" gets the family icon: the family keywords are tested first and win |
| ContactsPage.TrimStart | Downloads/shield_r/frontend/src/pages/Contacts.jsx:39 | what is left is a suffix with only white space dropped before it, and it does not start with white space |
| ContactsPage.TrimEnd | Downloads/shield_r/frontend/src/pages/Contacts.jsx:39 | what is left is a prefix with only white space dropped after it, and it does not end with white space |
| ContactsPage.Trim | Downloads/shield_r/frontend/src/pages/Contacts.jsx:39-42 | a trimmed text neither starts nor ends with white space |
| ContactsPage.TrimIdempotent | Downloads/shield_r/frontend/src/pages/Contacts.jsx:39-42 | trimming twice is trimming once |
| ContactsPage.SubmitPayload | Downloads/shield_r/frontend/src/pages/Contacts.jsx:38-43 | name, phone and relationship are trimmed; the priority is null exactly when its input is empty, else `Number` of the text |
| ContactsPage.PayloadOutcome | Downloads/shield_r/frontend/src/pages/Contacts.jsx:38-43 | the backend accepts a payload exactly when its name and phone are non-empty; it stores the priority exactly when the payload holds a finite number |
| ContactsPage.SubmittedFormOutcome | Downloads/shield_r/frontend/src/pages/Contacts.jsx:38-43 | the backend accepts a submitted form exactly when the trimmed name and phone are non-empty; it then stores a priority exactly when the priority input converts to a finite number |
| ContactsPage.FormAfterSubmit | Downloads/shield_r/frontend/src/pages/Contacts.jsx:36-49 | the form is cleared when the backend answers 2xx, and kept as typed on an error reply or a failed request |
| ContactsPage.SubmitClearsAcceptedForm | Downloads/shield_r/frontend/src/pages/Contacts.jsx:36-49 | submitting clears the form exactly when its trimmed name and phone are non-empty, and otherwise keeps it as typed |
| ContactsPage.PriorityContacts | Downloads/shield_r/frontend/src/pages/Contacts.jsx:138 | the figure is at most the total, and equals it exactly when every contact has a truthy priority |
| ContactsPage.PriorityContactsAdds | Downloads/shield_r/frontend/src/pages/Contacts.jsx:138 | the figure counts contacts one by one: one contact counts 1 exactly when its priority is truthy, and the figures of two lists add up |
| LocationPage.JsRound | Downloads/shield_r/frontend/src/pages/Location.jsx:8 | `Math.round` is the integer within a half below and strictly less than a half above |
| LocationPage.JsRemainder | Downloads/shield_r/frontend/src/pages/Location.jsx:8 | `%` agrees with the modulus on non-negative operands; on negative ones it is minus the remainder of the magnitude, so it lies in `(-n, 0]` |
| LocationPage.Direction | Downloads/shield_r/frontend/src/pages/Location.jsx:5-10 | a null heading reads ""; a NaN or infinite heading reads `undefined` |
| LocationPage.NonNegativeHeadingHasLabel | Downloads/shield_r/frontend/src/pages/Location.jsx:7-9 | a heading of 0 or more reads `directions[round(h/45) mod 8]`, always one of the eight labels |
| LocationPage.NorthWraps | Downloads/shield_r/frontend/src/pages/Location.jsx:8 | headings from 337.5 up to 360 read "N" |
| LocationPage.HalfRoundsUp | Downloads/shield_r/frontend/src/pages/Location.jsx:8 | 22.5 reads "NE": halves round up |
| LocationPage.FullTurn | Downloads/shield_r/frontend/src/pages/Location.jsx:8 | adding 360 to a non-negative heading does not change its label |
| LocationPage.NegativeHeading | Downloads/shield_r/frontend/src/pages/Location.jsx:8-9 | a negative heading reads a label exactly when its rounded sector is a multiple of 8, and the label is then "N" |
| LocationPage.FirstPresent | Downloads/shield_r/frontend/src/pages/Location.jsx:32-36 | `a \|\| b` on optional strings is `a` when present, else `b`, and is absent only when both are |
| LocationPage.Part | Downloads/shield_r/frontend/src/pages/Location.jsx:32-43 | a present part becomes one list entry and an absent one none |
| LocationPage.AreaParts | Downloads/shield_r/frontend/src/pages/Location.jsx:31-43 | at most four parts, none empty |
| LocationPage.Join | Downloads/shield_r/frontend/src/pages/Location.jsx:44 | `join` of one part is that part; with no empty part the result is "" exactly when there are no parts |
| LocationPage.AreaName | Downloads/shield_r/frontend/src/pages/Location.jsx:30-47 | the parts, gathered in the page's order, are joined with ", ". With none the name is `display_name`, else "Unknown Location". With no `address` it is "Unknown Location". It is never empty. |
| LocationPage.FullAddressName | Downloads/shield_r/frontend/src/pages/Location.jsx:31-44 | a full address reads "suburb, city, state, country" |
| LocationPage.CountryOnlyName | Downloads/shield_r/frontend/src/pages/Location.jsx:31-44 | an address with only a country reads as that country |
| ZonesPage.FilteredZones | Downloads/shield_r/frontend/src/pages/Zones.jsx:145-147 | "all" shows the list unchanged; any other value shows exactly the zones of that type |
| ZonesPage.FilteredZonesKeepOrder | Downloads/shield_r/frontend/src/pages/Zones.jsx:147 | the filter keeps the original order |
| ZonesPage.UnknownFilterShowsNothing | Downloads/shield_r/frontend/src/pages/Zones.jsx:147 | a filter value that is no zone type shows no zone |
| ZonesPage.ZoneStats | Downloads/shield_r/frontend/src/pages/Zones.jsx:149-153 | total is the list length; safe and avoid are the sizes of the "safe" and "avoid" filtered lists |
| ZonesPage.TypeCountsPartition | Downloads/shield_r/frontend/src/pages/Zones.jsx:149-153 | the safe, avoid and danger counts add up to the total |
| ZonesPage.StatsAccountForDanger | Downloads/shield_r/frontend/src/pages/Zones.jsx:149-153 | safe + avoid is at most the total, and the difference is exactly the danger zones |
| ZonesPage.TypeLabel | Downloads/shield_r/frontend/src/pages/Zones.jsx:303 | the label is "Unknown" exactly for danger zones, which have no entry in `typeLabels` |
| ZonesPage.CategoryLabel | Downloads/shield_r/frontend/src/pages/Zones.jsx:308 | an empty category shows "General area"; the label is never empty |
| ZonesPage.RadiusOptions | Downloads/shield_r/frontend/src/pages/Zones.jsx:227-230 | there are four options, 5000, 10000, 15000 and 20000, in increasing order, and they include the initial 10000 |
| SosPage.Step | Downloads/shield_r/frontend/src/pages/SOS.jsx:52-71 | a quick trigger sets 5 seconds and auto-send, and a cancel clears both. A tick sends exactly when 1 second is left and then clears both. Otherwise a tick counts down by one, and with no countdown it changes nothing. |
| SosPage.StepKeepsWellFormed | Downloads/shield_r/frontend/src/pages/SOS.jsx:52-71 | every event keeps "a countdown of 1 to 5 runs exactly when auto-send is on" |
| SosPage.IdleTicks | Downloads/shield_r/frontend/src/pages/SOS.jsx:62-71 | with no countdown, ticks send nothing and change nothing |
| SosPage.TicksCountDown | Downloads/shield_r/frontend/src/pages/SOS.jsx:63-64 | fewer ticks than the seconds left only count down, one per tick |
| SosPage.TicksFireOnce | Downloads/shield_r/frontend/src/pages/SOS.jsx:62-71 | once as many ticks as seconds left have passed, the SOS has been sent exactly once and the countdown is gone |
| SosPage.QuickAlertSendsOnFifthTick | Downloads/shield_r/frontend/src/pages/SOS.jsx:52-71 | after a quick trigger, four ticks send nothing and the fifth sends exactly once |
| SosPage.CancelStopsSending | Downloads/shield_r/frontend/src/pages/SOS.jsx:57-60 | after a cancel no number of ticks sends anything |
| SosPage.SendsAtMostOncePerTrigger | Downloads/shield_r/frontend/src/pages/SOS.jsx:52-71 | over any run of events, sends plus a still-running countdown never exceed the quick triggers plus a countdown running at the start |
| SosPage.RunningCountdownLocksButton | Downloads/shield_r/frontend/src/pages/SOS.jsx:154-162 | while a countdown runs the quick-alert button is disabled |
| SosPage.QuickAlert.constructor | Downloads/shield_r/frontend/src/pages/SOS.jsx:11-13 | the page starts with no countdown, auto-send off and an empty message |
| SosPage.QuickAlert.QuickTrigger | Downloads/shield_r/frontend/src/pages/SOS.jsx:52-55 | `handleQuickTrigger` moves the state as `Step` does and keeps it well formed |
| SosPage.QuickAlert.Cancel | Downloads/shield_r/frontend/src/pages/SOS.jsx:57-60 | `cancelCountdown` moves the state as `Step` does and keeps it well formed |
| SosPage.QuickAlert.Tick | Downloads/shield_r/frontend/src/pages/SOS.jsx:62-71 | a timer expiry and its effect move the state and report a send as `Step` does |
| SosPage.QuickAlert.EditMessage | Downloads/shield_r/frontend/src/pages/SOS.jsx:177 | typing sets the message |
| SosPage.QuickAlert.Resolve | Downloads/shield_r/frontend/src/pages/SOS.jsx:73-77 | `handleResolve` empties the message once `resolveSOS()` succeeds, and leaves it when the request fails |

Two behaviours the model makes visible:
- The contact form sends a `relationship`, but create and update never store one
  (`ContactRoutes.NewContactIgnoresRelationship`). A listed contact therefore has
  no relationship, and the page's relationship line and icon never appear
  (`Contacts.jsx:170-174`).
- Live answers from `/zones/nearby` can hold `danger` zones. The zones page
  labels them "Unknown" (`ZonesPage.TypeLabel`) and counts them only in the
  total (`ZonesPage.StatsAccountForDanger`).

## Left out
- The haversine distance (`calculateDistance`) is not modelled because it is floating-point trigonometry. It is a non-negative function parameter, so the fallback properties hold for any distance function.
- Floating point in general is not modelled: numbers are exact reals, and a NaN distance from rounding cannot occur. Nor is a JSON number too large for a double, which parses as Infinity.
- The Overpass request is an input to `Nearby`: the query text, `fetch`, the 15-second abort timer and its `clearTimeout`.
- `Nearby` folds every way the body can throw into `Threw`: unreadable JSON, a null body, an `elements` value that is truthy but not an array, or a `null` entry in `elements`, whose `tags` cannot be read. A falsy `elements` is `Responded(None)`.
- `Number(...)` on query strings and form text is not modelled; its result is an input (`JsNumber`, `toNumber`). `RadiusOf` takes the parameter after `||` and conversion, with an absent or empty parameter as `None`.
- The clock is a parameter: the contact id from `Date.now()` and the SOS and location times from `toISOString()`.
- Express plumbing is not modelled: routing, `cors`, JSON body parsing, `listen`, and the `req.body || {}` default. A missing body is the all-`Undefined` `ContactBody`.
- Console logging is not modelled.
- `ContactsPage.LowerChar` maps only the ASCII capitals A to Z; the Unicode case mapping of `toLowerCase` for other letters is not modelled.
- `ContactsPage.ToLower` lower-cases ASCII only, through `LowerChar`, for the same reason.
- Frontend rendering, styling, the map view, clipboard and share actions, `tel:`/`sms:` links and the `confirm` dialog are not modelled.
- Frontend I/O is not modelled: the API client module, the browser geolocation calls, the reverse-geocoding `fetch`, and its "Unable to fetch location name" failure path.
- React state mechanics are not modelled. `SosPage.QuickAlert.Tick` merges a timer expiry with the effect that follows it. The request `handleTrigger` sends and the refreshes after it are reported only as `fired`.
- The dashboard page and the components are not part of this model.
