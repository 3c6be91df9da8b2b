/** The `/contacts` routes: a list of emergency contacts kept in the shared
    store, read as a copy sorted by priority, appended to, updated in place
    and spliced. */
module ContactRoutes {
  import opened Js
  import opened Records
  import opened Seqs
  import Server

  /** The JSON body of a POST or PUT; a missing field reads as `Undefined`.
      `relationship` is sent by the frontend but never read here. */
  datatype ContactBody = ContactBody(name: JsValue, phone: JsValue, priority: JsValue, relationship: JsValue)

  /** An HTTP reply: a status with a body, or a status with a message. */
  datatype Reply<T> = Ok(code: int, body: T) | Error(code: int, message: string)

  /** The priority the sort compares: `contact.priority ?? 99`. */
  function EffectivePriority(c: Contact): real {
    c.priority.GetOr(99.0)
  }

  /** `getSorted`: a copy of the list, stably sorted by effective priority. */
  function GetSorted(contacts: seq<Contact>): seq<Contact> {
    SortBy(contacts, EffectivePriority)
  }

  /** The sorted copy holds the same contacts, lowest effective priority
      first, and contacts with equal effective priority stay in insertion
      order. */
  lemma GetSortedIsStableSort(contacts: seq<Contact>)
    ensures multiset(GetSorted(contacts)) == multiset(contacts)
    ensures SortedBy(GetSorted(contacts), EffectivePriority)
    ensures forall p :: WithKey(GetSorted(contacts), EffectivePriority, p)
                     == WithKey(contacts, EffectivePriority, p)
  {
    SortByPermutes(contacts, EffectivePriority);
    SortBySorted(contacts, EffectivePriority);
    forall p ensures WithKey(GetSorted(contacts), EffectivePriority, p)
                  == WithKey(contacts, EffectivePriority, p)
    {
      SortByStable(contacts, EffectivePriority, p);
    }
  }

  /** A contact without a priority sorts after every contact whose priority
      is below 99. */
  lemma MissingPrioritySortsAsNinetyNine(contacts: seq<Contact>, i: nat, j: nat)
    requires i < |GetSorted(contacts)| && j < |GetSorted(contacts)|
    requires GetSorted(contacts)[i].priority == None
    requires GetSorted(contacts)[j].priority.Some? && GetSorted(contacts)[j].priority.value < 99.0
    ensures j < i
  {
    SortBySorted(contacts, EffectivePriority);
  }

  /** `GET /contacts`: answers the sorted copy; the stored list is only read. */
  method ListContacts(store: Server.Store) returns (r: seq<Contact>)
    ensures multiset(r) == multiset(store.contacts)
    ensures SortedBy(r, EffectivePriority)
    ensures forall p :: WithKey(r, EffectivePriority, p) == WithKey(store.contacts, EffectivePriority, p)
  {
    r := GetSorted(store.contacts);
    GetSortedIsStableSort(store.contacts);
  }

  /** The reply `POST /contacts` gives for a body, with `id` the clock-derived
      id: 400 unless both name and phone are truthy, else 201 with the new
      contact, which keeps only id, name, phone and a finite priority. */
  function NewContact(id: string, body: ContactBody): (r: Reply<Contact>)
    ensures r.Error? <==> !Truthy(body.name) || !Truthy(body.phone)
    ensures r.Error? ==> r == Error(400, "Name and phone are required")
    ensures r.Ok? ==> r.code == 201 && r.body.id == id
    ensures r.Ok? ==> r.body.name == body.name && r.body.phone == body.phone
    ensures r.Ok? ==> (r.body.priority.Some? <==> body.priority.Num?)
    ensures r.Ok? && body.priority.Num? ==> r.body.priority.value == body.priority.n
  {
    if !Truthy(body.name) || !Truthy(body.phone) then Error(400, "Name and phone are required")
    else Ok(201, Contact(id, body.name, body.phone, NumberOrNull(body.priority)))
  }

  /** The relationship a client sends never reaches the stored contact. */
  lemma NewContactIgnoresRelationship(id: string, body: ContactBody, relationship: JsValue)
    ensures NewContact(id, body) == NewContact(id, body.(relationship := relationship))
  {
  }

  /** `POST /contacts`: on success exactly one contact is appended at the
      end; on a 400 the list is untouched. */
  method CreateContact(store: Server.Store, id: string, body: ContactBody) returns (reply: Reply<Contact>)
    modifies store`contacts
    ensures reply == NewContact(id, body)
    ensures reply.Error? ==> store.contacts == old(store.contacts)
    ensures reply.Ok? ==> store.contacts == old(store.contacts) + [reply.body]
  {
    reply := NewContact(id, body);
    if reply.Ok? {
      store.contacts := store.contacts + [reply.body];
    }
  }

  /** `contacts.findIndex(item => item.id === id)`: the first index holding
      that id, or -1 when none does. */
  function FindIndex(contacts: seq<Contact>, id: string): (r: int)
    ensures -1 <= r < |contacts|
    ensures r == -1 <==> forall i :: 0 <= i < |contacts| ==> contacts[i].id != id
    ensures r >= 0 ==> contacts[r].id == id && forall i :: 0 <= i < r ==> contacts[i].id != id
  {
    if contacts == [] then -1
    else if contacts[0].id == id then 0
    else
      var k := FindIndex(contacts[1..], id);
      if k == -1 then -1 else k + 1
  }

  /** The contact `PUT` writes back: `{ ...old, name: name ?? old.name,
      phone: phone ?? old.phone, priority: finite ? priority : old.priority }`. */
  function Merged(c: Contact, body: ContactBody): (r: Contact)
    ensures r.id == c.id
    // a name or phone is replaced unless null/undefined; "" does replace
    ensures r.name == if Nullish(body.name) then c.name else body.name
    ensures r.phone == if Nullish(body.phone) then c.phone else body.phone
    // the priority is replaced only by a finite number
    ensures r.priority == if body.priority.Num? then Some(body.priority.n) else c.priority
  {
    Contact(c.id, Coalesce(body.name, c.name), Coalesce(body.phone, c.phone),
            if body.priority.Num? then Some(body.priority.n) else c.priority)
  }

  /** Unlike `POST`, `PUT` accepts an empty name: a stored contact can end up
      with a falsy name, which `POST` would have refused. */
  lemma MergedCanBlankName(c: Contact, body: ContactBody)
    requires body.name == Str("")
    ensures !Truthy(Merged(c, body).name)
  {
  }

  /** `PUT /contacts/:id`: 404 with the list untouched when no contact has
      the id; otherwise the first contact with it is replaced, at the same
      index, by its merge with the body, and every other contact is
      unchanged. */
  method UpdateContact(store: Server.Store, id: string, body: ContactBody) returns (reply: Reply<Contact>)
    modifies store`contacts
    ensures reply.Error? <==> FindIndex(old(store.contacts), id) == -1
    ensures reply.Error? ==> reply == Error(404, "Contact not found") && store.contacts == old(store.contacts)
    ensures reply.Ok? ==>
      var k := FindIndex(old(store.contacts), id);
      && reply.code == 200
      && reply.body == Merged(old(store.contacts)[k], body)
      && store.contacts == old(store.contacts)[k := reply.body]
  {
    var index := FindIndex(store.contacts, id);
    if index == -1 {
      return Error(404, "Contact not found");
    }
    var updated := Merged(store.contacts[index], body);
    store.contacts := store.contacts[index := updated];
    reply := Ok(200, updated);
  }

  /** `DELETE /contacts/:id`: 404 with the list untouched when no contact
      has the id; otherwise the first contact with it is removed and
      returned, and the others keep their order. */
  method DeleteContact(store: Server.Store, id: string) returns (reply: Reply<Contact>)
    modifies store`contacts
    ensures reply.Error? <==> FindIndex(old(store.contacts), id) == -1
    ensures reply.Error? ==> reply == Error(404, "Contact not found") && store.contacts == old(store.contacts)
    ensures reply.Ok? ==>
      var k := FindIndex(old(store.contacts), id);
      && reply.code == 200
      && reply.body == old(store.contacts)[k]
      && reply.body.id == id
      && store.contacts == old(store.contacts)[..k] + old(store.contacts)[k + 1..]
      && |store.contacts| == |old(store.contacts)| - 1
  {
    var index := FindIndex(store.contacts, id);
    if index == -1 {
      return Error(404, "Contact not found");
    }
    var removed := store.contacts[index];
    store.contacts := store.contacts[..index] + store.contacts[index + 1..];
    reply := Ok(200, removed);
  }
}
