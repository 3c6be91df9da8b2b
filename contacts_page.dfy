/** The contacts page's pure helpers: the icon shown for a relationship,
    the payload the add-contact form submits, and the "Priority Contacts"
    figure. */
module ContactsPage {
  import opened Js
  import opened Records
  import opened Seqs
  import ContactRoutes

  // ---------------------------------------------------------------------
  // Relationship icons

  /** The icons `getRelationshipIcon` can return. */
  datatype Icon = FamilyIcon | FriendIcon | WorkIcon | NeighborIcon | PartnerIcon | PersonIcon

  /** The emoji `getRelationshipIcon` returns for each icon. */
  function Glyph(i: Icon): string {
    match i
    case FamilyIcon => "\U{1F468}\U{200D}\U{1F469}\U{200D}\U{1F467}\U{200D}\U{1F466}"
    case FriendIcon => "\U{1F91D}"
    case WorkIcon => "\U{1F4BC}"
    case NeighborIcon => "\U{1F3D8}\U{FE0F}"
    case PartnerIcon => "\U{1F491}"
    case PersonIcon => "\U{1F464}"
  }

  /** Different icons show different emoji, so naming the icon loses
      nothing of what the page renders. */
  lemma GlyphsDistinct(a: Icon, b: Icon)
    ensures a != b ==> Glyph(a) != Glyph(b)
  {
  }

  /** `toLowerCase` on one character (letters A to Z only). */
  function LowerChar(c: char): (r: char)
    ensures !('A' <= r <= 'Z')
    ensures 'A' <= c <= 'Z' ==> 'a' <= r <= 'z' && r as int - 'a' as int == c as int - 'A' as int
    ensures 'a' <= c <= 'z' || !('A' <= c <= 'Z') ==> r == c
  {
    if 'A' <= c <= 'Z' then (c as int - 'A' as int + 'a' as int) as char else c
  }

  function ToLower(s: string): (r: string)
    ensures |r| == |s|
    ensures forall i :: 0 <= i < |s| ==> r[i] == LowerChar(s[i])
  {
    if s == [] then [] else [LowerChar(s[0])] + ToLower(s[1..])
  }

  /** Lower-casing twice is lower-casing once. */
  lemma ToLowerIdempotent(s: string)
    ensures ToLower(ToLower(s)) == ToLower(s)
  {
    assert forall i :: 0 <= i < |s| ==> LowerChar(LowerChar(s[i])) == LowerChar(s[i]);
  }

  /** `s.includes(sub)`: `sub` starts at some position of `s`. */
  predicate Contains(s: string, sub: string)
    decreases |s|
  {
    sub <= s || (s != [] && Contains(s[1..], sub))
  }

  predicate FamilyWord(rel: string) {
    Contains(rel, "family") || Contains(rel, "parent") || Contains(rel, "sibling")
  }

  predicate FriendWord(rel: string) { Contains(rel, "friend") }

  predicate WorkWord(rel: string) { Contains(rel, "work") || Contains(rel, "colleague") }

  predicate NeighborWord(rel: string) { Contains(rel, "neighbor") }

  predicate PartnerWord(rel: string) { Contains(rel, "partner") || Contains(rel, "spouse") }

  /** `getRelationshipIcon(relationship)`: `None` is null or undefined. The
      lower-cased text is tested against the keyword groups in a fixed
      order and the first group found wins. */
  function RelationshipIcon(relationship: Option<string>): (r: Icon)
    ensures relationship.None? ==> r == PersonIcon
    ensures relationship.Some? ==>
      var rel := ToLower(relationship.value);
      && (r == FamilyIcon <==> FamilyWord(rel))
      && (r == FriendIcon <==> !FamilyWord(rel) && FriendWord(rel))
      && (r == WorkIcon <==> !FamilyWord(rel) && !FriendWord(rel) && WorkWord(rel))
      && (r == NeighborIcon <==>
            !FamilyWord(rel) && !FriendWord(rel) && !WorkWord(rel) && NeighborWord(rel))
      && (r == PartnerIcon <==>
            !FamilyWord(rel) && !FriendWord(rel) && !WorkWord(rel) && !NeighborWord(rel)
            && PartnerWord(rel))
  {
    var rel := if relationship.Some? then ToLower(relationship.value) else "";
    if FamilyWord(rel) then FamilyIcon
    else if FriendWord(rel) then FriendIcon
    else if WorkWord(rel) then WorkIcon
    else if NeighborWord(rel) then NeighborIcon
    else if PartnerWord(rel) then PartnerIcon
    else PersonIcon
  }

  /** The match ignores case: a relationship and its lower-cased form get
      the same icon. */
  lemma RelationshipIconIgnoresCase(relationship: string)
    ensures RelationshipIcon(Some(relationship)) == RelationshipIcon(Some(ToLower(relationship)))
  {
    ToLowerIdempotent(relationship);
  }

  /** A relationship naming no keyword gets the default icon. */
  lemma NoKeywordDefaultIcon(relationship: string)
    requires var rel := ToLower(relationship);
      !FamilyWord(rel) && !FriendWord(rel) && !WorkWord(rel) && !NeighborWord(rel) && !PartnerWord(rel)
    ensures RelationshipIcon(Some(relationship)) == PersonIcon
  {
  }

  /** Text without capitals is left as it is by lower-casing. */
  lemma ToLowerKeepsLowerCase(s: string)
    requires forall i :: 0 <= i < |s| ==> !('A' <= s[i] <= 'Z')
    ensures ToLower(s) == s
  {
  }

  /** Earlier groups win: "family friend" gets the family icon, not the
      friend icon. */
  lemma FamilyFriendIsFamily()
    ensures RelationshipIcon(Some("family friend")) == FamilyIcon
  {
    ToLowerKeepsLowerCase("family friend");
    assert FamilyWord("family friend");
  }

  // ---------------------------------------------------------------------
  // The add-contact form

  /** The form's four text inputs. */
  datatype Form = Form(name: string, phone: string, priority: string, relationship: string)

  const EmptyForm := Form("", "", "", "")

  /** The characters `String.prototype.trim` strips: white space and line
      terminators. */
  predicate IsTrimmed(c: char) {
    c == ' ' || c == '\t' || c == '\n' || c == '\r' || c == '\U{000B}' || c == '\U{000C}'
    || c == '\U{00A0}' || c == '\U{1680}' || ('\U{2000}' <= c <= '\U{200A}')
    || c == '\U{2028}' || c == '\U{2029}' || c == '\U{202F}' || c == '\U{205F}'
    || c == '\U{3000}' || c == '\U{FEFF}'
  }

  /** Drops the leading white space: what is left is a suffix of `s` that
      does not start with white space. */
  function TrimStart(s: string): (r: string)
    ensures |r| <= |s| && r == s[|s| - |r|..]
    ensures forall i :: 0 <= i < |s| - |r| ==> IsTrimmed(s[i])
    ensures r == [] || !IsTrimmed(r[0])
  {
    if s != [] && IsTrimmed(s[0]) then TrimStart(s[1..]) else s
  }

  /** Drops the trailing white space: what is left is a prefix of `s` that
      does not end with white space. */
  function TrimEnd(s: string): (r: string)
    ensures |r| <= |s| && r == s[..|r|]
    ensures forall i :: |r| <= i < |s| ==> IsTrimmed(s[i])
    ensures r == [] || !IsTrimmed(r[|r| - 1])
  {
    if s != [] && IsTrimmed(s[|s| - 1]) then TrimEnd(s[..|s| - 1]) else s
  }

  /** `s.trim()` */
  function Trim(s: string): (r: string)
    ensures r == [] || (!IsTrimmed(r[0]) && !IsTrimmed(r[|r| - 1]))
  {
    TrimEnd(TrimStart(s))
  }

  lemma {:induction false} TrimStartOfClean(s: string)
    requires s == [] || !IsTrimmed(s[0])
    ensures TrimStart(s) == s
  {
  }

  lemma {:induction false} TrimEndOfClean(s: string)
    requires s == [] || !IsTrimmed(s[|s| - 1])
    ensures TrimEnd(s) == s
  {
  }

  /** Trimming twice is trimming once. */
  lemma TrimIdempotent(s: string)
    ensures Trim(Trim(s)) == Trim(s)
  {
    var t := Trim(s);
    TrimStartOfClean(t);
    TrimEndOfClean(t);
  }

  /** The body `handleSubmit` sends; `priority` is `None` for null. */
  datatype Payload = Payload(name: string, phone: string, priority: Option<JsNumber>, relationship: string)

  /** The payload built from the form: three trimmed texts, and the
      priority null when its input is empty, else `Number(text)` (the
      conversion is the parameter `toNumber`). */
  function SubmitPayload(form: Form, toNumber: string -> JsNumber): (p: Payload)
    ensures p.name == Trim(form.name) && p.phone == Trim(form.phone)
    ensures p.relationship == Trim(form.relationship)
    ensures p.priority.None? <==> form.priority == ""
    ensures p.priority.Some? ==> p.priority.value == toNumber(form.priority)
  {
    Payload(Trim(form.name), Trim(form.phone),
            if form.priority == "" then None else Some(toNumber(form.priority)),
            Trim(form.relationship))
  }

  /** The payload as the backend reads it after `JSON.stringify`: a NaN or
      infinite priority arrives as null. */
  function AsRequestBody(p: Payload): ContactRoutes.ContactBody {
    ContactRoutes.ContactBody(Str(p.name), Str(p.phone),
                              if p.priority.Some? then NumberToJson(p.priority.value) else Null,
                              Str(p.relationship))
  }

  /** How the backend answers a payload: accepted exactly when name and
      phone are non-empty, keeping a priority exactly when it is finite. */
  lemma PayloadOutcome(id: string, p: Payload)
    ensures var reply := ContactRoutes.NewContact(id, AsRequestBody(p));
      && (reply.Ok? <==> p.name != "" && p.phone != "")
      && (reply.Ok? ==> reply.body.name == Str(p.name))
      && (reply.Ok? ==> (reply.body.priority.Some? <==> p.priority.Some? && p.priority.value.Finite?))
      && (reply.Ok? && reply.body.priority.Some? ==> reply.body.priority.value == p.priority.value.value)
  {
    var body := AsRequestBody(p);
    assert Truthy(body.name) <==> p.name != "";
    assert Truthy(body.phone) <==> p.phone != "";
  }

  /** The backend accepts a submitted form exactly when its name and phone
      are not blank, and then stores a priority exactly when the priority
      input converts to a finite number. */
  lemma SubmittedFormOutcome(id: string, form: Form, toNumber: string -> JsNumber)
    ensures var reply := ContactRoutes.NewContact(id, AsRequestBody(SubmitPayload(form, toNumber)));
      && (reply.Ok? <==> Trim(form.name) != "" && Trim(form.phone) != "")
      && (reply.Ok? ==> reply.body.name == Str(Trim(form.name)))
      && (reply.Ok? ==> (reply.body.priority.Some? <==>
                           form.priority != "" && toNumber(form.priority).Finite?))
      && (reply.Ok? && reply.body.priority.Some? ==>
            reply.body.priority.value == toNumber(form.priority).value)
  {
    PayloadOutcome(id, SubmitPayload(form, toNumber));
  }

  /** The form after a submission, given the backend's reply (`None` when
      the request itself failed): `createContact` resolves only on a 2xx
      reply, and only then is the form cleared; otherwise the error is
      shown and the form kept as typed. */
  function FormAfterSubmit(form: Form, reply: Option<ContactRoutes.Reply<Contact>>): (f: Form)
    ensures reply.Some? && reply.value.Ok? ==> f == EmptyForm
    ensures reply.None? || reply.value.Error? ==> f == form
  {
    if reply.Some? && reply.value.Ok? then EmptyForm else form
  }

  /** Submitting a form clears it exactly when its trimmed name and phone
      are both non-empty; any other form stays as typed. */
  lemma SubmitClearsAcceptedForm(id: string, form: Form, toNumber: string -> JsNumber)
    ensures var reply := ContactRoutes.NewContact(id, AsRequestBody(SubmitPayload(form, toNumber)));
      FormAfterSubmit(form, Some(reply))
        == if Trim(form.name) != "" && Trim(form.phone) != "" then EmptyForm else form
  {
    SubmittedFormOutcome(id, form, toNumber);
  }

  // ---------------------------------------------------------------------
  // The statistics strip

  /** `c.priority` is truthy: present and not 0. */
  predicate HasPriority(c: Contact) {
    c.priority.Some? && c.priority.value != 0.0
  }

  /** `contacts.filter(c => c.priority).length`: the contacts with a truthy
      priority; all of them exactly when the figure equals the total. */
  function PriorityContacts(contacts: seq<Contact>): (n: nat)
    ensures n <= |contacts|
    ensures n == |contacts| <==> forall i :: 0 <= i < |contacts| ==> HasPriority(contacts[i])
  {
    FilterCountAll(contacts, HasPriority);
    |Filter(contacts, HasPriority)|
  }

  /** The figure counts contacts one by one: a contact adds one exactly when
      its priority is truthy, and the counts of two lists add up. */
  lemma PriorityContactsAdds(a: seq<Contact>, b: seq<Contact>, c: Contact)
    ensures PriorityContacts(a + b) == PriorityContacts(a) + PriorityContacts(b)
    ensures PriorityContacts([c]) == if HasPriority(c) then 1 else 0
  {
    FilterConcat(a, b, HasPriority);
    assert [c][1..] == [];
  }
}
