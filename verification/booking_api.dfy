/**
 The inquiry API of the photo-booth site: request bodies validated into input
 records, and the handlers that store bookings, contact messages and newsletter
 subscriptions in three collections. The database is a value holding one
 sequence per collection, in insertion order, plus a supply of fresh ids.
 */
module BookingApi {

  datatype Option<T> = None | Some(value: T)

  /** A JSON value as far as the text fields care: a string, null, or anything else. */
  datatype Json = JStr(text: string) | JNull | JOther

  type JsonObject = map<string, Json>

  /** Stands for a generated uuid; the store hands out each one once. */
  type Id = nat

  /** Cap on the documents a listing endpoint returns. */
  const ListLimit: nat := 1000

  const AlreadySubscribed: string := "Email already subscribed"

  datatype BookingInput = BookingInput(
    name: string,
    email: string,
    phone: string,
    event_type: string,
    event_date: string,
    booth_type: string,
    package_type: Option<string>,
    location: Option<string>,
    message: Option<string>)

  datatype Booking = Booking(
    id: Id,
    name: string,
    email: string,
    phone: string,
    event_type: string,
    event_date: string,
    booth_type: string,
    package_type: Option<string>,
    location: Option<string>,
    message: Option<string>)

  datatype ContactInput = ContactInput(name: string, email: string, phone: Option<string>, message: string)

  datatype Contact = Contact(id: Id, name: string, email: string, phone: Option<string>, message: string)

  datatype SubscriptionInput = SubscriptionInput(email: string)

  datatype Subscription = Subscription(id: Id, email: string)

  datatype Store = Store(
    bookings: seq<Booking>,
    contacts: seq<Contact>,
    newsletter: seq<Subscription>,
    nextId: Id)

  /** The HTTP answer of a create endpoint: the stored record, or an error status with its detail. */
  datatype Reply<T> = Created(record: T) | Rejected(status: int, detail: string)

  datatype Handled<T> = Handled(store: Store, reply: Reply<T>)

  // ---------------------------------------------------------------------------
  // Request bodies

  /** `v` is what a text field reads from `key`: the string there, or None when absent or null. */
  predicate Carries(body: JsonObject, key: string, v: Option<string>)
  {
    if key in body && body[key].JStr? then v == Some(body[key].text) else v == None
  }

  /** Every key of `keys` holds a string. */
  predicate TextAt(body: JsonObject, keys: set<string>)
  {
    forall k :: k in keys ==> k in body && body[k].JStr?
  }

  /** No key of `keys` holds something that is neither a string nor null. */
  predicate TextOrNullAt(body: JsonObject, keys: set<string>)
  {
    forall k :: k in keys && k in body ==> !body[k].JOther?
  }

  function RequiredText(body: JsonObject, key: string): Option<string>
  {
    if key in body && body[key].JStr? then Some(body[key].text) else None
  }

  /** Some(None) for an absent or null key; None when the value is of the wrong kind. */
  function OptionalText(body: JsonObject, key: string): Option<Option<string>>
  {
    if key !in body then Some(None)
    else match body[key]
      case JStr(t) => Some(Some(t))
      case JNull => Some(None)
      case JOther => None
  }

  /**
   The `EmailStr` field type: None for an address it refuses, otherwise the
   normalised address it yields, which is what the record then holds.
   */
  type EmailCheck = string -> Option<string>

  /**
   The check accepts every address it yields and leaves it as it is. Building
   the stored and the response records runs the check a second time on the
   already checked address; under this property that second run changes
   nothing.
   */
  ghost predicate RecheckStable(checkEmail: EmailCheck)
  {
    forall x :: checkEmail(x).Some? ==> checkEmail(checkEmail(x).value) == checkEmail(x)
  }

  /** The `email` key holds a string that the email check accepts. */
  predicate EmailAccepted(body: JsonObject, checkEmail: EmailCheck)
  {
    "email" in body && body["email"].JStr? && checkEmail(body["email"].text).Some?
  }

  /** `v` is the address the email check makes of the string under `email`. */
  predicate CarriesEmail(body: JsonObject, checkEmail: EmailCheck, v: string)
  {
    "email" in body && body["email"].JStr? && checkEmail(body["email"].text) == Some(v)
  }

  function RequiredEmail(body: JsonObject, checkEmail: EmailCheck): Option<string>
  {
    match RequiredText(body, "email")
    case Some(t) => checkEmail(t)
    case None => None
  }

  const BookingRequiredKeys: set<string> := {"name", "email", "phone", "event_type", "event_date", "booth_type"}
  const BookingOptionalKeys: set<string> := {"package_type", "location", "message"}

  /** Validation of a booking body; None is the framework's 422 answer. Unknown keys are ignored. */
  function ParseBookingInput(body: JsonObject, checkEmail: EmailCheck): (r: Option<BookingInput>)
    ensures r.Some? <==>
      TextAt(body, BookingRequiredKeys) && TextOrNullAt(body, BookingOptionalKeys) && EmailAccepted(body, checkEmail)
    ensures r.Some? ==>
      && Carries(body, "name", Some(r.value.name))
      && CarriesEmail(body, checkEmail, r.value.email)
      && Carries(body, "phone", Some(r.value.phone))
      && Carries(body, "event_type", Some(r.value.event_type))
      && Carries(body, "event_date", Some(r.value.event_date))
      && Carries(body, "booth_type", Some(r.value.booth_type))
      && Carries(body, "package_type", r.value.package_type)
      && Carries(body, "location", r.value.location)
      && Carries(body, "message", r.value.message)
  {
    match (RequiredText(body, "name"), RequiredEmail(body, checkEmail), RequiredText(body, "phone"),
           RequiredText(body, "event_type"), RequiredText(body, "event_date"), RequiredText(body, "booth_type"),
           OptionalText(body, "package_type"), OptionalText(body, "location"), OptionalText(body, "message"))
    case (Some(n), Some(e), Some(p), Some(et), Some(ed), Some(bt), Some(pk), Some(lo), Some(m)) =>
      Some(BookingInput(n, e, p, et, ed, bt, pk, lo, m))
    case _ => None
  }

  const ContactRequiredKeys: set<string> := {"name", "email", "message"}

  /** Validation of a contact body: `phone` may be left out, `message` may not. */
  function ParseContactInput(body: JsonObject, checkEmail: EmailCheck): (r: Option<ContactInput>)
    ensures r.Some? <==> TextAt(body, ContactRequiredKeys) && TextOrNullAt(body, {"phone"}) && EmailAccepted(body, checkEmail)
    ensures r.Some? ==>
      && Carries(body, "name", Some(r.value.name))
      && CarriesEmail(body, checkEmail, r.value.email)
      && Carries(body, "phone", r.value.phone)
      && Carries(body, "message", Some(r.value.message))
  {
    match (RequiredText(body, "name"), RequiredEmail(body, checkEmail),
           OptionalText(body, "phone"), RequiredText(body, "message"))
    case (Some(n), Some(e), Some(p), Some(m)) => Some(ContactInput(n, e, p, m))
    case _ => None
  }

  /** Validation of a newsletter body: a single required `email`. */
  function ParseSubscriptionInput(body: JsonObject, checkEmail: EmailCheck): (r: Option<SubscriptionInput>)
    ensures r.Some? <==> EmailAccepted(body, checkEmail)
    ensures r.Some? ==> CarriesEmail(body, checkEmail, r.value.email)
  {
    match RequiredEmail(body, checkEmail)
    case Some(e) => Some(SubscriptionInput(e))
    case None => None
  }

  // ---------------------------------------------------------------------------
  // Store invariants

  /** Every record's id was handed out before `next`, and no two records share one. */
  predicate IdsFresh<T>(xs: seq<T>, idOf: T -> Id, next: Id)
  {
    && (forall i :: 0 <= i < |xs| ==> idOf(xs[i]) < next)
    && (forall i, j :: 0 <= i < j < |xs| ==> idOf(xs[i]) != idOf(xs[j]))
  }

  /** The id supply is ahead of every stored record, and ids are unique per collection. */
  predicate Valid(st: Store)
  {
    && IdsFresh(st.bookings, (b: Booking) => b.id, st.nextId)
    && IdsFresh(st.contacts, (c: Contact) => c.id, st.nextId)
    && IdsFresh(st.newsletter, (n: Subscription) => n.id, st.nextId)
  }

  /** Some stored subscription has this email. */
  predicate EmailStored(subs: seq<Subscription>, email: string)
  {
    exists i :: 0 <= i < |subs| && subs[i].email == email
  }

  /** No two subscriptions share an email. */
  predicate EmailsUnique(subs: seq<Subscription>)
  {
    forall i, j :: 0 <= i < j < |subs| ==> subs[i].email != subs[j].email
  }

  /** The empty database with a fresh id supply. */
  function EmptyStore(): (st: Store)
    ensures Valid(st) && EmailsUnique(st.newsletter)
  {
    Store([], [], [], 0)
  }

  // ---------------------------------------------------------------------------
  // Handlers

  /** The fields a booking was created from. */
  function BookingInputOf(b: Booking): BookingInput
  {
    BookingInput(b.name, b.email, b.phone, b.event_type, b.event_date, b.booth_type,
                 b.package_type, b.location, b.message)
  }

  function ContactInputOf(c: Contact): ContactInput
  {
    ContactInput(c.name, c.email, c.phone, c.message)
  }

  /** `POST /api/bookings`: store the inquiry under a fresh id and answer with it. */
  function CreateBooking(st: Store, input: BookingInput): (r: Handled<Booking>)
    ensures r.reply.Created?
    ensures r.store.bookings == st.bookings + [r.reply.record]
    ensures BookingInputOf(r.reply.record) == input
    ensures forall i :: 0 <= i < |st.bookings| && Valid(st) ==> st.bookings[i].id != r.reply.record.id
    ensures r.store.contacts == st.contacts && r.store.newsletter == st.newsletter
    ensures Valid(st) ==> Valid(r.store)
  {
    var b := Booking(st.nextId, input.name, input.email, input.phone, input.event_type, input.event_date,
                     input.booth_type, input.package_type, input.location, input.message);
    Handled(st.(bookings := st.bookings + [b], nextId := st.nextId + 1), Created(b))
  }

  /** `POST /api/contact`: store the message under a fresh id and answer with it. */
  function CreateContact(st: Store, input: ContactInput): (r: Handled<Contact>)
    ensures r.reply.Created?
    ensures r.store.contacts == st.contacts + [r.reply.record]
    ensures ContactInputOf(r.reply.record) == input
    ensures forall i :: 0 <= i < |st.contacts| && Valid(st) ==> st.contacts[i].id != r.reply.record.id
    ensures r.store.bookings == st.bookings && r.store.newsletter == st.newsletter
    ensures Valid(st) ==> Valid(r.store)
  {
    var c := Contact(st.nextId, input.name, input.email, input.phone, input.message);
    Handled(st.(contacts := st.contacts + [c], nextId := st.nextId + 1), Created(c))
  }

  /** The lookup of one subscription by email, scanning in insertion order. */
  function FindByEmail(subs: seq<Subscription>, email: string): (r: Option<Subscription>)
    ensures r.Some? <==> EmailStored(subs, email)
    ensures r.Some? ==> r.value in subs && r.value.email == email
    decreases |subs|
  {
    if |subs| == 0 then None
    else if subs[0].email == email then Some(subs[0])
    else
      var rest := FindByEmail(subs[1..], email);
      assert EmailStored(subs[1..], email) <==> EmailStored(subs, email) by {
        if EmailStored(subs, email) {
          var i :| 0 <= i < |subs| && subs[i].email == email;
          assert subs[1..][i - 1].email == email;
        }
        if EmailStored(subs[1..], email) {
          var i :| 0 <= i < |subs[1..]| && subs[1..][i].email == email;
          assert subs[i + 1].email == email;
        }
      }
      rest
  }

  /**
   `POST /api/newsletter`: an email already subscribed is refused with 400 and
   nothing stored; a new one is stored under a fresh id.
   */
  function SubscribeNewsletter(st: Store, input: SubscriptionInput): (r: Handled<Subscription>)
    ensures r.reply.Rejected? <==> EmailStored(st.newsletter, input.email)
    ensures r.reply.Rejected? ==> r.reply == Rejected(400, AlreadySubscribed) && r.store == st
    ensures r.reply.Created? ==>
      && r.store.newsletter == st.newsletter + [r.reply.record]
      && r.reply.record.email == input.email
      && r.store.bookings == st.bookings && r.store.contacts == st.contacts
    ensures Valid(st) ==> Valid(r.store)
    ensures EmailsUnique(st.newsletter) ==> EmailsUnique(r.store.newsletter)
  {
    if FindByEmail(st.newsletter, input.email).Some? then
      Handled(st, Rejected(400, AlreadySubscribed))
    else
      var sub := Subscription(st.nextId, input.email);
      Handled(st.(newsletter := st.newsletter + [sub], nextId := st.nextId + 1), Created(sub))
  }

  /** A cursor drained into a list of at most `limit` documents, in cursor order. */
  function ToList<T>(docs: seq<T>, limit: nat): (r: seq<T>)
    ensures |r| <= limit
    ensures r <= docs
    ensures |r| < limit ==> r == docs
  {
    if |docs| <= limit then docs else docs[..limit]
  }

  /** `GET /api/bookings`: the first 1000 stored bookings (all of them if fewer), the store untouched. */
  function ListBookings(st: Store): (r: seq<Booking>)
    ensures |r| == if |st.bookings| <= ListLimit then |st.bookings| else ListLimit
    ensures r <= st.bookings
  {
    ToList(st.bookings, ListLimit)
  }

  /** `GET /api/contact`: the first 1000 stored contact messages (all of them if fewer), the store untouched. */
  function ListContacts(st: Store): (r: seq<Contact>)
    ensures |r| == if |st.contacts| <= ListLimit then |st.contacts| else ListLimit
    ensures r <= st.contacts
  {
    ToList(st.contacts, ListLimit)
  }

  // ---------------------------------------------------------------------------
  // Sequences of requests

  /** A validated request to one of the five endpoints. */
  datatype Request =
    | PostBooking(booking: BookingInput)
    | PostContact(contact: ContactInput)
    | PostNewsletter(subscription: SubscriptionInput)
    | GetBookings
    | GetContacts

  /** The store after one request; the listings read it without changing it. */
  function Serve(st: Store, req: Request): Store
  {
    match req
    case PostBooking(b) => CreateBooking(st, b).store
    case PostContact(c) => CreateContact(st, c).store
    case PostNewsletter(n) => SubscribeNewsletter(st, n).store
    case GetBookings => st
    case GetContacts => st
  }

  /** The store after requests handled one at a time, the first one first. */
  function ServeAll(st: Store, reqs: seq<Request>): Store
    decreases |reqs|
  {
    if |reqs| == 0 then st else ServeAll(Serve(st, reqs[0]), reqs[1..])
  }

  /**
   Handled one after another, any requests keep the id supply fresh and the
   newsletter free of duplicate emails.
   */
  lemma {:induction false} ServeAllKeepsInvariants(st: Store, reqs: seq<Request>)
    requires Valid(st) && EmailsUnique(st.newsletter)
    ensures Valid(ServeAll(st, reqs)) && EmailsUnique(ServeAll(st, reqs).newsletter)
    decreases |reqs|
  {
    if |reqs| > 0 {
      ServeAllKeepsInvariants(Serve(st, reqs[0]), reqs[1..]);
    }
  }

  /** From an empty database, no sequence of requests stores one email twice. */
  lemma NewsletterEmailsUnique(reqs: seq<Request>)
    ensures EmailsUnique(ServeAll(EmptyStore(), reqs).newsletter)
  {
    ServeAllKeepsInvariants(EmptyStore(), reqs);
  }

  /** The emails held by subscriptions. */
  function Emails(subs: seq<Subscription>): set<string>
  {
    set i | 0 <= i < |subs| :: subs[i].email
  }

  /** The emails that newsletter requests asked for. */
  function RequestedEmails(reqs: seq<Request>): set<string>
    decreases |reqs|
  {
    if |reqs| == 0 then {}
    else (if reqs[0].PostNewsletter? then {reqs[0].subscription.email} else {}) + RequestedEmails(reqs[1..])
  }

  /** One request adds its email, if any, to the subscribed emails and nothing else. */
  lemma ServeEmails(st: Store, req: Request)
    ensures Emails(Serve(st, req).newsletter)
         == Emails(st.newsletter) + (if req.PostNewsletter? then {req.subscription.email} else {})
  {
    if req.PostNewsletter? {
      var h := SubscribeNewsletter(st, req.subscription);
      var e := req.subscription.email;
      if h.reply.Rejected? {
        var i :| 0 <= i < |st.newsletter| && st.newsletter[i].email == e;
        assert e in Emails(st.newsletter);
      } else {
        var ns := st.newsletter + [h.reply.record];
        assert ns[|st.newsletter|].email == e;
        forall x | x in Emails(ns)
          ensures x in Emails(st.newsletter) + {e}
        {
          var i :| 0 <= i < |ns| && ns[i].email == x;
          if i < |st.newsletter| {
            assert st.newsletter[i].email == x;
          }
        }
        forall x | x in Emails(st.newsletter)
          ensures x in Emails(ns)
        {
          var i :| 0 <= i < |st.newsletter| && st.newsletter[i].email == x;
          assert ns[i].email == x;
        }
      }
    }
  }

  /**
   Whatever order the requests come in, the subscribed emails end up being
   exactly those stored before plus every email a newsletter request asked for.
   */
  lemma {:induction false} ServeAllEmails(st: Store, reqs: seq<Request>)
    ensures Emails(ServeAll(st, reqs).newsletter) == Emails(st.newsletter) + RequestedEmails(reqs)
    decreases |reqs|
  {
    if |reqs| > 0 {
      ServeEmails(st, reqs[0]);
      ServeAllEmails(Serve(st, reqs[0]), reqs[1..]);
    }
  }

  /** The number of booking requests in a sequence. */
  function BookingPosts(reqs: seq<Request>): nat
    decreases |reqs|
  {
    if |reqs| == 0 then 0 else (if reqs[0].PostBooking? then 1 else 0) + BookingPosts(reqs[1..])
  }

  /** Each booking request stores exactly one booking, and nothing removes one. */
  lemma {:induction false} ServeAllBookingCount(st: Store, reqs: seq<Request>)
    ensures st.bookings <= ServeAll(st, reqs).bookings
    ensures |ServeAll(st, reqs).bookings| == |st.bookings| + BookingPosts(reqs)
    decreases |reqs|
  {
    if |reqs| > 0 {
      ServeAllBookingCount(Serve(st, reqs[0]), reqs[1..]);
    }
  }
}
