/** The `/api/bookings` route: the bookings collection, keyed by the lower-case hex
  * spelling of each booking's ObjectId, with list, create, status update and delete. */
module Bookings {
  import opened Common
  import opened Text
  import opened BookingData
  import opened ObjectIds
  import Email
  import Sorting

  /** The fields a booking POST must carry, in the order the error message lists them. */
  const RequiredFields: seq<string> :=
    ["name", "email", "phone", "service", "vehicleBrand", "vehicleModel", "bookingDate", "bookingTime"]

  /** `body[field]` for the required fields. */
  function Field(req: BookingRequest, f: string): Option<string> {
    if f == "name" then req.name
    else if f == "email" then req.email
    else if f == "phone" then req.phone
    else if f == "service" then req.service
    else if f == "vehicleBrand" then req.vehicleBrand
    else if f == "vehicleModel" then req.vehicleModel
    else if f == "bookingDate" then req.bookingDate
    else if f == "bookingTime" then req.bookingTime
    else None
  }

  predicate Complete(req: BookingRequest) {
    && Given(req.name) && Given(req.email) && Given(req.phone) && Given(req.service)
    && Given(req.vehicleBrand) && Given(req.vehicleModel)
    && Given(req.bookingDate) && Given(req.bookingTime)
  }

  /** `a` is `b` with some elements left out. */
  predicate SubsequenceOf(a: seq<string>, b: seq<string>)
    decreases |b|
  {
    if a == [] then true
    else if b == [] then false
    else (a[0] == b[0] && SubsequenceOf(a[1..], b[1..])) || SubsequenceOf(a, b[1..])
  }

  function Missing(req: BookingRequest, fields: seq<string>): (r: seq<string>)
    ensures SubsequenceOf(r, fields)
    ensures forall f :: f in r <==> f in fields && !Given(Field(req, f))
  {
    if fields == [] then []
    else
      var rest := Missing(req, fields[1..]);
      if Given(Field(req, fields[0])) then rest else [fields[0]] + rest
  }

  /** `requiredFields.filter(field => !body[field])`: the absent or empty required
    * fields, in the order of `RequiredFields`; none is missing exactly when the
    * request is complete. */
  function MissingFields(req: BookingRequest): (r: seq<string>)
    ensures SubsequenceOf(r, RequiredFields)
    ensures forall f :: f in r <==> f in RequiredFields && !Given(Field(req, f))
    ensures r == [] <==> Complete(req)
  {
    var r := Missing(req, RequiredFields);
    AllGiven(req);
    assert r != [] ==> r[0] in r;
    r
  }

  lemma AllGiven(req: BookingRequest)
    ensures (forall f :: f in RequiredFields ==> Given(Field(req, f))) <==> Complete(req)
  {
    if Complete(req) {
      forall f | f in RequiredFields ensures Given(Field(req, f)) {
        var i :| 0 <= i < 8 && RequiredFields[i] == f;
      }
    } else {
      var n := if !Given(req.name) then 0 else if !Given(req.email) then 1
        else if !Given(req.phone) then 2 else if !Given(req.service) then 3
        else if !Given(req.vehicleBrand) then 4 else if !Given(req.vehicleModel) then 5
        else if !Given(req.bookingDate) then 6 else 7;
      assert !Given(Field(req, RequiredFields[n]));
    }
  }

  function MissingMessage(missing: seq<string>): string {
    "Missing required fields: " + Join(missing, ", ")
  }

  /** The record a complete POST inserts: the required fields as sent, defaults for
    * the optional ones, status `pending`, both timestamps `now`. */
  function NewBooking(req: BookingRequest, now: int): Booking
    requires Complete(req)
  {
    Booking(
      name := req.name.value,
      email := req.email.value,
      phone := req.phone.value,
      service := req.service.value,
      serviceName := Or(req.serviceName, ""),
      serviceType := Or(req.serviceType, "general"),
      additionalServices := if req.additionalServices.Some? then req.additionalServices.value else [],
      vehicleBrand := req.vehicleBrand.value,
      vehicleModel := req.vehicleModel.value,
      bookingDate := req.bookingDate.value,
      bookingTime := req.bookingTime.value,
      notes := Or(req.notes, ""),
      status := "pending",
      createdAt := now,
      updatedAt := now)
  }

  /** The `$set` of a status update: the given status, or `confirmed` when none is
    * given, and a new `updatedAt`; every other field is kept. */
  function Confirm(b: Booking, status: Option<string>, now: int): Booking {
    b.(status := Or(status, "confirmed"), updatedAt := now)
  }

  /** `sort({createdAt: -1})`: newest first. */
  function NewestFirst(): (Booking, Booking) -> bool {
    (a: Booking, b: Booking) => a.createdAt >= b.createdAt
  }

  lemma NewestFirstPreorder()
    ensures Sorting.Preorder(NewestFirst())
  {
  }

  const ConfirmedMessage := "Booking confirmed! Confirmation email sent."
  const MailFailedMessage := "Booking confirmed, but email failed: "

  class BookingStore {
    var records: map<string, Booking>

    ghost predicate Valid()
      reads this
    {
      forall k :: k in records ==> IsStoredKey(k)
    }

    constructor ()
      ensures records == map[] && Valid()
    {
      records := map[];
    }

    /** GET: every booking once, newest first. */
    method List() returns (r: seq<(string, Booking)>)
      ensures multiset(Sorting.Ids(r)) == multiset(records.Keys)
      ensures forall i :: 0 <= i < |r| ==> r[i].0 in records && records[r[i].0] == r[i].1
      ensures forall i, j :: 0 <= i < j < |r| ==> r[i].1.createdAt >= r[j].1.createdAt
    {
      NewestFirstPreorder();
      r := Sorting.SortedEntries(records, NewestFirst());
    }

    /** POST: an incomplete request is refused with the list of missing fields; a
      * complete one is stored under the id the database assigns (`newId`), then the
      * notification mails are attempted and their failure does not change the reply. */
    method Post(req: BookingRequest, newId: string, now: int, env: Email.Env, smtp: seq<Option<string>>)
      returns (reply: Reply, created: Option<Booking>, notice: Option<Email.Delivery>)
      requires Valid()
      requires IsStoredKey(newId) && newId !in records
      modifies this
      ensures Valid()
      ensures !Complete(req) ==>
                && reply == BadRequest(MissingMessage(MissingFields(req)))
                && created == None && notice == None && records == old(records)
      ensures Complete(req) ==>
                && reply == Ok
                && created == Some(NewBooking(req, now))
                && records == old(records)[newId := NewBooking(req, now)]
                && notice == Some(Email.BookingNotification(NewBooking(req, now), env, smtp))
    {
      var missing := MissingFields(req);
      if missing != [] {
        reply, created, notice := BadRequest(MissingMessage(missing)), None, None;
        return;
      }
      var booking := NewBooking(req, now);
      records := records[newId := booking];
      var delivery := Email.SendBookingNotification(booking, env, smtp);
      reply, created, notice := Ok, Some(booking), Some(delivery);
    }

    /** PUT: sets the status (`confirmed` when none is given) of an existing booking,
      * then mails the customer only when the request said `confirmed`. */
    method Put(id: Option<string>, status: Option<string>, now: int, env: Email.Env, smtp: seq<Option<string>>)
      returns (reply: Reply, emailSent: bool, message: string)
      requires Valid()
      modifies this
      ensures Valid()
      ensures reply != Ok ==> records == old(records) && !emailSent
      ensures !Given(id) ==> reply == BadRequest("Booking ID is required")
      ensures Given(id) && !IsObjectIdHex(id.value) ==> reply == BadRequest("Invalid booking ID format")
      ensures Given(id) && IsObjectIdHex(id.value) && Key(id.value) !in old(records) ==>
                reply == NotFound("Booking not found")
      ensures Given(id) && IsObjectIdHex(id.value) && Key(id.value) in old(records) ==>
                var k := Key(id.value);
                var updated := Confirm(old(records)[k], status, now);
                var mail := Email.AcceptanceMail(updated, env, smtp);
                && reply == Ok
                && records == old(records)[k := updated]
                && (emailSent <==> status == Some("confirmed") && mail.outcome == Email.Delivered)
                && (emailSent ==> message == ConfirmedMessage)
                && (status == Some("confirmed") && mail.outcome.Failed? ==>
                      message == MailFailedMessage + mail.outcome.error)
                && (status != Some("confirmed") ==> message == MailFailedMessage + "null")
    {
      emailSent, message := false, "";
      if !Given(id) {
        reply := BadRequest("Booking ID is required");
        return;
      }
      if !IsObjectIdHex(id.value) {
        reply := BadRequest("Invalid booking ID format");
        return;
      }
      var k := Key(id.value);
      if k !in records {
        reply := NotFound("Booking not found");
        return;
      }
      var updated := Confirm(records[k], status, now);
      records := records[k := updated];
      var emailError := "null";
      if status == Some("confirmed") {
        var mail := Email.SendAcceptanceEmail(updated, env, smtp);
        if mail.outcome == Email.Delivered {
          emailSent := true;
        } else {
          emailError := mail.outcome.error;
        }
      }
      message := if emailSent then ConfirmedMessage else MailFailedMessage + emailError;
      reply := Ok;
    }

    /** DELETE: removes the booking with the given id. */
    method Delete(id: Option<string>) returns (reply: Reply)
      requires Valid()
      modifies this
      ensures Valid()
      ensures reply != Ok ==> records == old(records)
      ensures !Given(id) ==> reply == BadRequest("Booking ID is required")
      ensures Given(id) && !IsObjectIdHex(id.value) ==> reply == BadRequest("Invalid booking ID format")
      ensures Given(id) && IsObjectIdHex(id.value) ==>
                var k := Key(id.value);
                if k in old(records) then reply == Ok && records == old(records) - {k}
                else reply == NotFound("Booking not found")
    {
      if !Given(id) {
        return BadRequest("Booking ID is required");
      }
      if !IsObjectIdHex(id.value) {
        return BadRequest("Invalid booking ID format");
      }
      var k := Key(id.value);
      if k !in records {
        return NotFound("Booking not found");
      }
      records := records - {k};
      reply := Ok;
    }
  }
}
