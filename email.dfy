/** The booking mails (`sendBookingNotification`, `sendAcceptanceEmail`): their plain-text
  * bodies, recipients and the booking reference, and the order in which the SMTP
  * operations are attempted. The SMTP server is a parameter: the outcome of the
  * i-th operation it is asked to perform. */
module Email {
  import opened Common
  import opened Text
  import opened BookingData

  /** The process environment the mail code reads. */
  datatype Env = Env(emailUser: Option<string>, adminEmail: Option<string>, contactPhone: Option<string>)

  /** A message handed to the transport; `to` is absent when the address it is
    * taken from is not set. */
  datatype Mail = Mail(from: string, to: Option<string>, subject: string, text: string)

  /** An SMTP operation: the connection check, or the sending of one message. */
  datatype MailStep = VerifyConnection | SendMail(mail: Mail)

  datatype Outcome = Delivered | Failed(error: string)

  /** The operations attempted, in order, and how the sequence ended. */
  datatype Delivery = Delivery(attempted: seq<MailStep>, outcome: Outcome)

  /** What the server answers to its i-th operation: `Some(e)` is a failure with
    * message `e`; operations beyond the list succeed. */
  function Answer(smtp: seq<Option<string>>, i: nat): Option<string> {
    if i < |smtp| then smtp[i] else None
  }

  /** A template literal of a value that may be `undefined`. */
  function Interp(v: Option<string>): string {
    if v.Some? then v.value else "undefined"
  }

  function Sender(env: Env): string {
    "\"Automotive Car Care\" <" + Interp(env.emailUser) + ">"
  }

  /** `ADMIN_EMAIL || EMAIL_USER`. */
  function AdminRecipient(env: Env): (r: Option<string>)
    ensures Given(r) <==> Given(env.adminEmail) || Given(env.emailUser)
    ensures Given(env.adminEmail) ==> r == env.adminEmail
    ensures !Given(env.adminEmail) ==> r == env.emailUser
  {
    if Given(env.adminEmail) then env.adminEmail else env.emailUser
  }

  const DefaultContactPhone := "+91 XXXXX XXXXX"

  /** The phone number printed in the mail footers. */
  function ContactPhone(env: Env): (r: string)
    ensures r != ""
    ensures Given(env.contactPhone) ==> r == env.contactPhone.value
    ensures r == DefaultContactPhone <==> !Given(env.contactPhone) || env.contactPhone == Some(DefaultContactPhone)
  {
    Or(env.contactPhone, DefaultContactPhone)
  }

  /** Runs a sequence of SMTP operations and stops at the first one that fails; the
    * failure is passed on to the caller (the mail functions rethrow it). */
  function Run(plan: seq<MailStep>, smtp: seq<Option<string>>): (d: Delivery)
    ensures d.attempted <= plan
    ensures d.outcome == Delivered <==>
              d.attempted == plan && forall i :: 0 <= i < |plan| ==> Answer(smtp, i) == None
    ensures d.outcome.Failed? ==>
              && |d.attempted| > 0
              && Answer(smtp, |d.attempted| - 1) == Some(d.outcome.error)
              && forall i :: 0 <= i < |d.attempted| - 1 ==> Answer(smtp, i) == None
    decreases |plan|
  {
    if plan == [] then Delivery([], Delivered)
    else if Answer(smtp, 0).Some? then Delivery([plan[0]], Failed(Answer(smtp, 0).value))
    else
      var later := if smtp == [] then [] else smtp[1..];
      var rest := Run(plan[1..], later);
      assert forall i :: 1 <= i < |plan| ==> Answer(smtp, i) == Answer(later, i - 1);
      assert forall i :: 0 <= i < |plan| - 1 ==> Answer(later, i) == Answer(smtp, i + 1);
      assert [plan[0]] + plan[1..] == plan;
      Delivery([plan[0]] + rest.attempted, rest.outcome)
  }

  /** The services paragraph: `Service: <serviceName>` when a service name is set, then
    * a line listing the additional services' names. */
  function ServicesText(b: Booking): string {
    var primary := if b.serviceName != "" then "Service: " + b.serviceName else "";
    if |b.additionalServices| > 0 then
      primary + "\nAdditional Services: " + Join(Names(b.additionalServices), ", ")
    else primary
  }

  /** The paragraph as the mail code builds it: start empty, set the service line, then
    * append the additional services line. */
  method ComposeServicesText(b: Booking) returns (text: string)
    ensures text == ServicesText(b)
  {
    text := "";
    if b.serviceName != "" {
      text := "Service: " + b.serviceName;
    }
    if |b.additionalServices| > 0 {
      text := text + "\nAdditional Services: " + Join(Names(b.additionalServices), ", ");
    }
  }

  function Names(services: seq<ServiceRef>): (names: seq<string>)
    ensures |names| == |services|
    ensures forall i :: 0 <= i < |services| ==> names[i] == services[i].name
  {
    seq(|services|, i requires 0 <= i < |services| => services[i].name)
  }

  /** The services paragraph is empty exactly when the booking names no service, and
    * it mentions the primary service and every additional service by name. */
  lemma ServicesTextMentions(b: Booking)
    ensures ServicesText(b) == "" <==> b.serviceName == "" && b.additionalServices == []
    ensures b.serviceName != "" ==> Includes(ServicesText(b), "Service: " + b.serviceName)
    ensures forall s :: s in b.additionalServices ==> Includes(ServicesText(b), s.name)
  {
    var t := ServicesText(b);
    var primary := if b.serviceName != "" then "Service: " + b.serviceName else "";
    var tail := if |b.additionalServices| > 0
      then "\nAdditional Services: " + Join(Names(b.additionalServices), ", ") else "";
    assert t == primary + tail;
    if b.serviceName != "" {
      assert t[0..|primary|] == primary;
      assert OccursAt(t, primary, 0);
    }
    forall s | s in b.additionalServices ensures Includes(t, s.name) {
      var i :| 0 <= i < |b.additionalServices| && b.additionalServices[i] == s;
      var names := Names(b.additionalServices);
      JoinIncludes(names, ", ", i);
      IncludesWithin(primary + "\nAdditional Services: ", Join(names, ", "), "", s.name);
      assert t == primary + "\nAdditional Services: " + Join(names, ", ") + "";
    }
  }

  /** The booking reference shown in both mails: `#` and the last eight characters of
    * the id, upper-cased (`_id.toString().slice(-8).toUpperCase()`). */
  function DisplayId(id: string): string {
    "#" + UpperAscii(if |id| <= 8 then id else id[|id| - 8..])
  }

  /** For a 24-digit hexadecimal id the reference is `#` and eight upper-case hex digits. */
  lemma DisplayIdShape(id: string)
    requires |id| == 24 && forall i :: 0 <= i < 24 ==> IsHexDigit(id[i])
    ensures |DisplayId(id)| == 9 && DisplayId(id)[0] == '#'
    ensures forall i :: 1 <= i < 9 ==> IsDigit(DisplayId(id)[i]) || 'A' <= DisplayId(id)[i] <= 'F'
  {
    var r := DisplayId(id);
    forall i | 1 <= i < 9 ensures IsDigit(r[i]) || 'A' <= r[i] <= 'F' {
      assert r[i] == ToUpper(id[15 + i]);
    }
  }

  /** Spelling the id in either case gives the same reference. */
  lemma DisplayIdIgnoresCase(id: string)
    ensures DisplayId(LowerAscii(id)) == DisplayId(id)
  {
    var low := LowerAscii(id);
    var a := if |id| <= 8 then id else id[|id| - 8..];
    var b := if |low| <= 8 then low else low[|low| - 8..];
    assert |a| == |b|;
    forall i | 0 <= i < |a| ensures ToUpper(b[i]) == ToUpper(a[i]) {
      assert b[i] == ToLower(a[i]);
    }
    assert UpperAscii(b) == UpperAscii(a);
  }

  function Vehicle(b: Booking): string {
    "\nVehicle: " + b.vehicleBrand + " " + b.vehicleModel
      + "\nDate: " + b.bookingDate + "\nTime: " + b.bookingTime
  }

  /** The acknowledgement sent to the customer when a booking is submitted. */
  function CustomerNotice(b: Booking, env: Env): Mail {
    Mail(Sender(env), Some(b.email), "\U{1F697} Booking Received - Automotive Car Care",
      "Dear " + b.name + ",\n\nThank you for your booking!\n\n" + ServicesText(b)
        + Vehicle(b) + "\n\nWe will confirm shortly.")
  }

  /** The notice sent to the workshop when a booking is submitted. */
  function AdminNotice(b: Booking, env: Env): Mail {
    Mail(Sender(env), AdminRecipient(env), "\U{1F514} New Booking - Action Required",
      "New booking from " + b.name + "\nEmail: " + b.email + "\nPhone: " + b.phone
        + "\n" + ServicesText(b) + Vehicle(b))
  }

  /** The confirmation sent to the customer when the workshop accepts a booking. */
  function AcceptanceNotice(b: Booking, env: Env): Mail {
    Mail(Sender(env), Some(b.email), "\U{2705} Booking Confirmed - Automotive Car Care",
      "Dear " + b.name + ",\n\nYour booking has been CONFIRMED!\n\nService: "
        + (if b.serviceName != "" then b.serviceName else b.service)
        + Vehicle(b) + "\n\nSee you soon!")
  }

  /** `sendBookingNotification`: check the connection, mail the customer, then the workshop. */
  function BookingNotification(b: Booking, env: Env, smtp: seq<Option<string>>): (d: Delivery)
    ensures d.outcome == Delivered <==> Answer(smtp, 0) == None && Answer(smtp, 1) == None && Answer(smtp, 2) == None
    ensures SendMail(AdminNotice(b, env)) in d.attempted ==> Answer(smtp, 1) == None
    ensures Answer(smtp, 0).Some? ==> d.attempted == [VerifyConnection]
  {
    var plan := [VerifyConnection, SendMail(CustomerNotice(b, env)), SendMail(AdminNotice(b, env))];
    var d := Run(plan, smtp);
    assert d.attempted == plan[..|d.attempted|];
    d
  }

  /** `sendAcceptanceEmail`: check the connection, then mail the customer. */
  function AcceptanceMail(b: Booking, env: Env, smtp: seq<Option<string>>): (d: Delivery)
    ensures d.outcome == Delivered <==> Answer(smtp, 0) == None && Answer(smtp, 1) == None
    ensures d.outcome == Delivered ==> d.attempted == [VerifyConnection, SendMail(AcceptanceNotice(b, env))]
  {
    Run([VerifyConnection, SendMail(AcceptanceNotice(b, env))], smtp)
  }

  /** `sendBookingNotification` step by step: each operation is attempted only when the
    * one before it succeeded, and the first failure ends the sequence. */
  method SendBookingNotification(b: Booking, env: Env, smtp: seq<Option<string>>) returns (d: Delivery)
    ensures d == BookingNotification(b, env, smtp)
  {
    var customer := SendMail(CustomerNotice(b, env));
    var admin := SendMail(AdminNotice(b, env));
    RunThree(VerifyConnection, customer, admin, smtp);
    if Answer(smtp, 0).Some? {
      return Delivery([VerifyConnection], Failed(Answer(smtp, 0).value));
    }
    if Answer(smtp, 1).Some? {
      return Delivery([VerifyConnection, customer], Failed(Answer(smtp, 1).value));
    }
    if Answer(smtp, 2).Some? {
      return Delivery([VerifyConnection, customer, admin], Failed(Answer(smtp, 2).value));
    }
    d := Delivery([VerifyConnection, customer, admin], Delivered);
  }

  /** `sendAcceptanceEmail` step by step. */
  method SendAcceptanceEmail(b: Booking, env: Env, smtp: seq<Option<string>>) returns (d: Delivery)
    ensures d == AcceptanceMail(b, env, smtp)
  {
    var customer := SendMail(AcceptanceNotice(b, env));
    RunTwo(VerifyConnection, customer, smtp);
    if Answer(smtp, 0).Some? {
      return Delivery([VerifyConnection], Failed(Answer(smtp, 0).value));
    }
    if Answer(smtp, 1).Some? {
      return Delivery([VerifyConnection, customer], Failed(Answer(smtp, 1).value));
    }
    d := Delivery([VerifyConnection, customer], Delivered);
  }

  /** Running a one-step plan. */
  lemma RunOne(x: MailStep, smtp: seq<Option<string>>)
    ensures Run([x], smtp) ==
              if Answer(smtp, 0).Some? then Delivery([x], Failed(Answer(smtp, 0).value))
              else Delivery([x], Delivered)
  {
    assert [x][1..] == [];
  }

  /** Running a two-step plan. */
  lemma RunTwo(x: MailStep, y: MailStep, smtp: seq<Option<string>>)
    ensures Run([x, y], smtp) ==
              if Answer(smtp, 0).Some? then Delivery([x], Failed(Answer(smtp, 0).value))
              else if Answer(smtp, 1).Some? then Delivery([x, y], Failed(Answer(smtp, 1).value))
              else Delivery([x, y], Delivered)
  {
    var later := if smtp == [] then [] else smtp[1..];
    assert [x, y][1..] == [y];
    RunOne(y, later);
    assert Answer(later, 0) == Answer(smtp, 1);
  }

  /** Running a three-step plan. */
  lemma RunThree(x: MailStep, y: MailStep, z: MailStep, smtp: seq<Option<string>>)
    ensures Run([x, y, z], smtp) ==
              if Answer(smtp, 0).Some? then Delivery([x], Failed(Answer(smtp, 0).value))
              else if Answer(smtp, 1).Some? then Delivery([x, y], Failed(Answer(smtp, 1).value))
              else if Answer(smtp, 2).Some? then Delivery([x, y, z], Failed(Answer(smtp, 2).value))
              else Delivery([x, y, z], Delivered)
  {
    var later := if smtp == [] then [] else smtp[1..];
    assert [x, y, z][1..] == [y, z];
    RunTwo(y, z, later);
    assert Answer(later, 0) == Answer(smtp, 1);
    assert Answer(later, 1) == Answer(smtp, 2);
  }
}
