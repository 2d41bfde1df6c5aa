/** The contact route (`POST /api/contact`): validates the message, then alerts the
  * workshop and sends the visitor an automatic reply. */
module ContactRoute {
  import opened Common
  import opened Text
  import opened AddressPattern
  import opened Email
  import ContactPage

  datatype ContactRequest = ContactRequest(
    name: Option<string>, email: Option<string>, phone: Option<string>, message: Option<string>)

  const AlertSubject := "\U{1F4E9} New Contact - "
  const AlertIntro := "New contact form submission\n\nName: "
  const ReplySubject := "Thank you for contacting Automotive Car Care"
  const ReplyBody := ",\n\nThank you for reaching out to us! We have received your message"
    + " and will get back to you shortly.\n\nBest regards,\nAutomotive Car Care Team"

  /** The alert to the workshop; an absent phone reads "Not provided". */
  function AdminAlert(req: ContactRequest, env: Env): Mail
    requires Given(req.name) && Given(req.email) && Given(req.message)
  {
    Mail(Sender(env), AdminRecipient(env), AlertSubject + req.name.value,
      AlertIntro + req.name.value + "\nEmail: " + req.email.value
        + "\nPhone: " + Or(req.phone, "Not provided") + "\nMessage: " + req.message.value)
  }

  /** The automatic reply to the visitor. */
  function AutoReply(req: ContactRequest, env: Env): Mail
    requires Given(req.name) && Given(req.email)
  {
    Mail(Sender(env), Some(req.email.value), ReplySubject, "Dear " + req.name.value + ReplyBody)
  }

  /** The SMTP operations of an accepted message, in order. */
  function Plan(req: ContactRequest, env: Env): seq<MailStep>
    requires Given(req.name) && Given(req.email) && Given(req.message)
  {
    [VerifyConnection, SendMail(AdminAlert(req, env)), SendMail(AutoReply(req, env))]
  }

  const SendFailed := "Failed to send email. Please try again later."

  /** `POST`: both checks come before any SMTP operation; then the connection is
    * checked, the workshop is alerted and the visitor answered, in that order, and
    * any failure among them makes the reply a 500. */
  method Post(req: ContactRequest, env: Env, smtp: seq<Option<string>>) returns (reply: Reply, mail: Option<Delivery>)
    ensures !(Given(req.name) && Given(req.email) && Given(req.message)) ==>
              reply == BadRequest("Name, email, and message are required") && mail == None
    ensures Given(req.name) && Given(req.email) && Given(req.message) && !MatchesEmail(req.email.value) ==>
              reply == BadRequest("Invalid email format") && mail == None
    ensures Given(req.name) && Given(req.email) && Given(req.message) && MatchesEmail(req.email.value) ==>
              && mail == Some(Run(Plan(req, env), smtp))
              && (mail.value.outcome == Delivered ==> reply == Ok)
              && (mail.value.outcome.Failed? ==> reply == ServerError(SendFailed))
  {
    if !Given(req.name) || !Given(req.email) || !Given(req.message) {
      return BadRequest("Name, email, and message are required"), None;
    }
    if !MatchesEmail(req.email.value) {
      return BadRequest("Invalid email format"), None;
    }
    var d := Run(Plan(req, env), smtp);
    mail := Some(d);
    reply := if d.outcome == Delivered then Ok else ServerError(SendFailed);
  }

  /** Whatever the contact form lets through, the route's checks accept: the form's
    * checks are at least as strict as the route's. */
  lemma FormCheckedIsRouteChecked(data: map<string, string>)
    requires ContactPage.Fields <= data.Keys
    requires ContactPage.FormValid(data)
    ensures var req := ContactRequest(Some(data["name"]), Some(data["email"]), Some(data["phone"]), Some(data["message"]));
            Given(req.name) && Given(req.email) && Given(req.message) && MatchesEmail(req.email.value)
  {
    TrimEmpty(data["name"]);
    TrimEmpty(data["message"]);
  }

  /** The route is laxer than the form: a blank name passes it. */
  lemma RouteAcceptsBlankName()
    ensures var req := ContactRequest(Some(" "), Some("a@b.co"), None, Some("hi"));
            Given(req.name) && Given(req.email) && Given(req.message) && MatchesEmail(req.email.value)
            && Trim(" ") == ""
  {
    var s := "a@b.co";
    assert s[3..5][0] == '.';
    ShapedMatches(s, 1, 3);
    TrimEmpty(" ");
  }
}
