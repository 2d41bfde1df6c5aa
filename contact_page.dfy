/** The contact form (`ContactPage`): its field values, the per-field error messages,
  * and the notice shown above the form. */
module ContactPage {
  import opened Common
  import opened Text
  import opened AddressPattern

  const Fields: set<string> := {"name", "email", "phone", "message"}

  const EmptyForm: map<string, string> := map["name" := "", "email" := "", "phone" := "", "message" := ""]

  /** `/^[0-9]{10}$/`. */
  predicate TenDigits(s: string) {
    |s| == 10 && forall k :: 0 <= k < |s| ==> IsDigit(s[k])
  }

  predicate NameMissing(data: map<string, string>)
    requires Fields <= data.Keys
  {
    Trim(data["name"]) == ""
  }

  predicate EmailRejected(data: map<string, string>)
    requires Fields <= data.Keys
  {
    !MatchesEmail(data["email"])
  }

  predicate PhoneRejected(data: map<string, string>)
    requires Fields <= data.Keys
  {
    data["phone"] != "" && !TenDigits(data["phone"])
  }

  predicate MessageMissing(data: map<string, string>)
    requires Fields <= data.Keys
  {
    Trim(data["message"]) == ""
  }

  /** The form passes every check. */
  predicate FormValid(data: map<string, string>)
    requires Fields <= data.Keys
  {
    !NameMissing(data) && !EmailRejected(data) && !PhoneRejected(data) && !MessageMissing(data)
  }

  const NameMessage := "Name is required"
  const EmailMissingMessage := "Email is required"
  const EmailInvalidMessage := "Please enter a valid email address (e.g., name@example.com)"
  const PhoneMessage := "Phone number must be exactly 10 digits"
  const MessageMessage := "Message is required"

  /** The error messages `validateForm` records: one for each field whose rule fails,
    * with that rule's message, and for no other key. */
  function Errors(data: map<string, string>): (r: map<string, string>)
    requires Fields <= data.Keys
    ensures r.Keys <= Fields
    ensures "name" in r <==> NameMissing(data)
    ensures "email" in r <==> EmailRejected(data)
    ensures "phone" in r <==> PhoneRejected(data)
    ensures "message" in r <==> MessageMissing(data)
    ensures "name" in r ==> r["name"] == NameMessage
    ensures "email" in r ==> r["email"] == if data["email"] == "" then EmailMissingMessage else EmailInvalidMessage
    ensures "phone" in r ==> r["phone"] == PhoneMessage
    ensures "message" in r ==> r["message"] == MessageMessage
    ensures r == map[] <==> FormValid(data)
  {
    assert |"name"| == 4 && |"email"| == 5 && "email"[0] != "phone"[0] && |"message"| == 7;
    var r0: map<string, string> := map[];
    var r1 := if NameMissing(data) then r0["name" := NameMessage] else r0;
    var r2 := if data["email"] == "" then r1["email" := EmailMissingMessage]
              else if EmailRejected(data) then r1["email" := EmailInvalidMessage] else r1;
    var r3 := if PhoneRejected(data) then r2["phone" := PhoneMessage] else r2;
    var r4 := if MessageMissing(data) then r3["message" := MessageMessage] else r3;
    assert r4 == map[] <==> !("name" in r4 || "email" in r4 || "phone" in r4 || "message" in r4);
    r4
  }

  /** The outcome of the request a submission sends: a success status, an error
    * status with the body's `error` (if any), or no response at all. */
  datatype Response = Accepted | Refused(error: Option<string>) | NoResponse

  const FixErrorsNotice := "Please fix the errors below"
  const SentNotice := "Message sent successfully! We'll get back to you soon."
  const FailedNotice := "Failed to send message. Please try again."
  const NetworkNotice := "An error occurred. Please try again."

  class ContactForm {
    var formData: map<string, string>
    var errors: map<string, string>
    var notice: string

    ghost predicate Valid()
      reads this
    {
      Fields <= formData.Keys
    }

    constructor ()
      ensures formData == EmptyForm && errors == map[] && notice == "" && Valid()
    {
      formData, errors, notice := EmptyForm, map[], "";
    }

    /** The checks of `validateForm`, one field at a time, building exactly `Errors`. */
    method CheckFields() returns (newErrors: map<string, string>)
      requires Valid()
      ensures newErrors == Errors(formData)
    {
      newErrors := map[];
      if NameMissing(formData) {
        newErrors := newErrors["name" := NameMessage];
      }
      if formData["email"] == "" {
        newErrors := newErrors["email" := EmailMissingMessage];
      } else if EmailRejected(formData) {
        newErrors := newErrors["email" := EmailInvalidMessage];
      }
      if PhoneRejected(formData) {
        newErrors := newErrors["phone" := PhoneMessage];
      }
      if MessageMissing(formData) {
        newErrors := newErrors["message" := MessageMessage];
      }
    }

    /** `validateForm`: records the errors and reports whether there are none. */
    method ValidateForm() returns (ok: bool)
      requires Valid()
      modifies this
      ensures Valid() && formData == old(formData) && notice == old(notice)
      ensures errors == Errors(formData)
      ensures ok <==> FormValid(formData)
      ensures ok <==> errors == map[]
    {
      var found := CheckFields();
      errors := found;
      ok := found == map[];
    }

    /** `handleChange`: stores the value; an error shown for that field is cleared and
      * every other error stays. */
    method HandleChange(field: string, value: string)
      requires Valid()
      modifies this
      ensures Valid() && notice == old(notice)
      ensures formData == old(formData)[field := value]
      ensures field in old(errors) && old(errors)[field] != "" ==> errors == old(errors)[field := ""]
      ensures !(field in old(errors) && old(errors)[field] != "") ==> errors == old(errors)
    {
      formData := formData[field := value];
      if field in errors && errors[field] != "" {
        errors := errors[field := ""];
      }
    }

    /** `handleSubmit`: a form that fails validation sends nothing; a valid one sends
      * its data, and the response decides the notice. Success empties the form. */
    method Submit(response: Response) returns (sent: bool)
      requires Valid()
      modifies this
      ensures Valid()
      ensures sent <==> FormValid(old(formData))
      ensures !sent ==> notice == FixErrorsNotice && formData == old(formData) && errors == Errors(old(formData))
      ensures sent && response == Accepted ==> notice == SentNotice && formData == EmptyForm && errors == map[]
      ensures sent && response.Refused? ==>
                notice == Or(response.error, FailedNotice) && formData == old(formData) && errors == map[]
      ensures sent && response == NoResponse ==> notice == NetworkNotice && formData == old(formData) && errors == map[]
    {
      notice := "";
      sent := ValidateForm();
      if !sent {
        notice := FixErrorsNotice;
        return;
      }
      match response {
        case Accepted =>
          notice := SentNotice;
          formData := EmptyForm;
          errors := map[];
        case Refused(error) =>
          notice := Or(error, FailedNotice);
        case NoResponse =>
          notice := NetworkNotice;
      }
    }
  }
}
