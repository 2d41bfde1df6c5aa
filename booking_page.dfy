/** The booking form (`booking/page.js`): the form state and selection mode, the phone
  * input, service selection in single and multiple mode, the brand picker, the checks
  * made on submit and the request body it sends to the booking route. */
module BookingPage {
  import opened Common
  import opened Text
  import opened BookingData
  import VehicleBrands
  import Bookings

  datatype Mode = Single | Multiple

  /** A service as the form holds it: `{slug, name, type}`. A service chosen through the
    * page address has no name. */
  datatype Choice = Choice(slug: string, name: Option<string>, kind: string)

  /** The `formData` object; `primary` is `None` where the page stores `""`. */
  datatype FormData = FormData(
    name: string,
    email: string,
    countryCode: string,
    phone: string,
    primary: Option<Choice>,
    additional: seq<Choice>,
    vehicleBrand: string,
    vehicleModel: string,
    bookingDate: string,
    bookingTime: string,
    notes: string)

  const EmptyForm := FormData("", "", "+91", "", None, [], "", "", "", "", "")

  // ----- Phone input -----

  /** `replace(/\D/g, "")`: the ASCII digits of the input, in order. */
  function Digits(s: string): (r: string)
    ensures forall c :: c in r <==> c in s && IsDigit(c)
    ensures |r| <= |s|
  {
    if s == [] then []
    else if IsDigit(s[0]) then [s[0]] + Digits(s[1..])
    else Digits(s[1..])
  }

  lemma {:induction false} DigitsOfDigits(s: string)
    requires forall c :: c in s ==> IsDigit(c)
    ensures Digits(s) == s
  {
    if s != [] {
      assert s[0] in s;
      forall c | c in s[1..] ensures IsDigit(c) {
        assert c in s;
      }
      DigitsOfDigits(s[1..]);
    }
  }

  /** The phone value kept: at most the first ten digits typed. */
  function SanitizePhone(s: string): (r: string)
    ensures |r| <= 10 && forall c :: c in r ==> IsDigit(c)
    ensures r <= Digits(s) && (|r| < 10 ==> r == Digits(s))
  {
    var d := Digits(s);
    if |d| <= 10 then d else d[..10]
  }

  /** Sanitising a sanitised value changes nothing. */
  lemma SanitizeIdempotent(s: string)
    ensures SanitizePhone(SanitizePhone(s)) == SanitizePhone(s)
  {
    DigitsOfDigits(SanitizePhone(s));
  }

  function PhoneError(phone: string): (r: string)
    ensures r != "" <==> 0 < |phone| < 10
    ensures r != "" ==> r == "Phone number must be 10 digits"
  {
    if |phone| > 0 && |phone| < 10 then "Phone number must be 10 digits" else ""
  }

  // ----- Service selection -----

  predicate HasSlug(list: seq<Choice>, slug: string) {
    exists i :: 0 <= i < |list| && list[i].slug == slug
  }

  predicate UniqueSlugs(list: seq<Choice>) {
    forall i, j :: 0 <= i < j < |list| ==> list[i].slug != list[j].slug
  }

  /** `filter(s => s.slug !== slug)`. */
  function WithoutSlug(list: seq<Choice>, slug: string): (r: seq<Choice>)
    ensures forall x :: x in r <==> x in list && x.slug != slug
  {
    if list == [] then []
    else
      var rest := WithoutSlug(list[1..], slug);
      if list[0].slug == slug then rest else [list[0]] + rest
  }

  /** Filtering a list of distinct slugs leaves them distinct. */
  lemma {:induction false} WithoutSlugUnique(list: seq<Choice>, slug: string)
    requires UniqueSlugs(list)
    ensures UniqueSlugs(WithoutSlug(list, slug))
  {
    if list != [] {
      var tail := list[1..];
      assert UniqueSlugs(tail) by {
        forall i, j | 0 <= i < j < |tail| ensures tail[i].slug != tail[j].slug {
          assert tail[i] == list[i + 1] && tail[j] == list[j + 1];
        }
      }
      WithoutSlugUnique(tail, slug);
      var rest := WithoutSlug(tail, slug);
      if list[0].slug != slug {
        var r := [list[0]] + rest;
        forall i, j | 0 <= i < j < |r| ensures r[i].slug != r[j].slug {
          if i == 0 {
            assert r[j] == rest[j - 1];
            assert r[j] in tail;
            var k :| 0 <= k < |tail| && tail[k] == r[j];
            assert list[k + 1] == r[j];
          } else {
            assert r[i] == rest[i - 1] && r[j] == rest[j - 1];
          }
        }
      }
    }
  }

  /** Filtering out a slug the list does not hold changes nothing. */
  lemma {:induction false} WithoutSlugAbsent(list: seq<Choice>, slug: string)
    requires !HasSlug(list, slug)
    ensures WithoutSlug(list, slug) == list
  {
    if list != [] {
      var tail := list[1..];
      assert !HasSlug(tail, slug) by {
        forall i | 0 <= i < |tail| ensures tail[i].slug != slug {
          assert tail[i] == list[i + 1];
        }
      }
      WithoutSlugAbsent(tail, slug);
      assert list[0].slug != slug;
      assert [list[0]] + tail == list;
    }
  }

  /** Multiple mode: a service whose slug is already selected is removed, any other is
    * appended. */
  function Toggled(list: seq<Choice>, service: Choice): seq<Choice> {
    if HasSlug(list, service.slug) then WithoutSlug(list, service.slug) else list + [service]
  }

  lemma HasSlugIn(list: seq<Choice>, slug: string)
    ensures HasSlug(list, slug) <==> exists x :: x in list && x.slug == slug
  {
    if exists x :: x in list && x.slug == slug {
      var x :| x in list && x.slug == slug;
      var i :| 0 <= i < |list| && list[i] == x;
    }
  }

  /** Toggling flips whether the service's slug is selected and leaves every other
    * slug as it was. */
  lemma ToggleFlips(list: seq<Choice>, service: Choice, slug: string)
    ensures HasSlug(Toggled(list, service), slug) <==>
              if slug == service.slug then !HasSlug(list, slug) else HasSlug(list, slug)
  {
    var t := Toggled(list, service);
    HasSlugIn(list, slug);
    HasSlugIn(t, slug);
    HasSlugIn(list, service.slug);
    if !HasSlug(list, service.slug) {
      assert t[|list|] == service;
    }
  }

  /** Toggling keeps the selected slugs distinct. */
  lemma ToggleUnique(list: seq<Choice>, service: Choice)
    requires UniqueSlugs(list)
    ensures UniqueSlugs(Toggled(list, service))
  {
    if HasSlug(list, service.slug) {
      WithoutSlugUnique(list, service.slug);
    } else {
      var t := list + [service];
      forall i, j | 0 <= i < j < |t| ensures t[i].slug != t[j].slug {
        if j == |list| {
          assert t[i] == list[i];
        }
      }
    }
  }

  /** Toggling a service that is not selected and then toggling it again gives back the
    * same list. */
  lemma ToggleTwiceAbsent(list: seq<Choice>, service: Choice)
    requires !HasSlug(list, service.slug)
    ensures Toggled(Toggled(list, service), service) == list
  {
    var t := list + [service];
    assert t[|list|] == service;
    assert HasSlug(t, service.slug);
    assert WithoutSlug(t, service.slug) == list by {
      WithoutSlugAppend(list, service);
    }
  }

  lemma {:induction false} WithoutSlugAppend(list: seq<Choice>, service: Choice)
    requires !HasSlug(list, service.slug)
    ensures WithoutSlug(list + [service], service.slug) == list
  {
    if list == [] {
      assert [service][1..] == [];
    } else {
      assert (list + [service])[1..] == list[1..] + [service];
      WithoutSlugAppend(list[1..], service);
    }
  }

  /** Toggling a selected service twice gives back the same set of selected slugs (the
    * service moves to the end of the list). */
  lemma ToggleTwiceSameSlugs(list: seq<Choice>, service: Choice, slug: string)
    ensures HasSlug(Toggled(Toggled(list, service), service), slug) <==> HasSlug(list, slug)
  {
    ToggleFlips(list, service, slug);
    ToggleFlips(Toggled(list, service), service, slug);
  }

  /** `isServiceSelected`. */
  function IsSelected(form: FormData, mode: Mode, service: Choice): bool {
    if mode == Single then form.primary.Some? && form.primary.value.slug == service.slug
    else HasSlug(form.additional, service.slug)
  }

  /** `getServiceUrl`: the page describing a service. */
  function ServiceUrl(service: Option<Choice>): (r: string)
    ensures service.None? <==> r == "#"
    ensures service.Some? ==> |r| > |service.value.slug|
    ensures service.Some? ==> r[|r| - |service.value.slug|..] == service.value.slug
    ensures service.Some? ==>
              (service.value.kind == "special" <==> r[..|r| - |service.value.slug|] == "/special-services?service=")
  {
    if service.None? then "#"
    else if service.value.kind == "special" then "/special-services?service=" + service.value.slug
    else "/service?service=" + service.value.slug
  }

  // ----- Submission -----

  /** The checks made before sending, with the message each failure shows. */
  function SubmitCheck(form: FormData, mode: Mode): (r: Option<string>)
    ensures r.None? <==>
              && |form.phone| == 10
              && (mode == Single ==> form.primary.Some? && form.primary.value.slug != "")
              && (mode == Multiple ==> form.additional != [])
  {
    if |form.phone| != 10 then Some("Phone number must be exactly 10 digits")
    else if mode == Single && (form.primary.None? || form.primary.value.slug == "") then Some("Please select a service")
    else if mode == Multiple && form.additional == [] then Some("Please select at least one service")
    else None
  }

  /** `vehicleBrands.find(b => b.slug === slug)`. */
  function FindBrand(brands: seq<VehicleBrands.VehicleBrand>, slug: string): (r: Option<VehicleBrands.VehicleBrand>)
    ensures r.Some? ==> r.value in brands && r.value.slug == slug
    ensures r.None? <==> forall b :: b in brands ==> b.slug != slug
  {
    if brands == [] then None
    else if brands[0].slug == slug then Some(brands[0])
    else FindBrand(brands[1..], slug)
  }

  /** The brand as sent: its display name when the slug is known, else the raw value. */
  function BrandLabel(brands: seq<VehicleBrands.VehicleBrand>, slug: string): (r: string)
    ensures r == slug || exists b :: b in brands && b.slug == slug && b.name == r
  {
    var found := FindBrand(brands, slug);
    if found.Some? && found.value.name != "" then found.value.name else slug
  }

  function Ref(c: Choice): ServiceRef {
    ServiceRef(c.slug, Or(c.name, ""), c.kind)
  }

  /** The request body of the booking POST. */
  function Payload(form: FormData, mode: Mode, brands: seq<VehicleBrands.VehicleBrand>): BookingRequest {
    var common := BookingRequest(
      name := Some(form.name),
      email := Some(form.email),
      phone := Some(form.countryCode + " " + form.phone),
      service := None, serviceName := None, serviceType := None, additionalServices := None,
      vehicleBrand := Some(BrandLabel(brands, form.vehicleBrand)),
      vehicleModel := Some(form.vehicleModel),
      bookingDate := Some(form.bookingDate),
      bookingTime := Some(form.bookingTime),
      notes := Some(form.notes));
    if mode == Single then
      var p := form.primary;
      common.(service := if p.Some? then Some(p.value.slug) else None,
              serviceName := if p.Some? then p.value.name else None,
              serviceType := if p.Some? then Some(p.value.kind) else None,
              additionalServices := Some([]))
    else if form.additional == [] then
      common.(service := Some(""), serviceName := Some(""), serviceType := Some("general"),
              additionalServices := Some([]))
    else
      var first, rest := form.additional[0], form.additional[1..];
      common.(service := Some(first.slug),
              serviceName := Some(Or(first.name, "")),
              serviceType := Some(if first.kind != "" then first.kind else "general"),
              additionalServices := Some(seq(|rest|, i requires 0 <= i < |rest| => Ref(rest[i]))))
  }

  /** In multiple mode every selected service reaches the booking, in order: the first
    * as its service, the others as its additional services; in single mode the
    * additional services are empty. */
  lemma PayloadServices(form: FormData, mode: Mode, brands: seq<VehicleBrands.VehicleBrand>)
    ensures var p := Payload(form, mode, brands);
            && p.additionalServices.Some?
            && (mode == Single ==> p.additionalServices.value == [])
            && (mode == Multiple && form.additional != [] ==>
                  && 1 + |p.additionalServices.value| == |form.additional|
                  && p.service == Some(form.additional[0].slug)
                  && forall i :: 1 <= i < |form.additional| ==>
                       p.additionalServices.value[i - 1].slug == form.additional[i].slug)
  {
  }

  /** A submission that passes the page's checks, with the fields the form marks as
    * required filled in, satisfies the route's required-field check. */
  lemma PayloadComplete(form: FormData, mode: Mode, brands: seq<VehicleBrands.VehicleBrand>)
    requires SubmitCheck(form, mode).None?
    requires form.name != "" && form.email != "" && form.vehicleBrand != "" && form.vehicleModel != ""
    requires form.bookingDate != "" && form.bookingTime != ""
    requires mode == Multiple ==> form.additional[0].slug != ""
    ensures Bookings.Complete(Payload(form, mode, brands))
  {
  }

  /** The form as a whole. */
  class BookingForm {
    var form: FormData
    var mode: Mode
    var message: string
    var phoneError: string
    var availableModels: seq<string>

    /** Single mode holds no additional services, multiple mode no primary service, the
      * selected slugs are distinct, and the phone holds at most ten digits. */
    ghost predicate Valid()
      reads this
    {
      && (mode == Single ==> form.additional == [])
      && (mode == Multiple ==> form.primary.None?)
      && UniqueSlugs(form.additional)
      && |form.phone| <= 10
    }

    /** The initial state, with the service named in the page address preselected. */
    constructor (service: Option<string>, kind: Option<string>)
      ensures Valid() && mode == Single && message == "" && phoneError == ""
      ensures form == EmptyForm.(primary := if Given(service) then Some(Choice(service.value, None, Or(kind, "general"))) else None)
    {
      form := EmptyForm.(primary := if Given(service) then Some(Choice(service.value, None, Or(kind, "general"))) else None);
      mode := Single;
      message, phoneError := "", "";
      availableModels := [];
    }

    method ChooseSingle()
      requires Valid()
      modifies this
      ensures Valid() && mode == Single && form == old(form).(additional := [])
      ensures message == old(message) && phoneError == old(phoneError) && availableModels == old(availableModels)
    {
      mode := Single;
      form := form.(additional := []);
    }

    method ChooseMultiple()
      requires Valid()
      modifies this
      ensures Valid() && mode == Multiple && form == old(form).(primary := None)
      ensures message == old(message) && phoneError == old(phoneError) && availableModels == old(availableModels)
    {
      mode := Multiple;
      form := form.(primary := None);
    }

    /** `handleServiceToggle`. */
    method Toggle(service: Choice)
      requires Valid()
      modifies this
      ensures Valid() && mode == old(mode)
      ensures mode == Single ==> form == old(form).(primary := Some(service), additional := [])
      ensures mode == Multiple ==> form == old(form).(additional := Toggled(old(form).additional, service))
      ensures mode == Multiple ==> (IsSelected(form, mode, service) <==> !IsSelected(old(form), mode, service))
      ensures message == old(message) && phoneError == old(phoneError) && availableModels == old(availableModels)
    {
      if mode == Single {
        form := form.(primary := Some(service), additional := []);
      } else {
        ToggleUnique(form.additional, service);
        ToggleFlips(form.additional, service, service.slug);
        form := form.(additional := Toggled(form.additional, service));
      }
    }

    /** `handlePhoneChange`. */
    method PhoneChange(value: string)
      requires Valid()
      modifies this
      ensures Valid()
      ensures form == old(form).(phone := SanitizePhone(value)) && phoneError == PhoneError(form.phone)
      ensures mode == old(mode) && message == old(message) && availableModels == old(availableModels)
    {
      var digits := SanitizePhone(value);
      form := form.(phone := digits);
      phoneError := PhoneError(digits);
    }

    /** `handleBrandChange`: a new brand clears the model and offers that brand's models. */
    method BrandChange(slug: string, brands: seq<VehicleBrands.VehicleBrand>)
      requires Valid()
      modifies this
      ensures Valid()
      ensures form == old(form).(vehicleBrand := slug, vehicleModel := "")
      ensures var b := FindBrand(brands, slug);
              availableModels == if b.Some? then b.value.models else []
      ensures mode == old(mode) && message == old(message) && phoneError == old(phoneError)
    {
      form := form.(vehicleBrand := slug, vehicleModel := "");
      var b := FindBrand(brands, slug);
      availableModels := if b.Some? then b.value.models else [];
    }

    /** `handleSubmit` up to the request: either a refusal with its message, or the body
      * to send. */
    method Submit(brands: seq<VehicleBrands.VehicleBrand>) returns (request: Option<BookingRequest>)
      requires Valid()
      modifies this
      ensures Valid() && form == old(form) && mode == old(mode) && availableModels == old(availableModels)
      ensures request.Some? <==> SubmitCheck(form, mode).None?
      ensures request.Some? ==> request.value == Payload(form, mode, brands) && message == "" && phoneError == old(phoneError)
      ensures |form.phone| != 10 ==> phoneError == "Phone number must be exactly 10 digits" && message == old(message)
      ensures |form.phone| == 10 && request.None? ==> message == SubmitCheck(form, mode).value && phoneError == old(phoneError)
    {
      var refusal := SubmitCheck(form, mode);
      if refusal.Some? {
        if |form.phone| != 10 {
          phoneError := refusal.value;
        } else {
          message := refusal.value;
        }
        return None;
      }
      message := "";
      request := Some(Payload(form, mode, brands));
    }

    /** The reply: an accepted booking resets the form; a refusal shows the route's error. */
    method Finish(accepted: bool, text: Option<string>)
      requires Valid()
      modifies this
      ensures Valid() && mode == old(mode)
      ensures accepted ==> message == Or(text, "Booking submitted successfully!") && form == EmptyForm
                             && phoneError == "" && availableModels == []
      ensures !accepted ==> message == Or(text, "Failed to submit booking.") && form == old(form)
                              && phoneError == old(phoneError) && availableModels == old(availableModels)
    {
      if accepted {
        message := Or(text, "Booking submitted successfully!");
        form := EmptyForm;
        phoneError := "";
        availableModels := [];
      } else {
        message := Or(text, "Failed to submit booking.");
      }
    }
  }
}
