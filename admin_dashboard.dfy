/** The admin console (`admin/dashboard/page.js`): bookings grouped by date with their
  * service lists, the models text of the vehicle-brand form, the order of the service
  * cards, and the image checks made before a form is sent. The slug rule it applies
  * is `Slug.Slugify`. */
module AdminDashboard {
  import opened Common
  import opened Text
  import opened Slug
  import opened BookingData
  import opened Documents
  import Email
  import SpecialServices
  import Bookings

  // ----- Bookings grouped by date -----

  /** The bookings on one date, in their original order. */
  function OnDate(bs: seq<Booking>, date: string): (r: seq<Booking>)
    ensures forall b :: b in r ==> b in bs && b.bookingDate == date
  {
    if bs == [] then []
    else
      var last := bs[|bs| - 1];
      OnDate(bs[..|bs| - 1], date) + (if last.bookingDate == date then [last] else [])
  }

  function Dates(bs: seq<Booking>): set<string> {
    set b | b in bs :: b.bookingDate
  }

  /** What the `reduce` builds: one group per date that occurs, holding the bookings
    * on that date. */
  function Grouped(bs: seq<Booking>): map<string, seq<Booking>> {
    map d | d in Dates(bs) :: OnDate(bs, d)
  }

  lemma {:induction false} OnDateAbsent(bs: seq<Booking>, date: string)
    requires date !in Dates(bs)
    ensures OnDate(bs, date) == []
  {
    if bs != [] {
      assert bs[|bs| - 1] in bs;
      assert Dates(bs[..|bs| - 1]) <= Dates(bs) by {
        forall b | b in bs[..|bs| - 1] ensures b in bs { }
      }
      OnDateAbsent(bs[..|bs| - 1], date);
    }
  }

  lemma DatesSnoc(xs: seq<Booking>, b: Booking)
    ensures Dates(xs + [b]) == Dates(xs) + {b.bookingDate}
  {
    var ys := xs + [b];
    forall d | d in Dates(ys) ensures d in Dates(xs) + {b.bookingDate} {
      var c :| c in ys && c.bookingDate == d;
      assert c in xs || c == b;
    }
    forall d | d in Dates(xs) ensures d in Dates(ys) {
      var c :| c in xs && c.bookingDate == d;
      assert c in ys;
    }
    assert b in ys;
  }

  /** One more booking joins the group of its date (a new group if the date is new). */
  lemma GroupedSnoc(xs: seq<Booking>, b: Booking)
    ensures var g := Grouped(xs);
            Grouped(xs + [b]) == g[b.bookingDate := (if b.bookingDate in g then g[b.bookingDate] else []) + [b]]
  {
    var ys := xs + [b];
    var d := b.bookingDate;
    var g := Grouped(xs);
    var rhs := g[d := (if d in g then g[d] else []) + [b]];
    assert ys[..|ys| - 1] == xs;
    DatesSnoc(xs, b);
    if d !in Dates(xs) {
      OnDateAbsent(xs, d);
    }
    assert Grouped(ys).Keys == rhs.Keys;
    forall e | e in rhs ensures Grouped(ys)[e] == rhs[e] {
      assert OnDate(ys, e) == OnDate(xs, e) + (if e == d then [b] else []);
    }
  }

  /** `bookings.reduce(...)`: pushes each booking onto the list of its date. */
  method GroupByDate(bookings: seq<Booking>) returns (groups: map<string, seq<Booking>>)
    ensures groups == Grouped(bookings)
  {
    groups := map[];
    var i := 0;
    while i < |bookings|
      invariant 0 <= i <= |bookings|
      invariant groups == Grouped(bookings[..i])
    {
      var b := bookings[i];
      GroupedSnoc(bookings[..i], b);
      assert bookings[..i + 1] == bookings[..i] + [b];
      groups := groups[b.bookingDate := (if b.bookingDate in groups then groups[b.bookingDate] else []) + [b]];
      i := i + 1;
    }
    assert bookings[..i] == bookings;
  }

  /** The `reduce` as the page runs it on a plain `{}`: for a date that names an
    * inherited property, `acc[date] || []` is that truthy property, its `push` is
    * undefined and the call throws, so the bookings tab is not drawn (`None`).
    * Otherwise the groups are `Grouped`, which `GroupByDate` computes. */
  function GroupAsWritten(bs: seq<Booking>): (r: Option<map<string, seq<Booking>>>)
    ensures r.None? <==> exists i :: 0 <= i < |bs| && bs[i].bookingDate in PrototypeNames
    ensures r.Some? ==> r.value.Keys == Dates(bs) && r.value.Keys !! PrototypeNames
  {
    if exists i :: 0 <= i < |bs| && bs[i].bookingDate in PrototypeNames then None
    else Some(Grouped(bs))
  }

  /** The booking route accepts any non-empty date text, so one booking dated with an
    * inherited property name (`constructor`, `toString`, ...) makes the page as written
    * fail, while the intended grouping files it under that date. */
  lemma PrototypeDateHidesBookings(req: BookingRequest, now: int)
    requires Bookings.Complete(req) && req.bookingDate.value in PrototypeNames
    ensures GroupAsWritten([Bookings.NewBooking(req, now)]).None?
    ensures Grouped([Bookings.NewBooking(req, now)]) == map[req.bookingDate.value := [Bookings.NewBooking(req, now)]]
  {
    var b := Bookings.NewBooking(req, now);
    var d := req.bookingDate.value;
    assert [b][0].bookingDate == d;
    assert Dates([b]) == {d} by {
      assert b in [b];
    }
    assert OnDate([b], d) == [b] by {
      assert [b][..0] == [];
    }
  }

  /** Every booking lands in the group of its own date, and only there. */
  lemma {:induction false} GroupOfEach(bs: seq<Booking>, b: Booking)
    requires b in bs
    ensures b.bookingDate in Grouped(bs) && b in Grouped(bs)[b.bookingDate]
    ensures forall d :: d in Grouped(bs) && b in Grouped(bs)[d] ==> d == b.bookingDate
  {
    var xs := bs[..|bs| - 1];
    assert bs == xs + [bs[|bs| - 1]];
    if b != bs[|bs| - 1] {
      GroupOfEach(xs, b);
      assert Dates(xs) <= Dates(bs);
    }
  }

  /** The total size of a set of groups. */
  ghost function Total(m: map<string, seq<Booking>>): nat
    decreases |m.Keys|
  {
    if m == map[] then 0
    else
      var k :| k in m;
      |m[k]| + Total(m - {k})
  }

  lemma {:induction false} TotalRemove(m: map<string, seq<Booking>>, k: string)
    requires k in m
    ensures Total(m) == |m[k]| + Total(m - {k})
    decreases |m.Keys|
  {
    var j :| j in m && Total(m) == |m[j]| + Total(m - {j});
    if j != k {
      assert |(m - {j}).Keys| < |m.Keys| by { assert m.Keys - {j} < m.Keys; }
      assert |(m - {k}).Keys| < |m.Keys| by { assert m.Keys - {k} < m.Keys; }
      TotalRemove(m - {j}, k);
      TotalRemove(m - {k}, j);
      assert m - {j} - {k} == m - {k} - {j};
    }
  }

  /** Replacing or adding the group under `d` changes the total by the size difference. */
  lemma TotalUpdate(g: map<string, seq<Booking>>, d: string, v: seq<Booking>)
    ensures Total(g[d := v]) == Total(g) - (if d in g then |g[d]| else 0) + |v|
  {
    var g' := g[d := v];
    TotalRemove(g', d);
    assert g' - {d} == g - {d};
    if d in g {
      TotalRemove(g, d);
    } else {
      assert g - {d} == g;
    }
  }

  /** The group sizes add up to the number of bookings. */
  lemma {:induction false} GroupSizes(bs: seq<Booking>)
    ensures Total(Grouped(bs)) == |bs|
  {
    if bs == [] {
      assert Grouped(bs) == map[];
    } else {
      var xs, b := bs[..|bs| - 1], bs[|bs| - 1];
      assert bs == xs + [b];
      GroupSizes(xs);
      GroupedSnoc(xs, b);
      var g := Grouped(xs);
      var d := b.bookingDate;
      TotalUpdate(g, d, (if d in g then g[d] else []) + [b]);
    }
  }

  /** `getServices`: the service name, then each additional service's name, empty
    * names dropped. */
  function NonEmpty(xs: seq<string>): (r: seq<string>)
    ensures forall x :: x in r <==> x in xs && x != ""
    ensures |r| <= |xs|
  {
    if xs == [] then []
    else if xs[0] == "" then NonEmpty(xs[1..])
    else [xs[0]] + NonEmpty(xs[1..])
  }

  function ServiceList(b: Booking): (r: seq<string>)
    ensures forall x :: x in r <==> x != "" && (x == b.serviceName || x in Email.Names(b.additionalServices))
    ensures b.serviceName != "" ==> r != [] && r[0] == b.serviceName
    ensures |r| <= 1 + |b.additionalServices|
  {
    NonEmpty([b.serviceName] + Email.Names(b.additionalServices))
  }

  /** The Accept button is offered for pending bookings only. */
  predicate CanAccept(b: Booking) {
    b.status == "pending"
  }

  /** A new booking is offered for acceptance; accepting it (a PUT with status
    * `confirmed`) withdraws the offer. */
  lemma AcceptOnce(req: BookingRequest, now: int, later: int)
    requires Bookings.Complete(req)
    ensures CanAccept(Bookings.NewBooking(req, now))
    ensures !CanAccept(Bookings.Confirm(Bookings.NewBooking(req, now), Some("confirmed"), later))
  {
  }

  // ----- Special-services tab -----

  /** The special-services tab lists a sorted copy, `[...services].sort(...)`, with the
    * comparator of the special-services page: the same services, by `order`. The
    * fetched list itself is a value here and stays as it was. Every stored special
    * service has an `order` (`SpecialServices.SpecialServiceStore.Valid`), so the
    * comparator never meets a missing one. */
  function SpecialTabCards(services: seq<Doc>): (r: seq<Doc>)
    ensures multiset(r) == multiset(services)
    ensures forall i, j :: 0 <= i < j < |r| ==> NumericOrder(Get(r[i], "order")) <= NumericOrder(Get(r[j], "order"))
  {
    SortByOrder(services)
  }

  // ----- Models text of the vehicle-brand form -----

  function TrimAll(xs: seq<string>): (r: seq<string>)
    ensures |r| == |xs| && forall i :: 0 <= i < |xs| ==> r[i] == Trim(xs[i])
  {
    seq(|xs|, i requires 0 <= i < |xs| => Trim(xs[i]))
  }

  /** `models.split(",").map(m => m.trim()).filter(Boolean)`. */
  function ParseModels(text: string): seq<string> {
    NonEmpty(TrimAll(Split(text, ',')))
  }

  /** A model entry as the parser leaves it: non-empty, no comma, no surrounding space. */
  predicate CleanEntry(m: string) {
    m != "" && ',' !in m && Trim(m) == m
  }

  lemma TrimClean(x: string)
    requires ',' !in x
    ensures ',' !in Trim(x) && Trim(Trim(x)) == Trim(x)
  {
    TrimFixed(Trim(x));
  }

  /** Every parsed entry is clean. */
  lemma ParseModelsClean(text: string)
    ensures forall m :: m in ParseModels(text) ==> CleanEntry(m)
  {
    var pieces := Split(text, ',');
    var trimmed := TrimAll(pieces);
    forall m | m in ParseModels(text) ensures CleanEntry(m) {
      var i :| 0 <= i < |trimmed| && trimmed[i] == m;
      assert pieces[i] in pieces;
      TrimClean(pieces[i]);
    }
  }

  /** The list as the edit form shows it, split at `,`: every entry after the first
    * keeps the space that followed the comma. */
  function Spaced(ms: seq<string>): (r: seq<string>)
    ensures |r| == |ms|
  {
    seq(|ms|, i requires 0 <= i < |ms| => if i == 0 then ms[0] else " " + ms[i])
  }

  lemma {:induction false} JoinSpaced(ms: seq<string>)
    requires |ms| >= 1
    ensures Join(ms, ", ") == Join(Spaced(ms), ",")
  {
    if |ms| >= 2 {
      JoinSpaced(ms[1..]);
      var tail := Spaced(ms[1..]);
      assert Spaced(ms)[1..] == [[' '] + ms[1]] + tail[1..];
      assert tail == [ms[1]] + tail[1..];
      JoinConsChar(' ', ms[1], tail[1..], ",");
    }
  }

  lemma TrimSpaced(m: string)
    requires m != "" && Trim(m) == m
    ensures Trim(" " + m) == m
  {
    TrimFixed(m);
    var s := " " + m;
    assert SkipSpace(s, 1) == 1;
    assert SkipSpace(s, 0) == 1;
    assert SkipSpaceBack(s, 1, |s|) == |s|;
    assert s[1..|s|] == m;
  }

  lemma {:induction false} NonEmptyKeeps(xs: seq<string>)
    requires forall x :: x in xs ==> x != ""
    ensures NonEmpty(xs) == xs
  {
    if xs != [] {
      assert xs[0] in xs;
      forall x | x in xs[1..] ensures x != "" {
        assert x in xs;
      }
      NonEmptyKeeps(xs[1..]);
    }
  }

  lemma TrimAllSpaced(models: seq<string>)
    requires forall m :: m in models ==> CleanEntry(m)
    ensures TrimAll(Spaced(models)) == models
  {
    var p := Spaced(models);
    forall i | 0 <= i < |p| ensures Trim(p[i]) == models[i] {
      assert models[i] in models;
      if i > 0 {
        TrimSpaced(models[i]);
      }
    }
  }

  lemma SpacedNoComma(models: seq<string>)
    requires forall m :: m in models ==> CleanEntry(m)
    ensures forall x :: x in Spaced(models) ==> ',' !in x
  {
    var p := Spaced(models);
    forall x | x in p ensures ',' !in x {
      var i :| 0 <= i < |p| && p[i] == x;
      assert models[i] in models;
    }
  }

  /** Splitting a list joined by ", " at the commas and trimming each piece gives the
    * list back, provided its entries are clean. */
  lemma SplitTrimJoin(entries: seq<string>)
    requires |entries| >= 1 && forall m :: m in entries ==> CleanEntry(m)
    ensures TrimAll(Split(Join(entries, ", "), ',')) == entries
  {
    JoinSpaced(entries);
    SpacedNoComma(entries);
    SplitJoin(Spaced(entries), ',');
    TrimAllSpaced(entries);
  }

  /** Editing a brand shows its models joined by ", "; submitting that text unchanged
    * gives back the same list, provided its entries are clean. */
  lemma ParseModelsJoin(models: seq<string>)
    requires forall m :: m in models ==> CleanEntry(m)
    ensures ParseModels(Join(models, ", ")) == models
  {
    if models == [] {
      assert Split("", ',') == [""];
      assert TrimAll([""]) == [""] by {
        TrimFixed("");
      }
    } else {
      SplitTrimJoin(models);
      NonEmptyKeeps(models);
    }
  }

  // ----- Image checks before a form is sent -----

  /** The check before a service form (special or general) is sent: both image URLs. */
  function ServiceImagesCheck(heroUrl: Option<string>, contentUrl: Option<string>): (error: Option<string>)
    ensures error.None? <==> Given(heroUrl) && Given(contentUrl)
    ensures error.Some? ==> error.value == "Both images are required"
  {
    if !Given(heroUrl) || !Given(contentUrl) then Some("Both images are required") else None
  }

  /** The check before a brand logo or a model image is sent: its URL and media id. */
  function MediaCheck(url: Option<string>, publicId: Option<string>, error: string): (r: Option<string>)
    ensures r.None? <==> Given(url) && Given(publicId)
    ensures r.Some? ==> r.value == error
  {
    if !Given(url) || !Given(publicId) then Some(error) else None
  }

  /** The special-service request body: the form, the two images and the slug of the
    * name (`_id` added when editing is not modelled here). */
  function SpecialBody(form: Doc, heroUrl: string, heroId: string, contentUrl: string, contentId: string,
                       name: string): Doc {
    form["heroImage" := Text(heroUrl)]["heroImagePublicId" := Text(heroId)]
        ["contentImage" := Text(contentUrl)]["contentImagePublicId" := Text(contentId)]
        ["slug" := Text(Slugify(name))]
  }

  /** Once the image check passes, the route's create check depends only on the four
    * text fields of the form. */
  lemma SpecialBodyChecked(form: Doc, heroUrl: string, heroId: string, contentUrl: string, contentId: string, name: string)
    requires ServiceImagesCheck(Some(heroUrl), Some(contentUrl)).None?
    ensures SpecialServices.HasRequired(SpecialBody(form, heroUrl, heroId, contentUrl, contentId, name)) <==>
              forall f :: f in {"name", "tagline", "description", "content"} ==> Truthy(Get(form, f))
  {
    var body := SpecialBody(form, heroUrl, heroId, contentUrl, contentId, name);
    assert forall f :: f in {"name", "tagline", "description", "content"} ==> Get(body, f) == Get(form, f);
    assert Truthy(Get(body, "heroImage")) && Truthy(Get(body, "contentImage"));
    if forall f :: f in {"name", "tagline", "description", "content"} ==> Truthy(Get(form, f)) {
      assert SpecialServices.HasRequired(body);
    }
  }
}
