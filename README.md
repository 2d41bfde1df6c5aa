# Automotive car-care site: bookings, catalogue and pages

This project models the core of a car-care company's web site. The core has these parts:

- **API routes.** These keep the MongoDB collections:
  - bookings;
  - vehicle brands, used by the booking form;
  - car brands and car models;
  - special services and detailed services.
- **Mail.** The mails the site sends when a booking is made or accepted, and when the contact form is used.
- **Client pages.** These use the routes:
  - the booking form;
  - the contact form;
  - the car-brands page;
  - the home-page slider;
  - the services page;
  - the special-services page;
  - the parts of the admin dashboard that compute something.

Each route is a `class` whose field is its collection, a `map` from document id to record. GET, POST, PUT and DELETE are methods whose contracts give the reply for every error case and the new collection. Each client page whose component keeps state is also a class; its event handlers are methods. Pure computations are functions, and the properties that relate several calls are lemmas.

The environment enters as parameters:

- **The clock** is an `int` named `now`.
- **Fresh database ids** are passed in as the id a new record gets.
- **Mail settings** are an `Email.Env` record.
- **The mail server's answers** are a sequence `smtp`. Entry *i* is `None` when step *i* (the connection check, then each mail) succeeds, and `Some(error)` when it fails.
- **Responses of the network** are booleans or reply values given to the page methods.

Module layout:

- `common.dfy`: `Option`, JavaScript truthiness of an optional string field, and route replies.
- `text.dfy`: the JavaScript whitespace set, trimming, `split`/`join`, ASCII case mapping, decimal rendering, and substring search.
- `slug.dfy`: the slug rule shared by every route and the dashboard.
- `sorting.dfy`: code-point string order, a sort by comparator, and the sorted listing of a collection.
- `objectid.dfy`: the 24-hex-digit ObjectId spelling and the stored key.
- `documents.dfy`: schemaless service documents and the BSON order of the `order` field.
- `booking_data.dfy`: the booking record.
- One file per route or page, named after it.

## Model

| member | source | states |
|---|---|---|
| Slug.SlugShape | src/app/api/car-brands/route.js:35 | a slug only holds `a-z`, `0-9` and single inner dashes, never at either end |
| Slug.SlugKeepsAlnums | src/app/api/car-models/route.js:61-69 | slugifying keeps every letter and digit of the lower-cased name, in order |
| Slug.SlugEmpty | src/app/api/vehicle-brands/route.js:46-49 | the slug is empty exactly when the lower-cased name has no ASCII letter or digit |
| Slug.SlugFixed | src/app/api/detailed-services/route.js:25-28 | a string already in slug form is its own slug |
| Slug.SlugIdempotent | src/app/admin/dashboard/page.js:31-32 | slugifying a slug changes nothing |
| Text.JoinSplit | src/app/admin/dashboard/page.js:895-898 | joining the pieces of a split with the separator gives back the text |
| Text.SplitJoin | src/app/admin/dashboard/page.js:1013 | splitting a join of separator-free pieces gives back the pieces |
| Text.TrimFixed | src/app/admin/dashboard/page.js:895-898 | trimming is the identity exactly on text without whitespace at either end |
| Text.TrimEmpty | src/app/services/page.js:287 | the trimmed text is empty exactly when the text is all whitespace |
| Text.NatToStringValue | src/app/car-brands/page.js:235-237 | the decimal rendering of a count reads back as that count |
| Sorting.SortBy | src/app/services/page.js:41-44 | the result is sorted by the comparator and is a permutation of the input |
| Sorting.SortedEntries | src/app/api/car-brands/route.js:10 | every document of a collection is listed once with its id, in comparator order |
| Sorting.LexTotal | src/app/car-brands/page.js:49 | any two names are ordered one way or the other |
| Sorting.LexTransitive | src/app/car-brands/page.js:49 | the name order is transitive |
| Sorting.LexAntisymmetric | src/app/car-brands/page.js:49 | names ordered both ways are equal |
| ObjectIds.Parse | src/app/api/car-brands/route.js:91 | an id converts exactly when it spells 24 hex digits, to a stored key |
| ObjectIds.KeyCanonical | src/app/api/bookings/route.js:91 | a stored key is its own key, so hex spellings differing only in case name one document |
| Documents.Merge | src/app/api/special-services/route.js:58-64 | a `$set` of the body keeps every other field, takes each body field, and stamps `updatedAt` |
| Documents.OrderLePreorder | src/app/api/special-services/route.js:14 | the database order on `order` values (type rank first, then value) is total and transitive |
| Documents.SortByOrder | src/app/special-services/SpecialServicesClient.js:20 | the services are permuted into ascending numeric `order` |
| Bookings.MissingFields | src/app/api/bookings/route.js:29-35 | a field is listed exactly when it is required and absent or empty, in the required order; nothing is listed exactly when the request is complete |
| Bookings.BookingStore.List | src/app/api/bookings/route.js:8-21 | every booking once, with its id, newest first |
| Bookings.BookingStore.Post | src/app/api/bookings/route.js:23-74 | an incomplete request is refused, listing the missing fields, and stores nothing; a complete one stores a pending booking under the new id with the defaults filled in, and the mail outcome does not change the reply |
| Bookings.BookingStore.Put | src/app/api/bookings/route.js:76-129 | a missing id, a malformed id and an unknown id give 400, 400 and 404 and change nothing; otherwise the status (default `confirmed`) and `updatedAt` are set, and `emailSent` holds exactly when the status was `confirmed` and the acceptance mail was delivered |
| Bookings.BookingStore.Delete | src/app/api/bookings/route.js:131-156 | a well-formed id of an existing booking removes exactly that booking; every other case is refused and changes nothing |
| AdminDashboard.AcceptOnce | src/app/admin/dashboard/page.js:174 | a new booking can be accepted, and one confirmed by the route no longer shows the Accept button |
| Email.AdminRecipient | src/lib/email.js:187-191 | the admin mail goes to `ADMIN_EMAIL` when set, else to the sending account |
| Email.ContactPhone | src/lib/email.js:169 | the phone in the mails is never empty; it is the configured phone when one is given, and the built-in number when none is configured or the configured one is that same text |
| Email.Run | src/lib/email.js:330-345 | the steps attempted are a prefix of the plan; delivery succeeds exactly when every step succeeds, and the first failing step's error is the outcome |
| Email.ComposeServicesText | src/lib/email.js:24-50 | builds the services paragraph of the mails |
| Email.ServicesTextMentions | src/lib/email.js:24-50 | the paragraph is empty exactly when the booking has no service name and no additional services; otherwise it names the main service and every additional one |
| Email.DisplayIdShape | src/lib/email.js:135 | the booking number shown is `#` and the last eight hex digits in upper case |
| Email.DisplayIdIgnoresCase | src/lib/email.js:481 | the displayed number does not depend on the case of the id |
| Email.BookingNotification | src/lib/email.js:4-347 | the notification is delivered exactly when the connection check, the customer mail and the admin mail all succeed; a failed check sends nothing |
| Email.SendBookingNotification | src/lib/email.js:4-347 | the check, then the customer mail, then the admin mail, stopping at the first failure |
| Email.AcceptanceMail | src/lib/email.js:350-559 | the acceptance mail is delivered exactly when the check and the one mail succeed |
| Email.SendAcceptanceEmail | src/lib/email.js:350-559 | the check, then the acceptance mail |
| VehicleBrands.VehicleBrandStore.List | src/app/api/vehicle-brands/route.js:16 | every brand once, with its id, in name order |
| VehicleBrands.VehicleBrandStore.Post | src/app/api/vehicle-brands/route.js:31-82 | no name gives 400; a name whose slug is taken gives 400; otherwise the brand is stored with its slug and models (default none); slugs stay unique |
| VehicleBrands.VehicleBrandStore.Put | src/app/api/vehicle-brands/route.js:85-135 | no id gives 400; no name fails; a bad id fails; otherwise name, slug, models (`[]` when omitted) and `updatedAt` of that brand are replaced, or 404 |
| VehicleBrands.VehicleBrandStore.Delete | src/app/api/vehicle-brands/route.js:138-176 | removes exactly the brand named by a valid id, else 400, invalid id or 404 with nothing changed |
| VehicleBrands.UpdateCanDuplicateSlug | src/app/api/vehicle-brands/route.js:101-123 | an update can give a brand another brand's slug, since PUT has no duplicate check |
| CarBrands.CarBrandStore.List | src/app/api/car-brands/route.js:10 | every car brand once, in name order |
| CarBrands.CarBrandStore.Post | src/app/api/car-brands/route.js:20-61 | name, logo and media id are all required; a taken slug gives 400; otherwise the brand is stored |
| CarBrands.CarBrandStore.Put | src/app/api/car-brands/route.js:64-104 | id and name required; the logo and media id are replaced only when given; the creation time is kept |
| CarBrands.CarBrandStore.Delete | src/app/api/car-brands/route.js:107-130 | removes exactly the named brand or reports why not, changing nothing |
| CarBrands.UpdatedWellFormed | src/app/api/car-brands/route.js:79-97 | an update keeps the record well formed, keeps an unspecified logo or media id, and keeps `createdAt` |
| CarModels.ByBrandThenNamePreorder | src/app/api/car-models/route.js:22 | sorting by brand, then by name, is a total preorder |
| CarModels.CarModelStore.List | src/app/api/car-models/route.js:6-36 | exactly the models of the requested brand (all when none), each once, by brand then name |
| CarModels.CarModelStore.Post | src/app/api/car-models/route.js:39-108 | all four fields required; the same brand-and-name pair gives 400; otherwise stored with slugs and a service count of 6 |
| CarModels.CarModelStore.Put | src/app/api/car-models/route.js:111-178 | overwrites brand, name, slugs, image, media id and service count of the named model, storing `null` for each of the last three left out, or reports the error |
| CarModels.CarModelStore.Delete | src/app/api/car-models/route.js:181-234 | removes the model and always requests deletion of its stored media id, `null` included |
| CarModels.CaseVariantIsNoDuplicate | src/app/api/car-models/route.js:72-78 | the duplicate check compares names exactly: a brand differing from the stored one only in letter case passes beside a model of the same name, although both brands get the same slug |
| SpecialServices.NewService | src/app/api/special-services/route.js:33-37 | the stored document holds the copied fields, `order` (default 0) and both timestamps |
| SpecialServices.SpecialServiceStore.List | src/app/api/special-services/route.js:7-20 | every service once, in database order of `order` |
| SpecialServices.SpecialServiceStore.Post | src/app/api/special-services/route.js:22-45 | refused unless name, tagline, description, content, hero image and content image are all truthy; else stored with the copied fields; every stored service keeps an `order` |
| SpecialServices.SpecialServiceStore.Put | src/app/api/special-services/route.js:47-70 | merges the body into the named service, or reports the error; every stored service keeps an `order` |
| SpecialServices.SpecialServiceStore.Delete | src/app/api/special-services/route.js:72-92 | removes the named service, or reports the error |
| DetailedServices.SlugFor | src/app/api/detailed-services/route.js:23-28 | a truthy slug is kept; otherwise a text name is slugified; otherwise the POST fails |
| DetailedServices.NewService | src/app/api/detailed-services/route.js:31-37 | the stored document is the body without `_id`, with the slug, image fields (default null) and timestamps |
| DetailedServices.DetailedServiceStore.List | src/app/api/detailed-services/route.js:5-18 | every service once, in database order of `order` |
| DetailedServices.DetailedServiceStore.Post | src/app/api/detailed-services/route.js:20-42 | stores the new document, or fails without slug and name |
| DetailedServices.DetailedServiceStore.Put | src/app/api/detailed-services/route.js:44-57 | merges the body into the named service; without an id nothing matches and the reply is still success |
| DetailedServices.DetailedServiceStore.Delete | src/app/api/detailed-services/route.js:59-70 | removes the named service; without an id nothing is removed and the reply is still success |
| AddressPattern.MatchesEmailShape | src/app/api/contact/route.js:19-25 | an address matches the pattern exactly when it has one `@`, no whitespace, and a dot with text on both sides after the `@` |
| ContactPage.Errors | src/app/contact/page.js:26-57 | an error is recorded for each field exactly when that field fails its rule, with that rule's message, and for no other key; none exactly when the form is valid |
| ContactPage.ContactForm.CheckFields | src/app/contact/page.js:26-57 | the field-by-field checks build exactly the messages of `Errors` |
| ContactPage.ContactForm.ValidateForm | src/app/contact/page.js:26-57 | the stored errors are the per-field messages of `Errors`; valid exactly when no errors are shown |
| ContactPage.ContactForm.HandleChange | src/app/contact/page.js:16-24 | the field takes the new value and its shown error is cleared |
| ContactPage.ContactForm.Submit | src/app/contact/page.js:59-93 | sends exactly valid forms; a form that is not sent shows the per-field messages of `Errors`; a success clears the form; a refusal or network failure keeps it with the right notice |
| ContactRoute.Post | src/app/api/contact/route.js:7-311 | missing fields and a malformed address are refused before any mail; otherwise the reply is success exactly when the check, the admin mail and the auto-reply are delivered |
| ContactRoute.FormCheckedIsRouteChecked | src/app/api/contact/route.js:11-25 | a form the page accepts passes the route's checks |
| ContactRoute.RouteAcceptsBlankName | src/app/contact/page.js:30-32 | a name of spaces passes the route though the page would refuse it |
| AdminDashboard.GroupByDate | src/app/admin/dashboard/page.js:70-74 | the intended grouping (see Findings): the loop builds exactly one group per booking date, holding that date's bookings in order |
| AdminDashboard.GroupAsWritten | src/app/admin/dashboard/page.js:70-74 | the `reduce` on a plain object fails exactly when some booking's date names an inherited object property; otherwise one group per date, none of them such a name |
| AdminDashboard.PrototypeDateHidesBookings | src/app/api/bookings/route.js:29-35 | a complete booking dated with an inherited property name such as `constructor` is accepted by the route, makes the page's grouping fail, and has its own group in the intended one |
| AdminDashboard.GroupOfEach | src/app/admin/dashboard/page.js:70-74 | every booking is in the group of its own date and in no other |
| AdminDashboard.GroupSizes | src/app/admin/dashboard/page.js:70-74 | the group sizes add up to the number of bookings |
| AdminDashboard.ServiceList | src/app/admin/dashboard/page.js:76-77 | the names listed are exactly the non-empty main and additional service names, main first |
| AdminDashboard.ParseModelsClean | src/app/admin/dashboard/page.js:895-898 | every parsed model is non-empty, trimmed and comma-free |
| AdminDashboard.ParseModelsJoin | src/app/admin/dashboard/page.js:1013 | parsing the comma-joined list of clean models gives the list back |
| AdminDashboard.ServiceImagesCheck | src/app/admin/dashboard/page.js:620 | refuses exactly when either image is missing |
| AdminDashboard.MediaCheck | src/app/admin/dashboard/page.js:1071 | refuses exactly when the image or its media id is missing |
| AdminDashboard.SpecialTabCards | src/app/admin/dashboard/page.js:799-800 | the special-services tab shows the same services, in ascending `order` |
| AdminDashboard.SpecialBodyChecked | src/app/api/special-services/route.js:27-28 | the dashboard's body passes the route's check exactly when the four text fields were filled |
| BookingPage.SanitizePhone | src/app/booking/page.js:125 | the kept value is at most ten characters, all digits, a prefix of the digits typed, and all of them when fewer than ten |
| BookingPage.DigitsOfDigits | src/app/booking/page.js:124-132 | keeping the digits of digits changes nothing |
| BookingPage.SanitizeIdempotent | src/app/booking/page.js:124-132 | cleaning a phone twice is cleaning it once |
| BookingPage.PhoneError | src/app/booking/page.js:124-132 | the phone hint shows exactly for 1 to 9 digits |
| BookingPage.ToggleFlips | src/app/booking/page.js:110-119 | a toggle flips whether that service is selected and leaves the others alone |
| BookingPage.WithoutSlugUnique | src/app/booking/page.js:116 | removing a slug from a list of distinct slugs keeps them distinct |
| BookingPage.WithoutSlugAbsent | src/app/booking/page.js:116 | removing a slug the list does not hold gives back the same list |
| BookingPage.ToggleUnique | src/app/booking/page.js:110-119 | toggling keeps the selected slugs distinct |
| BookingPage.ToggleTwiceAbsent | src/app/booking/page.js:110-119 | selecting and then unselecting a service restores the list |
| BookingPage.ToggleTwiceSameSlugs | src/app/booking/page.js:110-119 | toggling twice gives the same set of selected slugs |
| BookingPage.ServiceUrl | src/app/booking/page.js:135-141 | the link leads to the special or general service page of the slug, or `#` |
| BookingPage.SubmitCheck | src/app/booking/page.js:147-160 | refusal for a phone that is not ten digits, then for no service in the current mode |
| BookingPage.PayloadServices | src/app/booking/page.js:168-194 | single mode sends no extra services; multiple mode sends the first choice as the service and the rest, in order, as extras |
| BookingPage.PayloadComplete | src/app/booking/page.js:144-194 | a form that passes the page's checks is a complete request for the route |
| BookingPage.BookingForm.constructor | src/app/booking/page.js:14-53 | the empty form with the service from the page address preselected |
| BookingPage.BookingForm.ChooseSingle | src/app/booking/page.js:351-354 | single mode drops the extra services |
| BookingPage.BookingForm.ChooseMultiple | src/app/booking/page.js:361-364 | multiple mode drops the single choice |
| BookingPage.BookingForm.Toggle | src/app/booking/page.js:102-121 | single mode replaces the choice; multiple mode flips this service |
| BookingPage.BookingForm.PhoneChange | src/app/booking/page.js:124-132 | keeps the first ten digits and sets the hint |
| BookingPage.BookingForm.BrandChange | src/app/booking/page.js:90-95 | clears the model and offers the chosen brand's models |
| BookingPage.BookingForm.Submit | src/app/booking/page.js:144-194 | a request is built exactly when the page check passes, and it is the payload of the form, with the phone hint unchanged; a bad phone sets the hint, any other refusal the message |
| BookingPage.BookingForm.Finish | src/app/booking/page.js:212-231 | an accepted booking resets the form with the route's message; a refusal keeps it |
| CarBrandsPage.Color | src/app/car-brands/page.js:59-72 | a non-empty name gets the palette colour of its first code unit |
| CarBrandsPage.ColorIgnoresCase | src/app/car-brands/page.js:59-72 | the colour does not depend on letter case |
| CarBrandsPage.Cards | src/app/car-brands/page.js:31-47 | one card per brand slug, holding exactly the names of that brand's models in order, and their count |
| CarBrandsPage.UnknownModelDropped | src/app/car-brands/page.js:42-47 | a model of an unknown brand changes no card |
| CarBrandsPage.MergeAsWritten | src/app/car-brands/page.js:31-47 | the merge fails exactly when a model names a brand slug that is unknown but is a built-in object property |
| CarBrandsPage.ConstructorModelBlanksPage | src/app/car-brands/page.js:42-47 | with brand Toyota and a stray model of slug `constructor`, the merge fails, while the intended cards still show Toyota |
| CarBrandsPage.InitialCards | src/app/car-brands/page.js:31-40 | the brand loop leaves one fresh card per slug, from the last brand with that slug |
| CarBrandsPage.AttachModels | src/app/car-brands/page.js:42-47 | the intended model loop (see Findings): each model is appended to its brand's card and counted, and a model with an unknown slug is skipped, including one the page as written would throw on |
| CarBrandsPage.SortCards | src/app/car-brands/page.js:49 | every card once, each the card of its slug, ordered by name |
| CarBrandsPage.BuildCards | src/app/car-brands/page.js:31-47 | the two loops build exactly the cards |
| CarBrandsPage.Visible | src/app/car-brands/page.js:78-80 | a card shows exactly when its name contains the query, ignoring case |
| CarBrandsPage.EmptyQueryShowsAll | src/app/car-brands/page.js:78-80 | an empty query shows every card |
| CarBrandsPage.QueryIgnoresCase | src/app/car-brands/page.js:78-80 | an upper-cased query shows the same cards |
| CarBrandsPage.ChipsFor | src/app/car-brands/page.js:224-238 | at most three model chips, the first models, and a "+N more" chip exactly when more exist |
| CarBrandsPage.BrandsPage.Load | src/app/car-brands/page.js:19-57 | the intended load (see Findings): only when both lists arrive, one card per distinct brand slug, each its merged card, in name order; the page as written keeps the old cards when a model names an inherited property, which `MergeAsWritten` states |
| HeroSlider.NextIndex | src/components/HeroSlider.js:58-62 | the next slide, wrapping from the last to the first |
| HeroSlider.PrevIndex | src/components/HeroSlider.js:64-68 | the previous slide, wrapping from the first to the last |
| HeroSlider.PrevNext | src/components/HeroSlider.js:58-68 | back after forward and forward after back return to the same slide |
| HeroSlider.ViewOf | src/components/HeroSlider.js:70-95 | spinner while loading, fallback with no images, arrows and dots only with two or more |
| HeroSlider.Slider.Load | src/components/HeroSlider.js:25-50 | the received images, or none when the request failed |
| HeroSlider.Slider.Tick | src/components/HeroSlider.js:16-23 | autoplay moves to the next slide |
| HeroSlider.Slider.Next | src/components/HeroSlider.js:58-62 | next slide, autoplay paused |
| HeroSlider.Slider.Prev | src/components/HeroSlider.js:64-68 | previous slide, autoplay paused |
| HeroSlider.Slider.GoTo | src/components/HeroSlider.js:52-56 | the chosen slide, autoplay paused |
| HeroSlider.Slider.Resume | src/components/HeroSlider.js:52-68 | autoplay resumes on the same slide |
| ServicesPage.Lists | src/app/services/page.js:34-51 | both lists, each a permutation of its reply sorted by `order`, or both empty on failure |
| ServicesPage.Combined | src/app/services/page.js:54-79 | general entries first, then special ones, each built from its document |
| ServicesPage.LinkFollowsKind | src/app/services/page.js:54-79 | a general entry links to the service page, a special one to the special-services page, by slug |
| ServicesPage.Filtered | src/app/services/page.js:81-84 | the tab shows exactly the entries of its kind, or all |
| ServicesPage.TabsShowTheirLists | src/app/services/page.js:81-87 | each kind's tab shows exactly that kind's list and the counts match |
| ServicesPage.FeatureLines | src/app/services/page.js:274-287 | as many lines as comma-separated pieces, at most three, each the trimmed piece in the same position |
| ServicesPage.FeatureLinesOfList | src/app/services/page.js:274-287 | a comma-joined list of clean features shows its first three |
| SpecialServicesClient.FindIndex | src/app/special-services/SpecialServicesClient.js:23-29 | the first service with that slug, or -1 exactly when none has it |
| SpecialServicesClient.InitialIndex | src/app/special-services/SpecialServicesClient.js:23-29 | with a query, the matching service or the first; without, the first when any |
| SpecialServicesClient.ChosenService | src/app/special-services/SpecialServicesClient.js:23-40 | the service shown is the one named in the address when it exists, else the first |
| SpecialServicesClient.HeroImage | src/app/special-services/SpecialServicesClient.js:55 | the active service's hero image, or the default picture |
| SpecialServicesClient.SpecialServicesView.Load | src/app/special-services/SpecialServicesClient.js:14-38 | on every run (mount or address change): on success the services, a permutation of the reply sorted by `order`, and the service the address names (the first when none matches), keeping the previous choice when there is no address name and no service; on failure the previous list and choice |
| SpecialServicesClient.SpecialServicesView.Select | src/app/special-services/SpecialServicesClient.js:92 | the clicked service becomes the active one |

## Left out

- MongoDB driver behaviour:
  - connection failures, and every 500 reply that comes from an exception raised inside the driver;
  - driver and engine error texts: a reply that should carry one only says it is a server error.
- The media host:
  - uploads, signatures, image listing and deletion calls (`cloudinary-*`, `upload-signature`, `hero-images` routes);
  - a car-model DELETE records the media id whose deletion it requests, and does nothing more.
- Mail transport and HTML bodies. The model keeps who receives each mail, the order of the steps and the failure rules. Of the body text it keeps only the services paragraph, which the booking mails carry. The displayed booking number (`Email.DisplayId`) and the contact phone (`Email.ContactPhone`) are separate functions; the HTML bodies that use them are not part of this model.
- Locale collation: `localeCompare` and the database's string order are modelled as code-point order of the text.
- Sort stability: listings are specified as sorted permutations, without a tie order.
- Dashboard dates: the descending sort of the date groups and the date formatting are not modelled.
- Timers: the autoplay interval and the ten-second pause are operations called from outside, not durations.
- Page-only interfaces: the admin login page, WhatsApp links, layout, header, footer, banner and popup components.
- Pages outside the core: the brand and model detail pages and the vehicle-types route.
- Character handling: `toLowerCase`/`toUpperCase` are ASCII-only here; Unicode case mapping is not modelled.
- Request bodies: a JSON value of another type in a field the routes treat as text (a number or an object) is not modelled.
- DetailedServices.NewService, DetailedServices.DetailedServiceStore.Post: a client-chosen `_id` in the body is dropped rather than used as the document id.
- ObjectIds.Parse: accepts only the 24-hex-digit spelling. The driver also accepts a 12-character string, which is not modelled.
- DetailedServices.DetailedServiceStore.List: a database failure on GET is not modelled. It replies with status 200, `success: false` and an empty list.
- Bookings.BookingStore.Put: writes whatever status the request gives, so a confirmed booking can be set back to pending. The model follows the code.
- AdminDashboard: the detailed-services tab sorts its copy by `a.order - b.order`, which is NaN for a detailed service stored without an `order`. That tab's sort is not modelled; the special-services tab's sort is (`AdminDashboard.SpecialTabCards`).
- Documents.SortByOrder: a text `order` counts as 0. JavaScript would coerce numeric text, and a sort given NaN is implementation-defined.
- ServicesPage.Entry: a slug stored as a date renders as the empty string, not as a date text.
- BookingPage.Ref: a multiple-mode choice without a name is sent with the name `""`.
- BookingPage.BookingForm: not modelled:
  - the inline single-mode select that clears the choice;
  - the generic `handleChange` for the other fields;
  - the network request between Submit and Finish.
- BookingPage.ToggleTwiceSameSlugs: states only that the same slugs stay selected. When the service was already selected, toggling twice moves it to the end of the list.
- CarBrandsPage: the animation and visibility observer, and the search box's keystroke handling (the filter itself is Visible).
- Email.BookingNotification: the booking id in the mail is the one the database driver adds to the inserted record; the model passes the stored record.
- HeroSlider.Slider.Load: the view for images arriving while slides are shown is not modelled. The page loads once, so `index` is 0 when images arrive.

## Findings

| source | as written | input that shows it | evidently intended | confidence | as-written member | corrected member |
|---|---|---|---|---|---|---|
| src/app/car-brands/page.js:42-47 | `brandsMap[model.brandSlug]` looks the slug up in a plain object, so an inherited property such as `constructor` counts as a known brand. `.models.push` then throws, the catch swallows it and the page shows no brands | brands `[Toyota]` and one model whose brand slug is `constructor` | a model whose brand is not listed is skipped, and Toyota's card is shown | high; not executed | CarBrandsPage.MergeAsWritten, CarBrandsPage.ConstructorModelBlanksPage | CarBrandsPage.Cards, CarBrandsPage.BuildCards, CarBrandsPage.AttachModels, CarBrandsPage.BrandsPage.Load, CarBrandsPage.UnknownModelDropped |
| src/app/admin/dashboard/page.js:70-74 | the bookings are grouped in a plain object, so for a booking date that names an inherited property such as `constructor`, `acc[date]` is that truthy property, so the `[]` fallback is skipped, `.push` is undefined and the `reduce` throws; the bookings tab is not drawn | one booking, accepted by the route, whose date is `constructor` | every booking is listed under its own date | high; not executed | AdminDashboard.GroupAsWritten, AdminDashboard.PrototypeDateHidesBookings | AdminDashboard.GroupByDate, AdminDashboard.GroupOfEach, AdminDashboard.GroupSizes |
