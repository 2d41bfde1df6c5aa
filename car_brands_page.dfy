/** The brands page (`car-brands/page.js`): one card per brand with the names of its
  * models, in name order, a colour chosen from the brand's name, the search filter and
  * the model chips shown on each card. */
module CarBrandsPage {
  import opened Common
  import opened Text
  import Sorting
  import CarBrands
  import CarModels

  /** A card: the brand, its models' names in the order received, their number, and a
    * colour that is absent (`undefined`) for an empty name. */
  datatype Card = Card(name: string, brandSlug: string, logo: string, models: seq<string>,
                       modelCount: nat, color: Option<string>)

  // ----- Colour -----

  const Palette: seq<string> := [
    "from-red-50 to-red-100", "from-blue-50 to-blue-100", "from-green-50 to-green-100",
    "from-yellow-50 to-yellow-100", "from-purple-50 to-purple-100", "from-pink-50 to-pink-100",
    "from-indigo-50 to-indigo-100", "from-cyan-50 to-cyan-100"]

  /** `charCodeAt`: the first UTF-16 code unit of a character (the high surrogate for a
    * character outside the basic plane). */
  function CodeUnit(c: char): (u: nat)
    ensures u < 0x10000
    ensures c as int < 0x10000 ==> u == c as int
  {
    if c as int < 0x10000 then c as int else 0xD800 + (c as int - 0x10000) / 0x400
  }

  /** `getColorForBrand`: the palette entry at the first code unit modulo 8; an empty
    * name gives `NaN` and no colour. */
  function Color(name: string): (r: Option<string>)
    ensures r.Some? <==> name != ""
    ensures r.Some? ==> r.value in Palette && r.value == Palette[CodeUnit(name[0]) % |Palette|]
  {
    if name == "" then None else Some(Palette[CodeUnit(name[0]) % |Palette|])
  }

  /** Upper- and lower-case spellings of an ASCII letter are 32 apart, so a brand gets
    * the same colour however its first letter is written. */
  lemma ColorIgnoresCase(name: string)
    ensures Color(LowerAscii(name)) == Color(name)
  {
    if name != "" {
      var c := name[0];
      assert LowerAscii(name)[0] == ToLower(c);
      if IsUpper(c) {
        assert CodeUnit(ToLower(c)) == CodeUnit(c) + 32;
      }
    }
  }

  // ----- Cards -----

  function Fresh(b: CarBrands.CarBrand): Card {
    Card(b.name, b.brandSlug, b.logo, [], 0, Color(b.name))
  }

  function Slugs(brands: seq<CarBrands.CarBrand>): set<string> {
    set b | b in brands :: b.brandSlug
  }

  lemma SlugsSnoc(brands: seq<CarBrands.CarBrand>, b: CarBrands.CarBrand)
    ensures Slugs(brands + [b]) == Slugs(brands) + {b.brandSlug}
  {
    var bs := brands + [b];
    forall k | k in Slugs(bs) ensures k in Slugs(brands) + {b.brandSlug} {
      var c :| c in bs && c.brandSlug == k;
      assert c in brands || c == b;
    }
    forall k | k in Slugs(brands) ensures k in Slugs(bs) {
      var c :| c in brands && c.brandSlug == k;
      assert c in bs;
    }
    assert b in bs;
  }

  /** The position of the last brand with slug `k`. */
  function LastWith(brands: seq<CarBrands.CarBrand>, k: string): (j: nat)
    requires k in Slugs(brands)
    ensures j < |brands| && brands[j].brandSlug == k
    ensures forall j' :: j < j' < |brands| ==> brands[j'].brandSlug != k
  {
    var prefix := brands[..|brands| - 1];
    SlugsSnoc(prefix, brands[|brands| - 1]);
    assert brands == prefix + [brands[|brands| - 1]];
    if brands[|brands| - 1].brandSlug == k then |brands| - 1 else LastWith(prefix, k)
  }

  /** The first `forEach`: a card per brand, keyed by slug; a later brand with the same
    * slug replaces the earlier card. */
  function Initial(brands: seq<CarBrands.CarBrand>): (m: map<string, Card>)
    ensures m.Keys == Slugs(brands)
    ensures forall k :: k in m ==> m[k] == Fresh(brands[LastWith(brands, k)])
  {
    if brands == [] then map[]
    else
      var prefix := brands[..|brands| - 1];
      var b := brands[|brands| - 1];
      SlugsSnoc(prefix, b);
      assert brands == prefix + [b];
      Initial(prefix)[b.brandSlug := Fresh(b)]
  }

  lemma InitialSnoc(brands: seq<CarBrands.CarBrand>, b: CarBrands.CarBrand)
    ensures Initial(brands + [b]) == Initial(brands)[b.brandSlug := Fresh(b)]
  {
    assert (brands + [b])[..|brands|] == brands;
  }

  /** The names of the models with slug `k`, in order. */
  function NamesFor(models: seq<CarModels.CarModel>, k: string): seq<string> {
    if models == [] then []
    else
      var last := models[|models| - 1];
      NamesFor(models[..|models| - 1], k) + (if last.brandSlug == k then [last.name] else [])
  }

  /** One step of the second `forEach`: the model is appended to the card of its slug
    * and counted, or dropped when no card has that slug. */
  function AddModel(m: map<string, Card>, x: CarModels.CarModel): map<string, Card> {
    var k := x.brandSlug;
    if k in m then m[k := m[k].(models := m[k].models + [x.name], modelCount := m[k].modelCount + 1)]
    else m
  }

  /** The second `forEach`: each model whose slug has a card is appended to that card
    * and counted; a model with an unknown slug is dropped. */
  function Attach(m: map<string, Card>, models: seq<CarModels.CarModel>): (r: map<string, Card>)
    ensures r.Keys == m.Keys
    ensures forall k :: k in r ==>
              r[k] == m[k].(models := m[k].models + NamesFor(models, k),
                            modelCount := m[k].modelCount + |NamesFor(models, k)|)
  {
    if models == [] then m
    else AddModel(Attach(m, models[..|models| - 1]), models[|models| - 1])
  }

  /** The cards built from both lists: one per distinct brand slug, taken from the last
    * brand with that slug, holding exactly the names of that slug's models, and
    * counting them. */
  function Cards(brands: seq<CarBrands.CarBrand>, models: seq<CarModels.CarModel>): (r: map<string, Card>)
    ensures r.Keys == Slugs(brands)
    ensures forall k :: k in r ==> r[k].brandSlug == k && r[k].models == NamesFor(models, k)
                                   && r[k].modelCount == |r[k].models|
  {
    Attach(Initial(brands), models)
  }

  lemma AttachSnoc(m: map<string, Card>, models: seq<CarModels.CarModel>, x: CarModels.CarModel)
    ensures Attach(m, models + [x]) == AddModel(Attach(m, models), x)
  {
    var ms := models + [x];
    assert ms[..|ms| - 1] == models;
    assert ms[|ms| - 1] == x;
  }

  /** A model whose slug matches no brand changes no card. */
  lemma UnknownModelDropped(brands: seq<CarBrands.CarBrand>, models: seq<CarModels.CarModel>, m: CarModels.CarModel)
    requires m.brandSlug !in Slugs(brands)
    ensures Cards(brands, models + [m]) == Cards(brands, models)
  {
    var ms := models + [m];
    assert ms[..|ms| - 1] == models;
  }

  /** The merge as the page runs it: `brandsMap[model.brandSlug]` is truthy for an
    * inherited property name, and the `push` on its missing `models` throws, so the
    * whole load is abandoned (`None`) and no card is shown. */
  function MergeAsWritten(brands: seq<CarBrands.CarBrand>, models: seq<CarModels.CarModel>): (r: Option<map<string, Card>>)
    ensures r.None? <==> exists m :: m in models && m.brandSlug !in Slugs(brands) && m.brandSlug in PrototypeNames
    ensures r.Some? ==> r.value == Cards(brands, models)
  {
    if exists m :: m in models && m.brandSlug !in Slugs(brands) && m.brandSlug in PrototypeNames then None
    else Some(Cards(brands, models))
  }

  lemma SlugsSingle(b: CarBrands.CarBrand)
    ensures Slugs([b]) == {b.brandSlug}
  {
    assert b in [b];
  }

  /** A model filed under a brand called "Constructor", with no such brand on the brands
    * list beside Toyota, blanks the page; the intended merge just drops that model. */
  lemma ConstructorModelBlanksPage(toyota: CarBrands.CarBrand, stray: CarModels.CarModel)
    requires toyota.brandSlug == "toyota" && stray.brandSlug == "constructor"
    ensures MergeAsWritten([toyota], [stray]).None?
    ensures Cards([toyota], [stray]) == Cards([toyota], [])
    ensures "toyota" in Cards([toyota], [stray])
  {
    SlugsSingle(toyota);
    assert "constructor" in PrototypeNames;
    assert stray in [stray];
    UnknownModelDropped([toyota], [], stray);
    assert [] + [stray] == [stray];
  }

  /** The first `forEach`: a card per brand, a later brand replacing an earlier card with
    * the same slug. */
  method InitialCards(brands: seq<CarBrands.CarBrand>) returns (cards: map<string, Card>)
    ensures cards == Initial(brands)
  {
    cards := map[];
    var i := 0;
    while i < |brands|
      invariant 0 <= i <= |brands|
      invariant cards == Initial(brands[..i])
    {
      InitialSnoc(brands[..i], brands[i]);
      assert brands[..i + 1] == brands[..i] + [brands[i]];
      cards := cards[brands[i].brandSlug := Fresh(brands[i])];
      i := i + 1;
    }
    assert brands[..i] == brands;
  }

  /** The second `forEach`, with a lookup that only finds brands' own slugs. */
  method AttachModels(start: map<string, Card>, models: seq<CarModels.CarModel>) returns (cards: map<string, Card>)
    ensures cards == Attach(start, models)
  {
    cards := start;
    var j := 0;
    while j < |models|
      invariant 0 <= j <= |models|
      invariant cards == Attach(start, models[..j])
    {
      AttachSnoc(start, models[..j], models[j]);
      assert models[..j + 1] == models[..j] + [models[j]];
      var k := models[j].brandSlug;
      if k in cards {
        var card := cards[k];
        cards := cards[k := card.(models := card.models + [models[j].name], modelCount := card.modelCount + 1)];
      }
      j := j + 1;
    }
    assert models[..j] == models;
  }

  /** Both loops: exactly the cards. */
  method BuildCards(brands: seq<CarBrands.CarBrand>, models: seq<CarModels.CarModel>) returns (cards: map<string, Card>)
    ensures cards == Cards(brands, models)
  {
    var start := InitialCards(brands);
    cards := AttachModels(start, models);
  }

  function SlugsOf(cards: seq<Card>): (r: seq<string>)
    ensures |r| == |cards| && forall i :: 0 <= i < |cards| ==> r[i] == cards[i].brandSlug
  {
    seq(|cards|, i requires 0 <= i < |cards| => cards[i].brandSlug)
  }

  function ByName(): (Card, Card) -> bool {
    (a: Card, b: Card) => Sorting.LexLe(a.name, b.name)
  }

  // ----- Search and chips -----

  /** `filteredBrands`: the cards whose name contains the query, ignoring case. */
  function Visible(cards: seq<Card>, query: string): (r: seq<Card>)
    ensures forall c :: c in r <==> c in cards && Includes(LowerAscii(c.name), LowerAscii(query))
  {
    if cards == [] then []
    else
      var rest := Visible(cards[1..], query);
      if Includes(LowerAscii(cards[0].name), LowerAscii(query)) then [cards[0]] + rest else rest
  }

  /** An empty query shows every card. */
  lemma {:induction false} EmptyQueryShowsAll(cards: seq<Card>)
    ensures Visible(cards, "") == cards
  {
    if cards != [] {
      assert OccursAt(LowerAscii(cards[0].name), LowerAscii(""), 0);
      EmptyQueryShowsAll(cards[1..]);
    }
  }

  lemma LowerOfUpper(q: string)
    ensures LowerAscii(UpperAscii(q)) == LowerAscii(q)
  {
  }

  /** Typing the query in capitals shows the same cards. */
  lemma QueryIgnoresCase(cards: seq<Card>, query: string)
    ensures Visible(cards, UpperAscii(query)) == Visible(cards, query)
  {
    LowerOfUpper(query);
  }

  /** The chips on a card: at most three model names, then `+N more` for the rest. */
  datatype Chips = Chips(shown: seq<string>, more: Option<string>)

  function ChipsFor(models: seq<string>): (r: Chips)
    ensures |r.shown| == (if |models| < 3 then |models| else 3) && r.shown == models[..|r.shown|]
    ensures r.more.Some? <==> |models| > 3
    ensures r.more.Some? ==> exists n :: r.more.value == "+" + n + " more"
                                      && (forall i :: 0 <= i < |n| ==> IsDigit(n[i]))
                                      && |r.shown| + DigitsValue(n) == |models|
  {
    if |models| <= 3 then Chips(models, None)
    else
      var n := NatToString(|models| - 3);
      NatToStringValue(|models| - 3);
      Chips(models[..3], Some("+" + n + " more"))
  }

  // ----- The page -----

  class BrandsPage {
    var cards: seq<Card>
    var query: string
    var loading: bool

    constructor ()
      ensures cards == [] && query == "" && loading
    {
      cards, query, loading := [], "", true;
    }

    /** `fetchBrandsWithModels` with the intended merge: the cards are replaced only
      * when both lists arrived; then there is one card per distinct brand slug, in name
      * order. Where a model names an inherited property, the page as written throws
      * and keeps the old cards instead (`MergeAsWritten`). */
    method Load(brandsOk: bool, brands: seq<CarBrands.CarBrand>, modelsOk: bool, models: seq<CarModels.CarModel>)
      modifies this
      ensures !loading && query == old(query)
      ensures !(brandsOk && modelsOk) ==> cards == old(cards)
      ensures brandsOk && modelsOk ==>
                && multiset(SlugsOf(cards)) == multiset(Slugs(brands))
                && (forall i :: 0 <= i < |cards| ==>
                      cards[i].brandSlug in Slugs(brands) && cards[i] == Cards(brands, models)[cards[i].brandSlug])
                && (forall i, j :: 0 <= i < j < |cards| ==> Sorting.LexLe(cards[i].name, cards[j].name))
    {
      if brandsOk && modelsOk {
        var byslug := BuildCards(brands, models);
        cards := SortCards(byslug);
      }
      loading := false;
    }
  }

  /** `Object.values(brandsMap).sort(...)`: every card of the map once, by name. */
  method SortCards(byslug: map<string, Card>) returns (r: seq<Card>)
    requires forall k :: k in byslug ==> byslug[k].brandSlug == k
    ensures multiset(SlugsOf(r)) == multiset(byslug.Keys)
    ensures forall i :: 0 <= i < |r| ==> r[i].brandSlug in byslug && byslug[r[i].brandSlug] == r[i]
    ensures forall i, j :: 0 <= i < j < |r| ==> Sorting.LexLe(r[i].name, r[j].name)
  {
    Sorting.ByKeyPreorder((c: Card) => c.name, ByName());
    var entries := Sorting.SortedEntries(byslug, ByName());
    r := seq(|entries|, i requires 0 <= i < |entries| => entries[i].1);
    assert SlugsOf(r) == Sorting.Ids(entries);
  }
}
