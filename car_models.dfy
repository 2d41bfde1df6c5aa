/** The `/api/car-models` route: the models listed under each brand on the brands
  * page. Fields an update leaves out are stored as `null`, so the optional ones are
  * `Option`s here. */
module CarModels {
  import opened Common
  import opened Text
  import opened Slug
  import opened ObjectIds
  import Sorting

  datatype CarModel = CarModel(
    brand: string, brandSlug: string, name: string, slug: string,
    image: Option<string>, cloudinaryPublicId: Option<string>, serviceCount: Option<int>,
    createdAt: int, updatedAt: int)

  /** `serviceCount || 6`: an absent or zero count becomes 6. */
  function CountOrSix(serviceCount: Option<int>): int {
    if serviceCount.Some? && serviceCount.value != 0 then serviceCount.value else 6
  }

  /** `sort({brand: 1, name: 1})`. */
  function ByBrandThenName(): (CarModel, CarModel) -> bool {
    (a: CarModel, b: CarModel) =>
      Sorting.LexLe(a.brand, b.brand) && (a.brand == b.brand ==> Sorting.LexLe(a.name, b.name))
  }

  lemma ByBrandThenNamePreorder()
    ensures Sorting.Preorder(ByBrandThenName())
  {
    var le := ByBrandThenName();
    forall a, b ensures le(a, b) || le(b, a) {
      Sorting.LexTotal(a.brand, b.brand);
      Sorting.LexTotal(a.name, b.name);
    }
    forall a, b, c | le(a, b) && le(b, c) ensures le(a, c) {
      Sorting.LexTransitive(a.brand, b.brand, c.brand);
      if a.brand == c.brand {
        Sorting.LexAntisymmetric(a.brand, b.brand);
        Sorting.LexTransitive(a.name, b.name, c.name);
      }
    }
  }

  /** The GET filter: with a `brand` parameter, the models whose brand slug is that
    * parameter; without one, all models. */
  predicate Selected(m: CarModel, brand: Option<string>) {
    !Given(brand) || m.brandSlug == brand.value
  }

  /** `findOne({brand, name})`: the same brand and model name, spelled exactly alike. */
  predicate PairTaken(models: map<string, CarModel>, brand: string, name: string) {
    exists k :: k in models && models[k].brand == brand && models[k].name == name
  }

  /** Both slugs are derived from the names they stand for. */
  predicate WellFormed(m: CarModel) {
    m.brandSlug == Slugify(m.brand) && m.slug == Slugify(m.name)
  }

  /** The `$set` of an update: every field is overwritten, absent ones with `null`;
    * `createdAt` is kept. */
  function Updated(m: CarModel, brand: string, name: string, image: Option<string>,
                   publicId: Option<string>, serviceCount: Option<int>, now: int): CarModel {
    CarModel(brand, Slugify(brand), name, Slugify(name), image, publicId, serviceCount, m.createdAt, now)
  }

  /** The duplicate check compares names exactly: a brand spelled in another letter
    * case passes it beside a stored model of the same name, although both brands get
    * the same slug. */
  lemma CaseVariantIsNoDuplicate(models: map<string, CarModel>, brand: string, variant: string, name: string)
    requires forall k :: k in models && models[k].name == name ==> models[k].brand == brand
    requires variant != brand && LowerAscii(variant) == LowerAscii(brand)
    ensures !PairTaken(models, variant, name)
    ensures Slugify(variant) == Slugify(brand)
  {
  }

  class CarModelStore {
    var models: map<string, CarModel>
    /** The media ids whose removal from the media host was requested, in order;
      * `None` where the stored id was `null`. */
    var mediaDeletions: seq<Option<string>>

    ghost predicate Valid()
      reads this
    {
      forall k :: k in models ==> IsStoredKey(k) && WellFormed(models[k])
    }

    constructor ()
      ensures models == map[] && mediaDeletions == [] && Valid()
    {
      models := map[];
      mediaDeletions := [];
    }

    /** GET: the selected models, each once, by brand and then by name. */
    method List(brand: Option<string>) returns (r: seq<(string, CarModel)>)
      ensures multiset(Sorting.Ids(r)) == multiset(set k | k in models && Selected(models[k], brand))
      ensures forall i :: 0 <= i < |r| ==> r[i].0 in models && models[r[i].0] == r[i].1 && Selected(r[i].1, brand)
      ensures forall i, j :: 0 <= i < j < |r| ==>
                Sorting.LexLe(r[i].1.brand, r[j].1.brand)
                && (r[i].1.brand == r[j].1.brand ==> Sorting.LexLe(r[i].1.name, r[j].1.name))
    {
      var selected := map k | k in models && Selected(models[k], brand) :: models[k];
      ByBrandThenNamePreorder();
      r := Sorting.SortedEntries(selected, ByBrandThenName());
      assert selected.Keys == set k | k in models && Selected(models[k], brand);
    }

    /** POST: brand, name, image and media id are required, and the exact brand and
      * name pair must be new. */
    method Post(brand: Option<string>, name: Option<string>, image: Option<string>, publicId: Option<string>,
                serviceCount: Option<int>, newId: string, now: int) returns (reply: Reply)
      requires Valid()
      requires IsStoredKey(newId) && newId !in models
      modifies this
      ensures Valid() && mediaDeletions == old(mediaDeletions)
      ensures reply != Ok ==> models == old(models)
      ensures !(Given(brand) && Given(name) && Given(image) && Given(publicId)) ==>
                reply == BadRequest("Missing required fields")
      ensures Given(brand) && Given(name) && Given(image) && Given(publicId) ==>
                if PairTaken(old(models), brand.value, name.value) then
                  reply == BadRequest("This model already exists for this brand")
                else reply == Ok && models == old(models)[newId := CarModel(
                  brand.value, Slugify(brand.value), name.value, Slugify(name.value),
                  image, publicId, Some(CountOrSix(serviceCount)), now, now)]
    {
      if !Given(brand) || !Given(name) || !Given(image) || !Given(publicId) {
        return BadRequest("Missing required fields");
      }
      if PairTaken(models, brand.value, name.value) {
        return BadRequest("This model already exists for this brand");
      }
      models := models[newId := CarModel(brand.value, Slugify(brand.value), name.value, Slugify(name.value),
                                         image, publicId, Some(CountOrSix(serviceCount)), now, now)];
      reply := Ok;
    }

    /** PUT: overwrites every field of a model. A missing brand or name makes the slug
      * computation throw. */
    method Put(id: Option<string>, brand: Option<string>, name: Option<string>, image: Option<string>,
               publicId: Option<string>, serviceCount: Option<int>, now: int) returns (reply: Reply)
      requires Valid()
      modifies this
      ensures Valid() && mediaDeletions == old(mediaDeletions)
      ensures reply != Ok ==> models == old(models)
      ensures !Given(id) ==> reply == BadRequest("Model ID is required")
      ensures Given(id) && (brand.None? || name.None?) ==> reply.ServerError?
      ensures Given(id) && brand.Some? && name.Some? && Parse(id.value).None? ==> reply == InvalidId
      ensures Given(id) && brand.Some? && name.Some? && Parse(id.value).Some? ==>
                var k := Parse(id.value).value;
                if k in old(models) then
                  reply == Ok && models == old(models)[k :=
                    Updated(old(models)[k], brand.value, name.value, image, publicId, serviceCount, now)]
                else reply == NotFound("Model not found")
    {
      if !Given(id) {
        return BadRequest("Model ID is required");
      }
      if brand.None? || name.None? {
        return SlugOfUndefined;
      }
      var key := Parse(id.value);
      if key.None? {
        return InvalidId;
      }
      var k := key.value;
      if k !in models {
        return NotFound("Model not found");
      }
      var m := Updated(models[k], brand.value, name.value, image, publicId, serviceCount, now);
      assert WellFormed(m);
      models := models[k := m];
      reply := Ok;
    }

    /** DELETE: removes a model, then asks the media host to delete its image; the
      * outcome of that request does not change the reply. */
    method Delete(id: Option<string>) returns (reply: Reply)
      requires Valid()
      modifies this
      ensures Valid()
      ensures reply != Ok ==> models == old(models) && mediaDeletions == old(mediaDeletions)
      ensures !Given(id) ==> reply == BadRequest("Model ID is required")
      ensures Given(id) && Parse(id.value).None? ==> reply == InvalidId
      ensures Given(id) && Parse(id.value).Some? ==>
                var k := Parse(id.value).value;
                if k in old(models) then
                  && reply == Ok
                  && models == old(models) - {k}
                  && mediaDeletions == old(mediaDeletions) + [old(models)[k].cloudinaryPublicId]
                else reply == NotFound("Model not found")
    {
      if !Given(id) {
        return BadRequest("Model ID is required");
      }
      var key := Parse(id.value);
      if key.None? {
        return InvalidId;
      }
      var k := key.value;
      if k !in models {
        return NotFound("Model not found");
      }
      var removed := models[k];
      models := models - {k};
      mediaDeletions := mediaDeletions + [removed.cloudinaryPublicId];
      reply := Ok;
    }
  }
}
