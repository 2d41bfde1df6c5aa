/** The `/api/car-brands` route: the brands shown on the brands page, each with a
  * logo held by the media host. */
module CarBrands {
  import opened Common
  import opened Slug
  import opened ObjectIds
  import Sorting

  /** A stored brand; `updatedAt` is set by the first update only. */
  datatype CarBrand = CarBrand(
    name: string, brandSlug: string, logo: string, cloudinaryPublicId: string,
    createdAt: int, updatedAt: Option<int>)

  function ByName(): (CarBrand, CarBrand) -> bool {
    (a: CarBrand, b: CarBrand) => Sorting.LexLe(a.name, b.name)
  }

  predicate SlugTaken(brands: map<string, CarBrand>, slug: string) {
    exists k :: k in brands && brands[k].brandSlug == slug
  }

  /** The `$set` of an update: name and slug always, the logo and its media id only
    * when a new one is given. */
  function Updated(b: CarBrand, name: string, logo: Option<string>, publicId: Option<string>, now: int): CarBrand {
    b.(name := name, brandSlug := Slugify(name),
       logo := Or(logo, b.logo), cloudinaryPublicId := Or(publicId, b.cloudinaryPublicId),
       updatedAt := Some(now))
  }

  /** The stored facts every brand keeps: slug derived from the name, a logo and its
    * media id present. */
  predicate WellFormed(b: CarBrand) {
    b.brandSlug == Slugify(b.name) && b.logo != "" && b.cloudinaryPublicId != ""
  }

  /** An update keeps a brand well formed, and a logo or media id that is not given is
    * kept as it was. */
  lemma UpdatedWellFormed(b: CarBrand, name: string, logo: Option<string>, publicId: Option<string>, now: int)
    requires WellFormed(b)
    ensures WellFormed(Updated(b, name, logo, publicId, now))
    ensures !Given(logo) ==> Updated(b, name, logo, publicId, now).logo == b.logo
    ensures !Given(publicId) ==> Updated(b, name, logo, publicId, now).cloudinaryPublicId == b.cloudinaryPublicId
    ensures Updated(b, name, logo, publicId, now).createdAt == b.createdAt
  {
  }

  class CarBrandStore {
    var brands: map<string, CarBrand>

    ghost predicate Valid()
      reads this
    {
      forall k :: k in brands ==> IsStoredKey(k) && WellFormed(brands[k])
    }

    constructor ()
      ensures brands == map[] && Valid()
    {
      brands := map[];
    }

    /** GET: every brand once, by name. */
    method List() returns (r: seq<(string, CarBrand)>)
      ensures multiset(Sorting.Ids(r)) == multiset(brands.Keys)
      ensures forall i :: 0 <= i < |r| ==> r[i].0 in brands && brands[r[i].0] == r[i].1
      ensures forall i, j :: 0 <= i < j < |r| ==> Sorting.LexLe(r[i].1.name, r[j].1.name)
    {
      Sorting.ByKeyPreorder((b: CarBrand) => b.name, ByName());
      r := Sorting.SortedEntries(brands, ByName());
    }

    /** POST: name, logo and media id are all required, and the slug must be new. */
    method Post(name: Option<string>, logo: Option<string>, publicId: Option<string>, newId: string, now: int)
      returns (reply: Reply)
      requires Valid()
      requires IsStoredKey(newId) && newId !in brands
      modifies this
      ensures Valid()
      ensures reply != Ok ==> brands == old(brands)
      ensures !(Given(name) && Given(logo) && Given(publicId)) ==>
                reply == BadRequest("Name, logo, and cloudinaryPublicId are required")
      ensures Given(name) && Given(logo) && Given(publicId) ==>
                if SlugTaken(old(brands), Slugify(name.value)) then reply == BadRequest("Brand already exists")
                else reply == Ok && brands == old(brands)[newId :=
                  CarBrand(name.value, Slugify(name.value), logo.value, publicId.value, now, None)]
    {
      if !Given(name) || !Given(logo) || !Given(publicId) {
        return BadRequest("Name, logo, and cloudinaryPublicId are required");
      }
      var slug := Slugify(name.value);
      if exists k :: k in brands && brands[k].brandSlug == slug {
        return BadRequest("Brand already exists");
      }
      brands := brands[newId := CarBrand(name.value, slug, logo.value, publicId.value, now, None)];
      reply := Ok;
    }

    /** PUT: renames a brand; replaces the logo and media id only when given. */
    method Put(id: Option<string>, name: Option<string>, logo: Option<string>, publicId: Option<string>, now: int)
      returns (reply: Reply)
      requires Valid()
      modifies this
      ensures Valid()
      ensures reply != Ok ==> brands == old(brands)
      ensures !(Given(id) && Given(name)) ==> reply == BadRequest("ID and name are required")
      ensures Given(id) && Given(name) && Parse(id.value).None? ==> reply == InvalidId
      ensures Given(id) && Given(name) && Parse(id.value).Some? ==>
                var k := Parse(id.value).value;
                if k in old(brands) then
                  reply == Ok && brands == old(brands)[k := Updated(old(brands)[k], name.value, logo, publicId, now)]
                else reply == NotFound("Brand not found")
    {
      if !Given(id) || !Given(name) {
        return BadRequest("ID and name are required");
      }
      var key := Parse(id.value);
      if key.None? {
        return InvalidId;
      }
      var k := key.value;
      if k !in brands {
        return NotFound("Brand not found");
      }
      UpdatedWellFormed(brands[k], name.value, logo, publicId, now);
      brands := brands[k := Updated(brands[k], name.value, logo, publicId, now)];
      reply := Ok;
    }

    /** DELETE: removes the brand with the given id. */
    method Delete(id: Option<string>) returns (reply: Reply)
      requires Valid()
      modifies this
      ensures Valid()
      ensures reply != Ok ==> brands == old(brands)
      ensures !Given(id) ==> reply == BadRequest("ID is required")
      ensures Given(id) && Parse(id.value).None? ==> reply == InvalidId
      ensures Given(id) && Parse(id.value).Some? ==>
                var k := Parse(id.value).value;
                if k in old(brands) then reply == Ok && brands == old(brands) - {k}
                else reply == NotFound("Brand not found")
    {
      if !Given(id) {
        return BadRequest("ID is required");
      }
      var key := Parse(id.value);
      if key.None? {
        return InvalidId;
      }
      if key.value !in brands {
        return NotFound("Brand not found");
      }
      brands := brands - {key.value};
      reply := Ok;
    }
  }
}
