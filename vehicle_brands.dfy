/** The `/api/vehicle-brands` route: the brands offered in the booking form, each with
  * the list of its model names. */
module VehicleBrands {
  import opened Common
  import opened Slug
  import opened ObjectIds
  import Sorting

  datatype VehicleBrand = VehicleBrand(name: string, slug: string, models: seq<string>, createdAt: int, updatedAt: int)

  /** `sort({name: 1})`. */
  function ByName(): (VehicleBrand, VehicleBrand) -> bool {
    (a: VehicleBrand, b: VehicleBrand) => Sorting.LexLe(a.name, b.name)
  }

  /** Some stored brand already has this slug (`findOne({slug})`). */
  predicate SlugTaken(brands: map<string, VehicleBrand>, slug: string) {
    exists k :: k in brands && brands[k].slug == slug
  }

  /** No two stored brands share a slug. */
  predicate UniqueSlugs(brands: map<string, VehicleBrand>) {
    forall k1, k2 :: k1 in brands && k2 in brands && brands[k1].slug == brands[k2].slug ==> k1 == k2
  }

  /** `models || []`. */
  function ModelsOrEmpty(models: Option<seq<string>>): seq<string> {
    if models.Some? then models.value else []
  }

  /** The `$set` of an update: the new name, its slug and the model list; `createdAt`
    * is kept. */
  function Updated(b: VehicleBrand, name: string, models: Option<seq<string>>, now: int): VehicleBrand {
    VehicleBrand(name, Slugify(name), ModelsOrEmpty(models), b.createdAt, now)
  }

  /** An update may give a brand the slug of another: the update does not repeat the
    * duplicate check of a create, so renaming one brand to any spelling of another's
    * name ("toyota " for "Toyota", say) leaves two brands with one slug. */
  lemma UpdateCanDuplicateSlug(brands: map<string, VehicleBrand>, other: string, id: string,
                               name: string, models: Option<seq<string>>, now: int)
    requires other in brands && id in brands && other != id
    requires Slugify(name) == brands[other].slug
    ensures UniqueSlugs(brands) ==> !UniqueSlugs(brands[id := Updated(brands[id], name, models, now)])
  {
    var after := brands[id := Updated(brands[id], name, models, now)];
    assert after[other].slug == after[id].slug;
  }

  class VehicleBrandStore {
    var brands: map<string, VehicleBrand>

    /** Every stored brand's slug is derived from its name. */
    ghost predicate Valid()
      reads this
    {
      forall k :: k in brands ==> IsStoredKey(k) && brands[k].slug == Slugify(brands[k].name)
    }

    constructor ()
      ensures brands == map[] && Valid()
    {
      brands := map[];
    }

    /** GET: every brand once, by name. */
    method List() returns (r: seq<(string, VehicleBrand)>)
      ensures multiset(Sorting.Ids(r)) == multiset(brands.Keys)
      ensures forall i :: 0 <= i < |r| ==> r[i].0 in brands && brands[r[i].0] == r[i].1
      ensures forall i, j :: 0 <= i < j < |r| ==> Sorting.LexLe(r[i].1.name, r[j].1.name)
    {
      Sorting.ByKeyPreorder((b: VehicleBrand) => b.name, ByName());
      r := Sorting.SortedEntries(brands, ByName());
    }

    /** POST: a brand needs a name and a slug no stored brand has. */
    method Post(name: Option<string>, models: Option<seq<string>>, newId: string, now: int) returns (reply: Reply)
      requires Valid()
      requires IsStoredKey(newId) && newId !in brands
      modifies this
      ensures Valid()
      ensures UniqueSlugs(old(brands)) ==> UniqueSlugs(brands)
      ensures !Given(name) ==> reply == BadRequest("Brand name is required") && brands == old(brands)
      ensures Given(name) && SlugTaken(old(brands), Slugify(name.value)) ==>
                reply == BadRequest("Brand already exists") && brands == old(brands)
      ensures Given(name) && !SlugTaken(old(brands), Slugify(name.value)) ==>
                && reply == Ok
                && brands == old(brands)[newId := VehicleBrand(name.value, Slugify(name.value), ModelsOrEmpty(models), now, now)]
    {
      if !Given(name) {
        return BadRequest("Brand name is required");
      }
      var slug := Slugify(name.value);
      if exists k :: k in brands && brands[k].slug == slug {
        return BadRequest("Brand already exists");
      }
      brands := brands[newId := VehicleBrand(name.value, slug, ModelsOrEmpty(models), now, now)];
      reply := Ok;
    }

    /** PUT: renames a brand and replaces its model list. A missing name makes the
      * slug computation throw. */
    method Put(id: Option<string>, name: Option<string>, models: Option<seq<string>>, now: int) returns (reply: Reply)
      requires Valid()
      modifies this
      ensures Valid()
      ensures reply != Ok ==> brands == old(brands)
      ensures !Given(id) ==> reply == BadRequest("Brand ID is required")
      ensures Given(id) && name.None? ==> reply.ServerError?
      ensures Given(id) && name.Some? && Parse(id.value).None? ==> reply == InvalidId
      ensures Given(id) && name.Some? && Parse(id.value).Some? ==>
                var k := Parse(id.value).value;
                if k in old(brands) then
                  reply == Ok && brands == old(brands)[k := Updated(old(brands)[k], name.value, models, now)]
                else reply == NotFound("Brand not found")
    {
      if !Given(id) {
        return BadRequest("Brand ID is required");
      }
      if name.None? {
        return SlugOfUndefined;
      }
      var key := Parse(id.value);
      if key.None? {
        return InvalidId;
      }
      var k := key.value;
      if k !in brands {
        return NotFound("Brand not found");
      }
      brands := brands[k := Updated(brands[k], name.value, models, now)];
      reply := Ok;
    }

    /** DELETE: removes the brand with the given id. */
    method Delete(id: Option<string>) returns (reply: Reply)
      requires Valid()
      modifies this
      ensures Valid()
      ensures reply != Ok ==> brands == old(brands)
      ensures !Given(id) ==> reply == BadRequest("Brand ID is required")
      ensures Given(id) && Parse(id.value).None? ==> reply == InvalidId
      ensures Given(id) && Parse(id.value).Some? ==>
                var k := Parse(id.value).value;
                if k in old(brands) then reply == Ok && brands == old(brands) - {k}
                else reply == NotFound("Brand not found")
    {
      if !Given(id) {
        return BadRequest("Brand ID is required");
      }
      var key := Parse(id.value);
      if key.None? {
        return InvalidId;
      }
      if key.value !in brands {
        return NotFound("Brand not found");
      }
      brands := brands - {key.value};
      reply := Ok;
    }
  }
}
