/** The `/api/detailed-services` route: the general services with their own detail
  * pages. A create accepts any body; update and delete report success whether or not
  * a service matched. */
module DetailedServices {
  import opened Common
  import opened Slug
  import opened Documents
  import opened ObjectIds
  import Sorting

  /** `serviceData.slug`, filled in from the name when it is not truthy; `None` where
    * the name is not a string and the slug computation throws. */
  function SlugFor(body: Doc): (r: Option<Val>)
    ensures Truthy(Get(body, "slug")) ==> r == Some(body["slug"])
    ensures !Truthy(Get(body, "slug")) && Get(body, "name").Some? && body["name"].Text? ==>
              r == Some(Text(Slugify(body["name"].s)))
    ensures r.None? <==> !Truthy(Get(body, "slug")) && !(Get(body, "name").Some? && body["name"].Text?)
  {
    if Truthy(Get(body, "slug")) then Some(body["slug"])
    else if "name" in body && body["name"].Text? then Some(Text(Slugify(body["name"].s)))
    else None
  }

  /** `x || null`. */
  function OrNull(v: Option<Val>): Val {
    if Truthy(v) then v.value else Null
  }

  /** The document a create inserts: the body with its slug filled in, the image and
    * its media id (`null` when not truthy), and both timestamps `now`. */
  function NewService(body: Doc, slug: Val, now: int): (d: Doc)
    ensures d.Keys == (body.Keys - {"_id"}) + {"slug", "image", "cloudinaryPublicId", "createdAt", "updatedAt"}
    ensures forall f :: f in body && f !in {"_id", "slug", "image", "cloudinaryPublicId", "createdAt", "updatedAt"} ==>
              d[f] == body[f]
    ensures d["slug"] == slug && d["createdAt"] == d["updatedAt"] == Date(now)
    ensures d["image"] == OrNull(Get(body, "image"))
    ensures d["cloudinaryPublicId"] == OrNull(Get(body, "cloudinaryPublicId"))
  {
    (body - {"_id"})[ "slug" := slug]
      + map["image" := OrNull(Get(body, "image")),
            "cloudinaryPublicId" := OrNull(Get(body, "cloudinaryPublicId")),
            "createdAt" := Date(now), "updatedAt" := Date(now)]
  }

  class DetailedServiceStore {
    var services: map<string, Doc>

    /** Every stored service has a slug and a last-update time. */
    ghost predicate Valid()
      reads this
    {
      forall k :: k in services ==>
        IsStoredKey(k) && "slug" in services[k] && "updatedAt" in services[k] && services[k]["updatedAt"].Date?
    }

    constructor ()
      ensures services == map[] && Valid()
    {
      services := map[];
    }

    /** GET: every service once, by `order`. */
    method List() returns (r: seq<(string, Doc)>)
      ensures multiset(Sorting.Ids(r)) == multiset(services.Keys)
      ensures forall i :: 0 <= i < |r| ==> r[i].0 in services && services[r[i].0] == r[i].1
      ensures forall i, j :: 0 <= i < j < |r| ==> OrderLe(r[i].1, r[j].1)
    {
      OrderLePreorder();
      r := Sorting.SortedEntries(services, (a: Doc, b: Doc) => OrderLe(a, b));
    }

    /** POST: inserts the body; fails only when a slug is needed and there is no
      * string name to derive it from. */
    method Post(body: Doc, newId: string, now: int) returns (reply: Reply)
      requires Valid()
      requires IsStoredKey(newId) && newId !in services
      modifies this
      ensures Valid()
      ensures SlugFor(body).None? ==> reply.ServerError? && services == old(services)
      ensures SlugFor(body).Some? ==>
                reply == Ok && services == old(services)[newId := NewService(body, SlugFor(body).value, now)]
    {
      var slug := SlugFor(body);
      if slug.None? {
        return SlugOfUndefined;
      }
      services := services[newId := NewService(body, slug.value, now)];
      reply := Ok;
    }

    /** PUT: writes every field of the body except `_id` over the matching service.
      * Without an id a fresh one is generated, which matches nothing. */
    method Put(id: Option<string>, body: Doc, now: int) returns (reply: Reply)
      requires Valid()
      modifies this
      ensures Valid()
      ensures id.Some? && Parse(id.value).None? ==> reply == InvalidId && services == old(services)
      ensures id.None? ==> reply == Ok && services == old(services)
      ensures id.Some? && Parse(id.value).Some? ==>
                var k := Parse(id.value).value;
                && reply == Ok
                && services == if k in old(services) then old(services)[k := Merge(old(services)[k], body - {"_id"}, now)]
                               else old(services)
    {
      if id.None? {
        return Ok;
      }
      var key := Parse(id.value);
      if key.None? {
        return InvalidId;
      }
      var k := key.value;
      if k in services {
        services := services[k := Merge(services[k], body - {"_id"}, now)];
      }
      reply := Ok;
    }

    /** DELETE: removes the matching service, if any. */
    method Delete(id: Option<string>) returns (reply: Reply)
      requires Valid()
      modifies this
      ensures Valid()
      ensures id.Some? && Parse(id.value).None? ==> reply == InvalidId && services == old(services)
      ensures id.None? ==> reply == Ok && services == old(services)
      ensures id.Some? && Parse(id.value).Some? ==>
                reply == Ok && services == old(services) - {Parse(id.value).value}
    {
      if id.None? {
        return Ok;
      }
      var key := Parse(id.value);
      if key.None? {
        return InvalidId;
      }
      services := services - {key.value};
      reply := Ok;
    }
  }
}
