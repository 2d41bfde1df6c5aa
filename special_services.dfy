/** The `/api/special-services` route: the featured services, each with a hero image,
  * a content image and a position (`order`) in the listings. */
module SpecialServices {
  import opened Common
  import opened Documents
  import opened ObjectIds
  import Sorting

  /** The fields a create must carry, truthy. */
  const RequiredFields: set<string> := {"name", "tagline", "description", "content", "heroImage", "contentImage"}

  /** The fields a create copies from the request body; all others are dropped. */
  const CopiedFields: set<string> := RequiredFields + {"heroImagePublicId", "contentImagePublicId", "slug"}

  predicate HasRequired(body: Doc) {
    forall f :: f in RequiredFields ==> Truthy(Get(body, f))
  }

  /** The document a create inserts: the copied fields as sent (`null` where absent),
    * `order || 0`, and both timestamps `now`. */
  function NewService(body: Doc, now: int): (d: Doc)
    ensures d.Keys == CopiedFields + {"order", "createdAt", "updatedAt"}
    ensures forall f :: f in CopiedFields ==> d[f] == Stored(body, f)
    ensures d["order"] == (if Truthy(Get(body, "order")) then body["order"] else Number(0))
    ensures d["createdAt"] == d["updatedAt"] == Date(now)
  {
    var copied := map f | f in CopiedFields :: Stored(body, f);
    assert "order" !in copied && "createdAt" !in copied && "updatedAt" !in copied;
    copied + map["order" := (if Truthy(Get(body, "order")) then body["order"] else Number(0)),
                 "createdAt" := Date(now), "updatedAt" := Date(now)]
  }

  class SpecialServiceStore {
    var services: map<string, Doc>

    /** Every stored service carries a position, a creation time and a last-update time. */
    ghost predicate Valid()
      reads this
    {
      forall k :: k in services ==>
        && IsStoredKey(k) && "order" in services[k]
        && "createdAt" in services[k] && "updatedAt" in services[k] && services[k]["updatedAt"].Date?
    }

    constructor ()
      ensures services == map[] && Valid()
    {
      services := map[];
    }

    /** GET: every service once, by `order`. */
    method List() returns (r: seq<(string, Doc)>)
      ensures multiset(Sorting.Ids(r)) == multiset(services.Keys)
      ensures forall i :: 0 <= i < |r| ==> r[i].0 in services && services[r[i].0] == r[i].1
      ensures forall i, j :: 0 <= i < j < |r| ==> OrderLe(r[i].1, r[j].1)
    {
      OrderLePreorder();
      r := Sorting.SortedEntries(services, (a: Doc, b: Doc) => OrderLe(a, b));
    }

    /** POST: refused unless the six required fields are truthy; no duplicate check. */
    method Post(body: Doc, newId: string, now: int) returns (reply: Reply)
      requires Valid()
      requires IsStoredKey(newId) && newId !in services
      modifies this
      ensures Valid()
      ensures !HasRequired(body) ==> reply == BadRequest("Missing required fields") && services == old(services)
      ensures HasRequired(body) ==> reply == Ok && services == old(services)[newId := NewService(body, now)]
    {
      if !HasRequired(body) {
        return BadRequest("Missing required fields");
      }
      services := services[newId := NewService(body, now)];
      reply := Ok;
    }

    /** PUT: writes every field of the body except `_id` over the stored service. */
    method Put(id: Option<string>, body: Doc, now: int) returns (reply: Reply)
      requires Valid()
      modifies this
      ensures Valid()
      ensures reply != Ok ==> services == old(services)
      ensures !Given(id) ==> reply == BadRequest("Missing id")
      ensures Given(id) && Parse(id.value).None? ==> reply == InvalidId
      ensures Given(id) && Parse(id.value).Some? ==>
                var k := Parse(id.value).value;
                if k in old(services) then
                  reply == Ok && services == old(services)[k := Merge(old(services)[k], body - {"_id"}, now)]
                else reply == NotFound("Service not found")
    {
      if !Given(id) {
        return BadRequest("Missing id");
      }
      var key := Parse(id.value);
      if key.None? {
        return InvalidId;
      }
      var k := key.value;
      if k !in services {
        return NotFound("Service not found");
      }
      services := services[k := Merge(services[k], body - {"_id"}, now)];
      reply := Ok;
    }

    /** DELETE: removes the service with the given id. */
    method Delete(id: Option<string>) returns (reply: Reply)
      requires Valid()
      modifies this
      ensures Valid()
      ensures reply != Ok ==> services == old(services)
      ensures !Given(id) ==> reply == BadRequest("Missing id")
      ensures Given(id) && Parse(id.value).None? ==> reply == InvalidId
      ensures Given(id) && Parse(id.value).Some? ==>
                var k := Parse(id.value).value;
                if k in old(services) then reply == Ok && services == old(services) - {k}
                else reply == NotFound("Service not found")
    {
      if !Given(id) {
        return BadRequest("Missing id");
      }
      var key := Parse(id.value);
      if key.None? {
        return InvalidId;
      }
      if key.value !in services {
        return NotFound("Service not found");
      }
      services := services - {key.value};
      reply := Ok;
    }
  }
}
