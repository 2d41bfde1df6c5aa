/** The special-services page (`SpecialServicesClient.js`): the services in their order,
  * the service chosen through the page address, and the service shown in the header. */
module SpecialServicesClient {
  import opened Common
  import opened Documents

  const DefaultHero := "/services/special/hero.jpg"

  /** `findIndex(s => s.slug === slug)`: the first service whose slug is that text, or -1. */
  function FindIndex(services: seq<Doc>, slug: string): (r: int)
    ensures -1 <= r < |services|
    ensures r == -1 <==> forall i :: 0 <= i < |services| ==> Get(services[i], "slug") != Some(Text(slug))
    ensures r >= 0 ==> Get(services[r], "slug") == Some(Text(slug))
                       && forall i :: 0 <= i < r ==> Get(services[i], "slug") != Some(Text(slug))
  {
    if services == [] then -1
    else if Get(services[0], "slug") == Some(Text(slug)) then 0
    else
      var r := FindIndex(services[1..], slug);
      if r == -1 then -1 else r + 1
  }

  /** The index chosen once the list arrives: the service named in the address (the first
    * one when no service has that slug); without a name in the address, the first
    * service if there is one, and otherwise none is chosen (`None`). */
  function InitialIndex(services: seq<Doc>, query: Option<string>): (r: Option<int>)
    ensures Given(query) ==> r.Some? && 0 <= r.value && (|services| > 0 ==> r.value < |services|)
    ensures !Given(query) ==> (r.Some? <==> |services| > 0) && (r.Some? ==> r.value == 0)
  {
    if Given(query) then
      var i := FindIndex(services, query.value);
      Some(if i >= 0 then i else 0)
    else if |services| > 0 then Some(0)
    else None
  }

  /** `activeService`: `specialServices[activeIndex]`, which is `undefined` when the index
    * is past the end. */
  function ActiveService(services: seq<Doc>, active: Option<int>): Option<Doc> {
    if active.Some? && 0 <= active.value < |services| then Some(services[active.value]) else None
  }

  /** The service named in the address is the one shown, whenever some service has that
    * slug; otherwise the first service is shown, and with no services none is. */
  lemma ChosenService(services: seq<Doc>, query: Option<string>)
    ensures var shown := ActiveService(services, InitialIndex(services, query));
            && (shown.Some? <==> |services| > 0)
            && (Given(query) && (exists i :: 0 <= i < |services| && Get(services[i], "slug") == Some(Text(query.value))) ==>
                  shown.Some? && Get(shown.value, "slug") == Some(Text(query.value)))
            && (shown.Some? && !(Given(query) && FindIndex(services, query.value) >= 0) ==> shown.value == services[0])
  {
  }

  /** The header: the chosen service's hero image, or the default picture. */
  function HeroImage(active: Option<Doc>): (r: Option<Val>)
    ensures active.None? ==> r == Some(Text(DefaultHero))
    ensures active.Some? ==> r == Get(active.value, "heroImage")
  {
    if active.Some? then Get(active.value, "heroImage") else Some(Text(DefaultHero))
  }

  class SpecialServicesView {
    var services: seq<Doc>
    var active: Option<int>
    var loading: bool

    constructor ()
      ensures services == [] && active == None && loading
    {
      services, active, loading := [], None, true;
    }

    /** `fetchServices`, run on mount and again whenever the page address changes: on a
      * successful reply the list is sorted and a service chosen (the previous choice
      * stays when there is nothing to choose); otherwise nothing changes but the
      * spinner. */
    method Load(ok: bool, received: Option<seq<Doc>>, query: Option<string>)
      modifies this
      ensures !loading
      ensures !ok ==> services == old(services) && active == old(active)
      ensures ok ==> var list := if received.Some? then received.value else [];
                     && multiset(services) == multiset(list)
                     && (forall i, j :: 0 <= i < j < |services| ==>
                           NumericOrder(Get(services[i], "order")) <= NumericOrder(Get(services[j], "order")))
                     && (InitialIndex(services, query).Some? ==> active == InitialIndex(services, query))
                     && (InitialIndex(services, query).None? ==> active == old(active))
    {
      if ok {
        services := SortByOrder(if received.Some? then received.value else []);
        var chosen := InitialIndex(services, query);
        if chosen.Some? {
          active := chosen;
        }
      }
      loading := false;
    }

    /** A click on the i-th service in the menu. */
    method Select(i: int)
      requires 0 <= i < |services|
      modifies this
      ensures services == old(services) && loading == old(loading)
      ensures active == Some(i) && ActiveService(services, active) == Some(services[i])
    {
      active := Some(i);
    }
  }
}
