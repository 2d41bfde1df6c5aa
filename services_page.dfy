/** The services page (`services/page.js`): the general and special service lists in
  * their order, combined into one list of cards of a common shape, the filter tabs
  * with their counts, and the feature lines shown on a general service's card. */
module ServicesPage {
  import opened Common
  import opened Text
  import opened Documents
  import AdminDashboard

  datatype Kind = General | Special

  /** A card. Fields the service does not have are `None` (`undefined`). */
  datatype Entry = Entry(
    id: Option<Val>, kind: Kind, name: Option<Val>, tagline: Option<Val>, description: Option<Val>,
    features: Option<Val>, image: Option<Val>, slug: Option<Val>, order: Val, detailLink: string)

  /** Both lists as fetched: a failed request (or reply that is not JSON) leaves both
    * empty, because they are fetched together; a reply without `services` counts as an
    * empty list; each list is then put in order. */
  function Lists(replies: Option<(Option<seq<Doc>>, Option<seq<Doc>>)>): (r: (seq<Doc>, seq<Doc>))
    ensures replies.None? ==> r == ([], [])
    ensures replies.Some? ==>
              && multiset(r.0) == multiset(if replies.value.0.Some? then replies.value.0.value else [])
              && multiset(r.1) == multiset(if replies.value.1.Some? then replies.value.1.value else [])
    ensures forall i, j :: 0 <= i < j < |r.0| ==> NumericOrder(Get(r.0[i], "order")) <= NumericOrder(Get(r.0[j], "order"))
    ensures forall i, j :: 0 <= i < j < |r.1| ==> NumericOrder(Get(r.1[i], "order")) <= NumericOrder(Get(r.1[j], "order"))
  {
    if replies.None? then ([], [])
    else
      var general := if replies.value.0.Some? then replies.value.0.value else [];
      var special := if replies.value.1.Some? then replies.value.1.value else [];
      (SortByOrder(general), SortByOrder(special))
  }

  /** `x ?? 0`. */
  function OrZero(v: Option<Val>): Val {
    if v.None? || v.value == Null then Number(0) else v.value
  }

  /** A value written into a template literal. A date's text depends on the locale and
    * time zone and is left empty here. */
  function Interp(v: Option<Val>): string {
    if v.None? then "undefined"
    else match v.value
      case Null => "null"
      case Number(n) => if n < 0 then "-" + NatToString(-n) else NatToString(n)
      case Text(s) => s
      case Flag(b) => if b then "true" else "false"
      case Date(_) => ""
  }

  function GeneralEntry(s: Doc): Entry {
    Entry(Get(s, "_id"), General, Get(s, "name"), Get(s, "tagline"), Get(s, "description"),
          Get(s, "features"), Get(s, "image"), Get(s, "slug"), OrZero(Get(s, "order")),
          "/service/" + Interp(Get(s, "slug")))
  }

  /** A special service has no feature list and shows its hero image. */
  function SpecialEntry(s: Doc): Entry {
    Entry(Get(s, "_id"), Special, Get(s, "name"), Get(s, "tagline"), Get(s, "description"),
          Some(Null), Get(s, "heroImage"), Get(s, "slug"), OrZero(Get(s, "order")),
          "/special-services/" + Interp(Get(s, "slug")))
  }

  /** `allServices`: the general cards, then the special cards, each list in its order. */
  function Combined(general: seq<Doc>, special: seq<Doc>): (r: seq<Entry>)
    ensures |r| == |general| + |special|
    ensures forall i :: 0 <= i < |general| ==> r[i] == GeneralEntry(general[i])
    ensures forall i :: 0 <= i < |special| ==> r[|general| + i] == SpecialEntry(special[i])
  {
    seq(|general|, i requires 0 <= i < |general| => GeneralEntry(general[i]))
      + seq(|special|, i requires 0 <= i < |special| => SpecialEntry(special[i]))
  }

  /** A card links to its own kind's page, under the service's slug. */
  lemma LinkFollowsKind(general: seq<Doc>, special: seq<Doc>, i: nat)
    requires i < |general| + |special|
    ensures var e := Combined(general, special)[i];
            var slug := Interp(e.slug);
            && (e.kind == General <==> i < |general|)
            && (e.kind == General ==> e.detailLink == "/service/" + slug)
            && (e.kind == Special ==> e.detailLink == "/special-services/" + slug && e.features == Some(Null))
  {
    if i >= |general| {
      assert Combined(general, special)[|general| + (i - |general|)] == SpecialEntry(special[i - |general|]);
    }
  }

  datatype Tab = All | Only(kind: Kind)

  /** `filteredServices`. */
  function Filtered(entries: seq<Entry>, tab: Tab): (r: seq<Entry>)
    ensures forall e :: e in r <==> e in entries && (tab.Only? ==> e.kind == tab.kind)
    ensures |r| <= |entries|
  {
    if tab == All || entries == [] then entries
    else
      var rest := Filtered(entries[1..], tab);
      if entries[0].kind == tab.kind then [entries[0]] + rest else rest
  }

  lemma {:induction false} FilteredAppend(a: seq<Entry>, b: seq<Entry>, tab: Tab)
    ensures Filtered(a + b, tab) == Filtered(a, tab) + Filtered(b, tab)
  {
    if a == [] {
      assert a + b == b;
    } else if tab.Only? {
      assert (a + b)[1..] == a[1..] + b;
      FilteredAppend(a[1..], b, tab);
    }
  }

  lemma {:induction false} FilteredAllOrNone(entries: seq<Entry>, kind: Kind, keep: bool)
    requires forall i :: 0 <= i < |entries| ==> (entries[i].kind == kind) == keep
    ensures Filtered(entries, Only(kind)) == if keep then entries else []
  {
    if entries != [] {
      FilteredAllOrNone(entries[1..], kind, keep);
    }
  }

  /** Each tab shows exactly its own list, in order, so its card count is the size of
    * that list; the "all" tab shows both. */
  lemma TabsShowTheirLists(general: seq<Doc>, special: seq<Doc>)
    ensures var all := Combined(general, special);
            && Filtered(all, All) == all && |all| == |general| + |special|
            && Filtered(all, Only(General)) == all[..|general|] && |Filtered(all, Only(General))| == |general|
            && Filtered(all, Only(Special)) == all[|general|..] && |Filtered(all, Only(Special))| == |special|
  {
    var all := Combined(general, special);
    var g, s := all[..|general|], all[|general|..];
    assert all == g + s;
    forall i | 0 <= i < |s| ensures s[i].kind == Special {
      assert s[i] == all[|general| + i];
    }
    FilteredAppend(g, s, Only(General));
    FilteredAppend(g, s, Only(Special));
    FilteredAllOrNone(g, General, true);
    FilteredAllOrNone(s, General, false);
    FilteredAllOrNone(g, Special, false);
    FilteredAllOrNone(s, Special, true);
  }

  /** The feature lines of a card: the first three comma-separated pieces of the
    * feature text, each trimmed. */
  function FeatureLines(features: string): (r: seq<string>)
    ensures 1 <= |r| <= 3 && |r| <= |Split(features, ',')|
    ensures |r| == if |Split(features, ',')| <= 3 then |Split(features, ',')| else 3
    ensures forall i :: 0 <= i < |r| ==> r[i] == Trim(Split(features, ',')[i])
  {
    var pieces := Split(features, ',');
    AdminDashboard.TrimAll(if |pieces| <= 3 then pieces else pieces[..3])
  }

  /** The lines a card shows: none unless its features are a non-empty text. */
  function ShownFeatures(e: Entry): seq<string> {
    if e.features.Some? && e.features.value.Text? && e.features.value.s != "" then FeatureLines(e.features.value.s)
    else []
  }

  /** A feature list entered as clean items joined by ", " shows its first three items
    * (all of them when there are at most three). */
  lemma FeatureLinesOfList(items: seq<string>)
    requires |items| >= 1 && forall m :: m in items ==> AdminDashboard.CleanEntry(m)
    ensures FeatureLines(Join(items, ", ")) == if |items| <= 3 then items else items[..3]
  {
    AdminDashboard.SplitTrimJoin(items);
  }
}
