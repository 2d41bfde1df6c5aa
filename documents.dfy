/** Schemaless documents, as the service collections store whatever fields a request
  * body carries: a document is a map from field names to JSON-like values. */
module Documents {
  import opened Common
  import Sorting

  /** A stored value. Absent values that a handler writes out (`undefined`, `x || null`)
    * are stored as `Null`; `Date` is a clock reading. */
  datatype Val = Null | Number(n: int) | Text(s: string) | Flag(b: bool) | Date(t: int)

  type Doc = map<string, Val>

  /** JavaScript truthiness of a field that may be missing. */
  predicate Truthy(v: Option<Val>) {
    v.Some? &&
    match v.value
    case Null => false
    case Number(n) => n != 0
    case Text(s) => s != ""
    case Flag(b) => b
    case Date(_) => true
  }

  function Get(d: Doc, field: string): Option<Val> {
    if field in d then Some(d[field]) else None
  }

  /** A field as a handler writes it out: a missing one is stored as `null`. */
  function Stored(d: Doc, field: string): Val {
    if field in d then d[field] else Null
  }

  /** `$set: {...patch, updatedAt: now}`: every field of the patch is written over the
    * document, then `updatedAt`; other fields are kept and none is removed. */
  function Merge(d: Doc, patch: Doc, now: int): (r: Doc)
    ensures r.Keys == d.Keys + patch.Keys + {"updatedAt"}
    ensures r["updatedAt"] == Date(now)
    ensures forall f :: f in r && f != "updatedAt" ==> r[f] == (if f in patch then patch[f] else d[f])
  {
    d + patch + map["updatedAt" := Date(now)]
  }

  /** Where a value's kind stands in the store's sort order: missing and `null` first,
    * then numbers, strings, booleans, dates. */
  function Rank(v: Option<Val>): int {
    if v.None? then 0
    else match v.value
      case Null => 0
      case Number(_) => 1
      case Text(_) => 2
      case Flag(_) => 3
      case Date(_) => 4
  }

  /** `sort({order: 1})`: by the kind of the `order` value, then by the value. */
  predicate OrderLe(a: Doc, b: Doc) {
    var x := Get(a, "order");
    var y := Get(b, "order");
    Rank(x) < Rank(y) ||
    (Rank(x) == Rank(y) &&
      match (x, y)
      case (Some(Number(m)), Some(Number(n))) => m <= n
      case (Some(Text(s)), Some(Text(t))) => Sorting.LexLe(s, t)
      case (Some(Flag(p)), Some(Flag(q))) => !p || q
      case (Some(Date(s)), Some(Date(t))) => s <= t
      case _ => true)
  }

  lemma OrderLePreorder()
    ensures Sorting.Preorder((a: Doc, b: Doc) => OrderLe(a, b))
  {
    forall a: Doc, b: Doc ensures OrderLe(a, b) || OrderLe(b, a) {
      var x := Get(a, "order");
      var y := Get(b, "order");
      if x.Some? && y.Some? && x.value.Text? && y.value.Text? {
        Sorting.LexTotal(x.value.s, y.value.s);
      }
    }
    forall a: Doc, b: Doc, c: Doc | OrderLe(a, b) && OrderLe(b, c) ensures OrderLe(a, c) {
      var x := Get(a, "order");
      var y := Get(b, "order");
      var z := Get(c, "order");
      if Rank(x) == Rank(y) == Rank(z) && x.Some? && y.Some? && z.Some? && x.value.Text? {
        Sorting.LexTransitive(x.value.s, y.value.s, z.value.s);
      }
    }
  }

  /** The number a page's comparator takes from an `order` value (`a.order - b.order`,
    * `(a.order ?? 0) - ...`): a number itself, `null` 0, a boolean 1 or 0, a date its
    * clock reading; a string counts as 0 here. A missing value is 0 under `?? 0`; under
    * `a.order - b.order` it would give NaN, but the special services that comparator
    * sorts always carry an `order`, since their route stores `order || 0`. */
  function NumericOrder(v: Option<Val>): int {
    if v.None? then 0
    else match v.value
      case Null => 0
      case Number(n) => n
      case Text(_) => 0
      case Flag(b) => if b then 1 else 0
      case Date(t) => t
  }

  function ByNumericOrder(): (Doc, Doc) -> bool {
    (a: Doc, b: Doc) => NumericOrder(Get(a, "order")) <= NumericOrder(Get(b, "order"))
  }

  /** A client-side `sort` by the numeric order: the same documents, ascending. */
  function SortByOrder(services: seq<Doc>): (r: seq<Doc>)
    ensures multiset(r) == multiset(services)
    ensures forall i, j :: 0 <= i < j < |r| ==> NumericOrder(Get(r[i], "order")) <= NumericOrder(Get(r[j], "order"))
  {
    assert Sorting.Preorder(ByNumericOrder());
    var r := Sorting.SortBy(services, ByNumericOrder());
    assert forall i, j :: 0 <= i < j < |r| ==> ByNumericOrder()(r[i], r[j]);
    r
  }
}
