/** Ordering as the pages and the store use it: `Array.prototype.sort` with a
  * comparator on a list, and a collection read back as a list ordered by a key. */
module Sorting {

  /** Every two elements are comparable. */
  ghost predicate Total<T(!new)>(le: (T, T) -> bool) {
    forall a, b :: le(a, b) || le(b, a)
  }

  ghost predicate Transitive<T(!new)>(le: (T, T) -> bool) {
    forall a, b, c :: le(a, b) && le(b, c) ==> le(a, c)
  }

  /** `le` is a total preorder: what a sort comparator has to be. */
  ghost predicate Preorder<T(!new)>(le: (T, T) -> bool) {
    Total(le) && Transitive(le)
  }

  /** Every element is at most every later one. */
  ghost predicate Sorted<T>(s: seq<T>, le: (T, T) -> bool) {
    forall i, j :: 0 <= i < j < |s| ==> le(s[i], s[j])
  }

  /** The order the store sorts strings in (`sort({name: 1})` without a collation):
    * character by character, a proper prefix first. */
  predicate LexLe(a: string, b: string)
    decreases |a|
  {
    a == [] || (b != [] && (a[0] < b[0] || (a[0] == b[0] && LexLe(a[1..], b[1..]))))
  }

  lemma {:induction false} LexTotal(a: string, b: string)
    ensures LexLe(a, b) || LexLe(b, a)
    decreases |a|
  {
    if a != [] && b != [] && a[0] == b[0] {
      LexTotal(a[1..], b[1..]);
    }
  }

  lemma {:induction false} LexTransitive(a: string, b: string, c: string)
    requires LexLe(a, b) && LexLe(b, c)
    ensures LexLe(a, c)
    decreases |a|
  {
    if a != [] && a[0] == b[0] && b[0] == c[0] {
      LexTransitive(a[1..], b[1..], c[1..]);
    }
  }

  lemma {:induction false} LexAntisymmetric(a: string, b: string)
    requires LexLe(a, b) && LexLe(b, a)
    ensures a == b
    decreases |a|
  {
    if a != [] {
      LexAntisymmetric(a[1..], b[1..]);
      assert a == [a[0]] + a[1..] && b == [b[0]] + b[1..];
    }
  }

  /** Ordering records by a string key is a total preorder. */
  lemma ByKeyPreorder<T(!new)>(key: T -> string, le: (T, T) -> bool)
    requires forall x, y :: le(x, y) == LexLe(key(x), key(y))
    ensures Preorder(le)
  {
    forall x, y ensures le(x, y) || le(y, x) {
      LexTotal(key(x), key(y));
    }
    forall x, y, z | le(x, y) && le(y, z) ensures le(x, z) {
      LexTransitive(key(x), key(y), key(z));
    }
  }

  /** `x` put into a sorted list in front of the first element it is strictly below. */
  function Insert<T(!new)>(x: T, s: seq<T>, le: (T, T) -> bool): (r: seq<T>)
    requires Preorder(le) && Sorted(s, le)
    ensures Sorted(r, le)
    ensures multiset(r) == multiset(s) + multiset{x}
  {
    if s == [] then [x]
    else if !le(s[0], x) then
      assert forall j :: 0 <= j < |s| ==> le(x, s[j]) by {
        forall j | 0 <= j < |s| ensures le(x, s[j]) {
          if j > 0 { assert le(s[0], s[j]); }
        }
      }
      [x] + s
    else
      var t := Insert(x, s[1..], le);
      assert s == [s[0]] + s[1..];
      assert forall y :: y in multiset(t) ==> le(s[0], y) by {
        forall y | y in multiset(t) ensures le(s[0], y) {
          if y != x {
            assert y in multiset(s[1..]);
            var j :| 0 <= j < |s[1..]| && s[1..][j] == y;
            assert s[j + 1] == y;
          }
        }
      }
      assert forall j :: 0 <= j < |t| ==> le(s[0], t[j]) by {
        forall j | 0 <= j < |t| ensures le(s[0], t[j]) {
          assert t[j] in multiset(t);
        }
      }
      [s[0]] + t
  }

  /** A sorted permutation of the list: what `[...list].sort(cmp)` returns for a
    * comparator that is a total preorder. */
  function SortBy<T(!new)>(s: seq<T>, le: (T, T) -> bool): (r: seq<T>)
    requires Preorder(le)
    ensures Sorted(r, le)
    ensures multiset(r) == multiset(s)
  {
    if s == [] then []
    else
      assert s == s[..|s| - 1] + [s[|s| - 1]];
      Insert(s[|s| - 1], SortBy(s[..|s| - 1], le), le)
  }

  /** The ids of a list of stored entries. */
  function Ids<R>(r: seq<(string, R)>): (ids: seq<string>)
    ensures |ids| == |r|
    ensures forall i :: 0 <= i < |r| ==> ids[i] == r[i].0
  {
    if r == [] then [] else [r[0].0] + Ids(r[1..])
  }

  lemma {:induction false} IdsInsert<R(!new)>(x: (string, R), s: seq<(string, R)>, le: ((string, R), (string, R)) -> bool)
    requires Preorder(le) && Sorted(s, le)
    ensures multiset(Ids(Insert(x, s, le))) == multiset(Ids(s)) + multiset{x.0}
  {
    if s != [] && le(s[0], x) {
      IdsInsert(x, s[1..], le);
      assert Ids(s) == [s[0].0] + Ids(s[1..]);
    }
  }

  /** `le` applied to the stored values of two entries. */
  function OnValues<R>(le: (R, R) -> bool): ((string, R), (string, R)) -> bool {
    (a: (string, R), b: (string, R)) => le(a.1, b.1)
  }

  lemma OnValuesPreorder<R(!new)>(le: (R, R) -> bool)
    requires Preorder(le)
    ensures Preorder(OnValues(le))
  {
    var cmp := OnValues(le);
    forall a: (string, R), b: (string, R) ensures cmp(a, b) || cmp(b, a) {
      assert le(a.1, b.1) || le(b.1, a.1);
    }
    forall a: (string, R), b: (string, R), c: (string, R) | cmp(a, b) && cmp(b, c) ensures cmp(a, c) {
      assert le(a.1, b.1) && le(b.1, c.1);
    }
  }

  /** Adding one more stored entry to a sorted list keeps its ids one per stored key ... */
  lemma InsertEntry<R(!new)>(m: map<string, R>, keys: set<string>, r: seq<(string, R)>, k: string, le: (R, R) -> bool)
    requires Preorder(OnValues(le)) && Sorted(r, OnValues(le))
    requires multiset(Ids(r)) == multiset(m.Keys - keys)
    requires k in keys && keys <= m.Keys
    ensures multiset(Ids(Insert((k, m[k]), r, OnValues(le)))) == multiset(m.Keys - (keys - {k}))
  {
    IdsInsert((k, m[k]), r, OnValues(le));
    DoneGrows(m.Keys, keys, k);
  }

  lemma DoneGrows(all: set<string>, keys: set<string>, k: string)
    requires k in keys && keys <= all
    ensures multiset(all - (keys - {k})) == multiset(all - keys) + multiset{k}
  {
    var done := all - keys;
    assert all - (keys - {k}) == done + {k};
    assert k !in done;
  }

  /** ... and its entries faithful to the store. */
  lemma InsertFaithful<R(!new)>(m: map<string, R>, r: seq<(string, R)>, k: string, le: (R, R) -> bool)
    requires Preorder(OnValues(le)) && Sorted(r, OnValues(le))
    requires forall e :: e in multiset(r) ==> e.0 in m && m[e.0] == e.1
    requires k in m
    ensures forall e :: e in multiset(Insert((k, m[k]), r, OnValues(le))) ==> e.0 in m && m[e.0] == e.1
  {
    var t := Insert((k, m[k]), r, OnValues(le));
    assert multiset(t) == multiset(r) + multiset{(k, m[k])};
  }

  lemma EntriesDone<R(!new)>(m: map<string, R>, r: seq<(string, R)>, le: (R, R) -> bool)
    requires Sorted(r, OnValues(le))
    requires forall e :: e in multiset(r) ==> e.0 in m && m[e.0] == e.1
    ensures forall i :: 0 <= i < |r| ==> r[i].0 in m && m[r[i].0] == r[i].1
    ensures forall i, j :: 0 <= i < j < |r| ==> le(r[i].1, r[j].1)
  {
    forall i | 0 <= i < |r| ensures r[i].0 in m && m[r[i].0] == r[i].1 {
      assert r[i] in multiset(r);
    }
    forall i, j | 0 <= i < j < |r| ensures le(r[i].1, r[j].1) {
      assert OnValues(le)(r[i], r[j]);
    }
  }

  /** A collection read back as a list ordered by `le` (`find({}).sort(...)`): every
    * stored entry exactly once, nothing else, ordered. Entries that compare equal
    * come back in an order the store does not fix. */
  method SortedEntries<R(==, !new)>(m: map<string, R>, le: (R, R) -> bool) returns (r: seq<(string, R)>)
    requires Preorder(le)
    ensures multiset(Ids(r)) == multiset(m.Keys)
    ensures forall i :: 0 <= i < |r| ==> r[i].0 in m && m[r[i].0] == r[i].1
    ensures forall i, j :: 0 <= i < j < |r| ==> le(r[i].1, r[j].1)
  {
    var cmp := OnValues(le);
    OnValuesPreorder(le);
    var keys := m.Keys;
    r := [];
    while keys != {}
      invariant keys <= m.Keys
      invariant Sorted(r, cmp)
      invariant multiset(Ids(r)) == multiset(m.Keys - keys)
      invariant forall e :: e in multiset(r) ==> e.0 in m && m[e.0] == e.1
      decreases keys
    {
      var k :| k in keys;
      InsertEntry(m, keys, r, k, le);
      InsertFaithful(m, r, k, le);
      r, keys := Insert((k, m[k]), r, cmp), keys - {k};
    }
    assert m.Keys - keys == m.Keys;
    EntriesDone(m, r, le);
  }
}
