/** The slug rule every route and the admin console repeat: lower-case the input,
  * replace every maximal run of characters outside `[a-z0-9]` by one "-", then drop
  * a leading and a trailing "-". */
module Slug {
  import opened Text

  /** `[a-z0-9]`: the characters a slug keeps from its input. */
  predicate IsSlugChar(c: char) {
    IsLower(c) || IsDigit(c)
  }

  /** What the rule produces: only `[a-z0-9]` and "-", no "-" at either end, no "--". */
  predicate IsSlug(r: string) {
    && (forall i :: 0 <= i < |r| ==> IsSlugChar(r[i]) || r[i] == '-')
    && (r == [] || (r[0] != '-' && r[|r| - 1] != '-'))
    && (forall i :: 0 < i < |r| ==> r[i - 1] != '-' || r[i] != '-')
  }

  /** The `[a-z0-9]` characters of a string, in order. */
  function Alnums(s: string): string {
    if s == [] then [] else (if IsSlugChar(s[0]) then [s[0]] else []) + Alnums(s[1..])
  }

  /** The maximal run of characters outside `[a-z0-9]` at the front, removed. */
  function DropRun(s: string): (r: string)
    ensures |r| <= |s|
    ensures r == [] || IsSlugChar(r[0])
  {
    if s != [] && !IsSlugChar(s[0]) then DropRun(s[1..]) else s
  }

  /** `replace(/[^a-z0-9]+/g, "-")`. */
  function Collapse(s: string): string
    decreases |s|
  {
    if s == [] then []
    else if IsSlugChar(s[0]) then [s[0]] + Collapse(s[1..])
    else ['-'] + Collapse(DropRun(s[1..]))
  }

  /** What `DropRun` removes is a run of characters outside `[a-z0-9]`. */
  lemma {:induction false} DropRunSuffix(s: string)
    ensures DropRun(s) == s[|s| - |DropRun(s)|..]
    ensures forall i :: 0 <= i < |s| - |DropRun(s)| ==> !IsSlugChar(s[i])
  {
    if s != [] && !IsSlugChar(s[0]) {
      DropRunSuffix(s[1..]);
      assert forall i :: 1 <= i < |s| - |DropRun(s)| ==> s[1..][i - 1] == s[i];
    }
  }

  /** A run replacement leaves only `[a-z0-9]` and single "-" separators, and a
    * string that starts with a kept character still starts with it. */
  lemma {:induction false} CollapseShape(s: string)
    ensures forall i :: 0 <= i < |Collapse(s)| ==> IsSlugChar(Collapse(s)[i]) || Collapse(s)[i] == '-'
    ensures forall i :: 0 < i < |Collapse(s)| ==> Collapse(s)[i - 1] != '-' || Collapse(s)[i] != '-'
    ensures s != [] && IsSlugChar(s[0]) ==> Collapse(s) != [] && Collapse(s)[0] == s[0]
    decreases |s|
  {
    if s != [] {
      var t := if IsSlugChar(s[0]) then s[1..] else DropRun(s[1..]);
      CollapseShape(t);
      var c := Collapse(t);
      var r := Collapse(s);
      assert r == [r[0]] + c;
      assert forall i :: 0 < i < |r| ==> r[i] == c[i - 1];
      if !IsSlugChar(s[0]) && c != [] {
        assert IsSlugChar(t[0]);
      }
    }
  }

  /** `replace(/(^-|-$)/g, "")`: one "-" at the front and one at the end are removed.
    * What is kept is the slice of `s` from `DashStart(s)` to `DashEnd(s)`. */
  function DashStart(s: string): nat {
    if |s| > 0 && s[0] == '-' then 1 else 0
  }

  function DashEnd(s: string): (e: nat)
    ensures DashStart(s) <= e <= |s|
  {
    if |s| > DashStart(s) && s[|s| - 1] == '-' then |s| - 1 else |s|
  }

  function StripDashes(s: string): string {
    s[DashStart(s)..DashEnd(s)]
  }

  /** The slug of a display name. */
  function Slugify(name: string): string {
    StripDashes(Collapse(LowerAscii(name)))
  }

  /** Every slug has the slug shape. */
  lemma SlugShape(name: string)
    ensures IsSlug(Slugify(name))
  {
    var c := Collapse(LowerAscii(name));
    CollapseShape(LowerAscii(name));
    var lo, hi := DashStart(c), DashEnd(c);
    var r := Slugify(name);
    assert |r| == hi - lo;
    assert forall i :: 0 <= i < |r| ==> r[i] == c[lo + i];
  }

  lemma {:induction false} AlnumsAppend(a: string, b: string)
    ensures Alnums(a + b) == Alnums(a) + Alnums(b)
  {
    if a != [] {
      var head := if IsSlugChar(a[0]) then [a[0]] else [];
      assert (a + b)[0] == a[0];
      assert (a + b)[1..] == a[1..] + b;
      AlnumsAppend(a[1..], b);
      calc {
        Alnums(a + b);
        head + Alnums(a[1..] + b);
        head + (Alnums(a[1..]) + Alnums(b));
        (head + Alnums(a[1..])) + Alnums(b);
      }
    } else {
      assert a + b == b;
    }
  }

  lemma {:induction false} AlnumsDropRun(s: string)
    ensures Alnums(DropRun(s)) == Alnums(s)
  {
    if s != [] && !IsSlugChar(s[0]) {
      AlnumsDropRun(s[1..]);
      assert Alnums(s) == Alnums(s[1..]);
    }
  }

  lemma {:induction false} AlnumsCollapse(s: string)
    ensures Alnums(Collapse(s)) == Alnums(s)
    decreases |s|
  {
    if s != [] {
      if IsSlugChar(s[0]) {
        AlnumsCollapse(s[1..]);
        AlnumsAppend([s[0]], Collapse(s[1..]));
      } else {
        var t := DropRun(s[1..]);
        AlnumsCollapse(t);
        AlnumsDropRun(s[1..]);
        AlnumsAppend(['-'], Collapse(t));
        assert Alnums(s) == Alnums(s[1..]);
      }
    }
  }

  lemma AlnumsStripDashes(s: string)
    ensures Alnums(StripDashes(s)) == Alnums(s)
  {
    var lo, hi := DashStart(s), DashEnd(s);
    var mid := s[lo..hi];
    assert s == s[..lo] + mid + s[hi..];
    AlnumsAppend(s[..lo] + mid, s[hi..]);
    AlnumsAppend(s[..lo], mid);
    assert Alnums(s[..lo]) == [] by {
      if lo == 1 { assert s[..lo] == ['-']; }
    }
    assert Alnums(s[hi..]) == [] by {
      if hi < |s| { assert s[hi..] == ['-']; }
    }
  }

  /** The slug keeps exactly the letters and digits of the lower-cased name, in order;
    * everything else it holds is single "-" separators. */
  lemma SlugKeepsAlnums(name: string)
    ensures Alnums(Slugify(name)) == Alnums(LowerAscii(name))
  {
    AlnumsCollapse(LowerAscii(name));
    AlnumsStripDashes(Collapse(LowerAscii(name)));
  }

  lemma {:induction false} AlnumsEmpty(s: string)
    requires forall i :: 0 <= i < |s| ==> IsSlugChar(s[i]) || s[i] == '-'
    ensures Alnums(s) == [] <==> forall i :: 0 <= i < |s| ==> s[i] == '-'
  {
    if s != [] {
      AlnumsEmpty(s[1..]);
      assert forall i :: 0 < i < |s| ==> s[1..][i - 1] == s[i];
    }
  }

  /** The slug is empty exactly when no character of the lower-cased name is a
    * letter or digit: empty, all-blank and all-symbol names give "". */
  lemma SlugEmpty(name: string)
    ensures Slugify(name) == [] <==> Alnums(LowerAscii(name)) == []
  {
    var r := Slugify(name);
    SlugKeepsAlnums(name);
    SlugShape(name);
    AlnumsEmpty(r);
  }

  lemma {:induction false} CollapseFixed(r: string)
    requires forall i :: 0 <= i < |r| ==> IsSlugChar(r[i]) || r[i] == '-'
    requires forall i :: 0 < i < |r| ==> r[i - 1] != '-' || r[i] != '-'
    ensures Collapse(r) == r
    decreases |r|
  {
    if r != [] {
      assert forall i :: 0 < i < |r| - 1 ==> r[1..][i - 1] == r[i];
      CollapseFixed(r[1..]);
      if !IsSlugChar(r[0]) {
        assert DropRun(r[1..]) == r[1..] by {
          if |r| > 1 { assert r[1..][0] == r[1]; }
        }
      }
      assert r == [r[0]] + r[1..];
    }
  }

  /** A slug is its own slug. */
  lemma SlugFixed(r: string)
    requires IsSlug(r)
    ensures Slugify(r) == r
  {
    var l := LowerAscii(r);
    forall i | 0 <= i < |r| ensures l[i] == r[i] {
      assert IsSlugChar(r[i]) || r[i] == '-';
    }
    assert l == r;
    CollapseFixed(r);
  }

  /** Applying the rule twice gives what applying it once gives. */
  lemma SlugIdempotent(name: string)
    ensures Slugify(Slugify(name)) == Slugify(name)
  {
    SlugShape(name);
    SlugFixed(Slugify(name));
  }
}
