/** The email address pattern `/^[^\s@]+@[^\s@]+\.[^\s@]+$/` that both the contact form
  * and the contact route test addresses against. */
module AddressPattern {
  import opened Text

  /** `[^\s@]`. */
  predicate Plain(c: char) {
    !IsSpace(c) && c != '@'
  }

  predicate AllPlain(s: string) {
    forall k :: 0 <= k < |s| ==> Plain(s[k])
  }

  /** The pattern matches: the address splits into a local part, `@`, a domain part,
    * `.` and a last part, the three parts non-empty runs of `[^\s@]`. */
  predicate MatchesEmail(s: string) {
    exists i, j :: 0 < i && i + 1 < j && j + 1 < |s| && s[i] == '@' && s[j] == '.'
      && AllPlain(s[..i]) && AllPlain(s[i + 1..j]) && AllPlain(s[j + 1..])
  }

  /** The address has no whitespace, a single `@` at position `i` with something
    * before it, and after it a `.` that is neither the first nor the last character
    * of the domain part. */
  predicate WellShaped(s: string, i: int) {
    && (forall k :: 0 <= k < |s| ==> !IsSpace(s[k]))
    && 0 < i && i + 4 <= |s| && s[i] == '@'
    && (forall k :: 0 <= k < |s| && k != i ==> s[k] != '@')
    && '.' in s[i + 2..|s| - 1]
  }

  lemma MatchIsShaped(s: string, i: int, j: int)
    requires 0 < i && i + 1 < j && j + 1 < |s| && s[i] == '@' && s[j] == '.'
    requires AllPlain(s[..i]) && AllPlain(s[i + 1..j]) && AllPlain(s[j + 1..])
    ensures WellShaped(s, i)
  {
    forall k | 0 <= k < |s| && k != i ensures !IsSpace(s[k]) && s[k] != '@' {
      if k < i {
        assert s[..i][k] == s[k];
      } else if k < j {
        assert s[i + 1..j][k - i - 1] == s[k];
      } else if k > j {
        assert s[j + 1..][k - j - 1] == s[k];
      }
    }
    assert s[i + 2..|s| - 1][j - i - 2] == '.';
  }

  lemma ShapedMatches(s: string, i: int, j: int)
    requires WellShaped(s, i) && i + 2 <= j < |s| - 1 && s[j] == '.'
    ensures MatchesEmail(s)
  {
    var local, domain, top := s[..i], s[i + 1..j], s[j + 1..];
    forall k | 0 <= k < |local| ensures Plain(local[k]) {
      assert local[k] == s[k];
    }
    forall k | 0 <= k < |domain| ensures Plain(domain[k]) {
      assert domain[k] == s[i + 1 + k];
    }
    forall k | 0 <= k < |top| ensures Plain(top[k]) {
      assert top[k] == s[j + 1 + k];
    }
  }

  /** What the pattern accepts, in plain terms: no whitespace, exactly one `@` with a
    * non-empty part before it, and a `.` inside the part after it. */
  lemma MatchesEmailShape(s: string)
    ensures MatchesEmail(s) <==> exists i :: 0 <= i < |s| && WellShaped(s, i)
  {
    if MatchesEmail(s) {
      var i, j :| 0 < i && i + 1 < j && j + 1 < |s| && s[i] == '@' && s[j] == '.'
        && AllPlain(s[..i]) && AllPlain(s[i + 1..j]) && AllPlain(s[j + 1..]);
      MatchIsShaped(s, i, j);
    }
    if i :| 0 <= i < |s| && WellShaped(s, i) {
      var d := s[i + 2..|s| - 1];
      var m :| 0 <= m < |d| && d[m] == '.';
      ShapedMatches(s, i, i + 2 + m);
    }
  }
}
