/** Strings as the triage engine uses them: substring search
    (String.prototype.includes) and lower-casing (String.prototype.toLowerCase). */
module Text {

  /** `k` occurs in `s` starting at index `i`. */
  predicate OccursAt(s: string, k: string, i: int)
  {
    0 <= i && i + |k| <= |s| && forall j :: 0 <= j < |k| ==> s[i + j] == k[j]
  }

  /** `k` is a prefix of `s`. */
  predicate StartsWith(s: string, k: string)
  {
    OccursAt(s, k, 0)
  }

  /** `s.includes(k)`: some suffix of `s` starts with `k`. */
  predicate Contains(s: string, k: string)
    decreases |s|
  {
    StartsWith(s, k) || (|s| > 0 && Contains(s[1..], k))
  }

  /** The suffix-recursive definition finds exactly the occurrences of `k` in `s`. */
  lemma {:induction false} ContainsIffOccurs(s: string, k: string)
    ensures Contains(s, k) <==> exists i :: OccursAt(s, k, i)
    decreases |s|
  {
    if |s| > 0 {
      ContainsIffOccurs(s[1..], k);
      if Contains(s[1..], k) {
        var i :| OccursAt(s[1..], k, i);
        assert OccursAt(s, k, i + 1);
      }
      if i :| OccursAt(s, k, i) {
        if i > 0 {
          assert OccursAt(s[1..], k, i - 1);
        }
      }
    }
  }

  /** An occurrence at a known index is enough for `Contains`. */
  lemma ContainsAt(s: string, k: string, i: int)
    requires OccursAt(s, k, i)
    ensures Contains(s, k)
  {
    ContainsIffOccurs(s, k);
  }

  /** A keyword with a character that `s` lacks does not occur in `s`. */
  lemma MissingChar(s: string, k: string, j: int)
    requires 0 <= j < |k| && k[j] !in s
    ensures !Contains(s, k)
  {
    ContainsIffOccurs(s, k);
  }

  predicate IsAsciiUpper(c: char) { 'A' <= c <= 'Z' }

  predicate IsAsciiLetter(c: char) { IsAsciiUpper(c) || 'a' <= c <= 'z' }

  /** Lower-casing of one character; only ASCII letters have a case here. */
  function LowerChar(c: char): char
  {
    if IsAsciiUpper(c) then (c as int - 'A' as int + 'a' as int) as char else c
  }

  /** `s.toLowerCase()`, restricted to the ASCII letters (see README, "Left out"). */
  function Lower(s: string): (r: string)
    ensures |r| == |s|
    ensures forall i :: 0 <= i < |r| ==> !IsAsciiUpper(r[i])
    ensures forall i :: 0 <= i < |s| && !IsAsciiUpper(s[i]) ==> r[i] == s[i]
    ensures forall i :: 0 <= i < |s| && IsAsciiUpper(s[i]) ==> r[i] as int == s[i] as int - 'A' as int + 'a' as int
  {
    seq(|s|, i requires 0 <= i < |s| => LowerChar(s[i]))
  }

  /** Matching is case-insensitive: an occurrence of `k` in any casing is an
      occurrence of the lower-cased `k` in the lower-cased text. */
  lemma ContainsLower(s: string, k: string)
    requires Contains(s, k)
    ensures Contains(Lower(s), Lower(k))
  {
    ContainsIffOccurs(s, k);
    var i :| OccursAt(s, k, i);
    ContainsAt(Lower(s), Lower(k), i);
  }

  /** A keyword without ASCII letters (every Arabic keyword) is found in the
      lower-cased text exactly when it is found in the original text. */
  lemma ContainsLowerCaseless(s: string, k: string)
    requires forall j :: 0 <= j < |k| ==> !IsAsciiLetter(k[j])
    ensures Contains(Lower(s), k) <==> Contains(s, k)
  {
    ContainsIffOccurs(s, k);
    ContainsIffOccurs(Lower(s), k);
    if i :| OccursAt(Lower(s), k, i) {
      assert forall j :: 0 <= j < |k| ==> LowerChar(s[i + j]) == k[j];
      assert OccursAt(s, k, i);
    }
    if i :| OccursAt(s, k, i) {
      assert OccursAt(Lower(s), k, i);
    }
  }

  /** An occurrence that spans the separator contains it. */
  lemma SpanningOccurrence(a: string, c: char, b: string, k: string, i: int)
    requires OccursAt(a + [c] + b, k, i)
    ensures i <= |a| < i + |k| ==> c in k
  {
    if i <= |a| < i + |k| {
      assert (a + [c] + b)[i + (|a| - i)] == k[|a| - i];
    }
  }

  /** A keyword without the character `c` never spans a `c`: its occurrences
      in `a + [c] + b` lie in `a` or in `b`. */
  lemma ContainsAcrossSeparator(a: string, c: char, b: string, k: string)
    requires c !in k && Contains(a + [c] + b, k)
    ensures Contains(a, k) || Contains(b, k)
  {
    var s := a + [c] + b;
    ContainsIffOccurs(s, k);
    var i :| OccursAt(s, k, i);
    SpanningOccurrence(a, c, b, k, i);
    if i + |k| <= |a| {
      ContainsAt(a, k, i);
    } else {
      ContainsAt(b, k, i - |a| - 1);
    }
  }

  /** A keyword without the separator `c` that lacks some character of each
      side does not occur in `a + [c] + b`. */
  lemma MissingCharEachSide(a: string, c: char, b: string, k: string, ja: int, jb: int)
    requires c !in k
    requires 0 <= ja < |k| && k[ja] !in a
    requires 0 <= jb < |k| && k[jb] !in b
    ensures !Contains(a + [c] + b, k)
  {
    MissingChar(a, k, ja);
    MissingChar(b, k, jb);
    if Contains(a + [c] + b, k) {
      ContainsAcrossSeparator(a, c, b, k);
    }
  }
}
