/**
 * The two string predicates the ledger's filters rely on: Java's
 * `String.equalsIgnoreCase`, restricted to ASCII case folding, and
 * `String.contains`.
 */
module Text {

  /** ASCII lower-casing of one character. */
  function ToLowerAscii(c: char): char
  {
    if 'A' <= c <= 'Z' then (c as int + 32) as char else c
  }

  /** `a.equalsIgnoreCase(b)`: same length, and equal character by character once lower-cased. */
  predicate EqualsIgnoreCase(a: string, b: string)
  {
    |a| == |b| && forall i :: 0 <= i < |a| ==> ToLowerAscii(a[i]) == ToLowerAscii(b[i])
  }

  /** The whole string lower-cased, one character at a time. */
  function Lowered(s: string): (r: string)
    ensures |r| == |s|
    ensures forall i :: 0 <= i < |s| ==> r[i] == ToLowerAscii(s[i])
  {
    if s == [] then [] else [ToLowerAscii(s[0])] + Lowered(s[1..])
  }

  /** Case-insensitive equality is plain equality of the lower-cased strings,
      so it is an equivalence relation. */
  lemma EqualsIgnoreCaseIffLoweredEqual(a: string, b: string)
    ensures EqualsIgnoreCase(a, b) <==> Lowered(a) == Lowered(b)
  {
    if Lowered(a) == Lowered(b) {
      assert |a| == |b|;
      forall i | 0 <= i < |a| ensures ToLowerAscii(a[i]) == ToLowerAscii(b[i]) {
        assert Lowered(a)[i] == Lowered(b)[i];
      }
    }
  }

  /** `s.contains(fragment)`: `fragment` is a prefix of `s` or of one of its suffixes. */
  predicate Contains(s: string, fragment: string)
    decreases |s|
  {
    fragment <= s || (s != [] && Contains(s[1..], fragment))
  }

  /** `fragment` occurs in `s` starting at index `i`. */
  predicate OccursAt(s: string, fragment: string, i: int)
  {
    0 <= i && i + |fragment| <= |s| && s[i..i + |fragment|] == fragment
  }

  /** `Contains` holds exactly when `fragment` occurs in `s` at some index. */
  lemma {:induction false} ContainsIffOccursAt(s: string, fragment: string)
    ensures Contains(s, fragment) <==> exists i :: OccursAt(s, fragment, i)
    decreases |s|
  {
    if fragment <= s {
      assert OccursAt(s, fragment, 0);
    } else if s == [] {
      forall i ensures !OccursAt(s, fragment, i) {
      }
    } else {
      ContainsIffOccursAt(s[1..], fragment);
      if Contains(s[1..], fragment) {
        var i :| OccursAt(s[1..], fragment, i);
        assert s[i + 1..i + 1 + |fragment|] == s[1..][i..i + |fragment|];
        assert OccursAt(s, fragment, i + 1);
      } else {
        assert !OccursAt(s, fragment, 0);
        forall i | OccursAt(s, fragment, i) ensures OccursAt(s[1..], fragment, i - 1) {
          assert s[i..i + |fragment|] == s[1..][i - 1..i - 1 + |fragment|];
        }
      }
    }
  }
}
