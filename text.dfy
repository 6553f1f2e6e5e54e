/** The two string operations the search relies on: `toLowerCase`, restricted
    to ASCII letters, and `String.prototype.includes`. */
module Text {

  /** The lower-case form of one character: `A`..`Z` move to `a`..`z`, every
      other character is kept. */
  function LowerChar(c: char): char
  {
    if 'A' <= c <= 'Z' then (c as int + ('a' as int - 'A' as int)) as char else c
  }

  /** `s.toLowerCase()` for ASCII text. */
  function ToLower(s: string): (r: string)
    ensures |r| == |s|
    ensures forall i :: 0 <= i < |s| ==> r[i] == LowerChar(s[i])
  {
    if s == [] then [] else [LowerChar(s[0])] + ToLower(s[1..])
  }

  /** `t` occurs in `s` starting at position `i`. */
  predicate OccursAt(s: string, t: string, i: int)
  {
    0 <= i && i + |t| <= |s| && s[i..i + |t|] == t
  }

  /** `s.includes(t)`: `s` starts with `t`, or `t` is included in what follows the
      first character. The empty string is included in every string. */
  predicate Includes(s: string, t: string)
    decreases |s|
  {
    (|t| <= |s| && s[..|t|] == t) || (|s| > 0 && Includes(s[1..], t))
  }

  /** The case-insensitive test the search uses on every field:
      `field.toLowerCase().includes(term.toLowerCase())`. */
  predicate ContainsIgnoringCase(field: string, term: string)
  {
    Includes(ToLower(field), ToLower(term))
  }

  /** `Includes` holds exactly when `t` occurs somewhere in `s`. */
  lemma {:induction false} IncludesIffOccurs(s: string, t: string)
    ensures Includes(s, t) <==> exists i :: OccursAt(s, t, i)
    decreases |s|
  {
    if |t| <= |s| && s[..|t|] == t {
      assert OccursAt(s, t, 0);
    } else if |s| > 0 {
      IncludesIffOccurs(s[1..], t);
      if Includes(s[1..], t) {
        var i :| OccursAt(s[1..], t, i);
        assert s[1..][i..i + |t|] == s[i + 1..i + 1 + |t|];
        assert OccursAt(s, t, i + 1);
      } else {
        forall i | OccursAt(s, t, i) ensures false {
          assert i != 0;
          assert s[1..][i - 1..i - 1 + |t|] == s[i..i + |t|];
          assert OccursAt(s[1..], t, i - 1);
        }
      }
    }
  }

  /** Lower-casing commutes with taking a slice. */
  lemma ToLowerSlice(s: string, i: int, j: int)
    requires 0 <= i <= j <= |s|
    ensures ToLower(s[i..j]) == ToLower(s)[i..j]
  {
  }

  /** Lower-casing is idempotent, so lower-casing a term before searching for it
      changes nothing. */
  lemma ToLowerIdempotent(s: string)
    ensures ToLower(ToLower(s)) == ToLower(s)
  {
  }

  /** An exact occurrence is also a case-insensitive one. */
  lemma ExactOccurrenceMatches(field: string, term: string)
    requires Includes(field, term)
    ensures ContainsIgnoringCase(field, term)
  {
    IncludesIffOccurs(field, term);
    var i :| OccursAt(field, term, i);
    ToLowerSlice(field, i, i + |term|);
    assert OccursAt(ToLower(field), ToLower(term), i);
    IncludesIffOccurs(ToLower(field), ToLower(term));
  }

  /** Every string contains itself, whatever its case. */
  lemma ContainsItself(s: string)
    ensures ContainsIgnoringCase(s, s)
  {
    assert ToLower(s)[..|ToLower(s)|] == ToLower(s);
  }

  /** Every string contains the empty term. */
  lemma ContainsEmpty(s: string)
    ensures ContainsIgnoringCase(s, "")
  {
    assert ToLower("") == "";
    assert ToLower(s)[..0] == "";
  }
}
