/**
 * The three string operations the weather module relies on: `str.lower()`,
 * `str.capitalize()` and the substring test `sub in s`. Case mapping is
 * restricted to the ASCII letters A-Z / a-z.
 */
module Text {

  predicate IsUpper(c: char) { 'A' <= c <= 'Z' }

  predicate IsLower(c: char) { 'a' <= c <= 'z' }

  /** Lower-case one character: an ASCII capital becomes its small letter, anything else is kept. */
  function LowerChar(c: char): (r: char)
    ensures !IsUpper(r)
    ensures IsUpper(c) ==> IsLower(r) && r as int == c as int + 32
    ensures !IsUpper(c) ==> r == c
  {
    if IsUpper(c) then (c as int + 32) as char else c
  }

  /** Upper-case one character: an ASCII small letter becomes its capital, anything else is kept. */
  function UpperChar(c: char): (r: char)
    ensures !IsLower(r)
    ensures IsLower(c) ==> IsUpper(r) && LowerChar(r) == c
    ensures !IsLower(c) ==> r == c
  {
    if IsLower(c) then (c as int - 32) as char else c
  }

  /** `s.lower()`: every character lower-cased, in place. */
  function Lower(s: string): (r: string)
    ensures |r| == |s|
    ensures forall i :: 0 <= i < |s| ==> r[i] == LowerChar(s[i])
  {
    if s == [] then [] else [LowerChar(s[0])] + Lower(s[1..])
  }

  /** `s.capitalize()`: the first character upper-cased, the rest lower-cased. */
  function Capitalize(s: string): (r: string)
    ensures |r| == |s|
    ensures s != [] ==> r[0] == UpperChar(s[0]) && r[1..] == Lower(s[1..])
  {
    if s == [] then [] else [UpperChar(s[0])] + Lower(s[1..])
  }

  /** `s` and `t` spell the same text up to the case of its letters. */
  predicate SameUpToCase(s: string, t: string) {
    |s| == |t| && forall i :: 0 <= i < |s| ==> LowerChar(s[i]) == LowerChar(t[i])
  }

  /** `sub in s`: `sub` occurs in `s` at some position, scanning left to right. */
  predicate Contains(s: string, sub: string)
    ensures Contains(s, sub) ==> |sub| <= |s|
    ensures sub == [] ==> Contains(s, sub)
    decreases |s|
  {
    if |s| < |sub| then false
    else if s[..|sub|] == sub then true
    else Contains(s[1..], sub)
  }

  /** `sub` occurs in `s` starting at index `i`. */
  predicate OccursAt(s: string, sub: string, i: int) {
    0 <= i && i + |sub| <= |s| && s[i..i + |sub|] == sub
  }

  /** `sub` occurs somewhere in `s`. */
  ghost predicate Occurs(s: string, sub: string) {
    exists i :: OccursAt(s, sub, i)
  }

  /** The scan agrees with the declarative reading: some index holds an occurrence. */
  lemma {:induction false} ContainsIffOccurs(s: string, sub: string)
    ensures Contains(s, sub) <==> Occurs(s, sub)
    decreases |s|
  {
    if |s| < |sub| {
    } else if s[..|sub|] == sub {
      assert OccursAt(s, sub, 0);
    } else {
      ContainsIffOccurs(s[1..], sub);
      if Contains(s[1..], sub) {
        var j :| OccursAt(s[1..], sub, j);
        assert j + 1 + |sub| <= |s|;
        forall k | 0 <= k < |sub|
          ensures s[j + 1..j + 1 + |sub|][k] == sub[k]
        {
          assert s[1..][j..j + |sub|][k] == sub[k];
        }
        assert OccursAt(s, sub, j + 1);
      }
      if exists i :: OccursAt(s, sub, i) {
        var i :| OccursAt(s, sub, i);
        assert i != 0;
        assert s[1..][i - 1..i - 1 + |sub|] == s[i..i + |sub|];
        assert OccursAt(s[1..], sub, i - 1);
      }
    }
  }

  /** Text that starts with `sub` contains it. */
  lemma ContainsPrefix(s: string, sub: string)
    requires |sub| <= |s| && s[..|sub|] == sub
    ensures Contains(s, sub)
  {
  }

  /** Text in which the first character of `sub` never appears cannot contain `sub`. */
  lemma {:induction false} MissingFirstCharNotContained(s: string, sub: string)
    requires sub != [] && sub[0] !in s
    ensures !Contains(s, sub)
    decreases |s|
  {
    if |sub| <= |s| {
      assert s[..|sub|][0] == s[0] != sub[0];
      MissingFirstCharNotContained(s[1..], sub);
    }
  }

  /** Texts that differ only in letter case have the same lower-case form, and conversely. */
  lemma SameUpToCaseIffSameLower(s: string, t: string)
    ensures SameUpToCase(s, t) <==> Lower(s) == Lower(t)
  {
    if Lower(s) == Lower(t) {
      forall i | 0 <= i < |s|
        ensures LowerChar(s[i]) == LowerChar(t[i])
      {
        assert Lower(s)[i] == Lower(t)[i];
      }
    }
  }

  /** Capitalizing and then lower-casing is the same as lower-casing. */
  lemma LowerOfCapitalize(s: string)
    ensures Lower(Capitalize(s)) == Lower(s)
  {
    if s != [] {
      assert LowerChar(UpperChar(s[0])) == LowerChar(s[0]);
      assert Lower(Capitalize(s))[0] == Lower(s)[0];
    }
  }

  /** A text already starting without a small letter and going on without capitals is its own capitalization. */
  lemma CapitalizeFixed(s: string)
    requires s != [] && !IsLower(s[0])
    requires forall i :: 1 <= i < |s| ==> !IsUpper(s[i])
    ensures Capitalize(s) == s
  {
    assert Capitalize(s)[1..] == s[1..];
  }

  /** Capitalizing only changes letter case. */
  lemma CapitalizeSameUpToCase(s: string)
    ensures SameUpToCase(Capitalize(s), s)
  {
    LowerOfCapitalize(s);
    SameUpToCaseIffSameLower(Capitalize(s), s);
  }
}
