/** Text primitives the auditor's rules are built from: substring containment
    (Python's `needle in haystack`) and ASCII lower-casing (`str.lower`). */
module Text {

  /** `needle` occurs in `haystack` starting at position `i`. This is the
      reference meaning of containment that `Contains` is proved against. */
  ghost predicate OccursAt(haystack: string, needle: string, i: int)
  {
    0 <= i && i + |needle| <= |haystack| && haystack[i..i + |needle|] == needle
  }

  /** `needle in haystack`: the needle is a prefix of the haystack or of one
      of its suffixes. The empty needle is contained in every string. */
  predicate Contains(haystack: string, needle: string)
    decreases |haystack|
  {
    needle <= haystack || (|haystack| > 0 && Contains(haystack[1..], needle))
  }

  /** Containment yields a position where the needle occurs. */
  lemma {:induction false} ContainsOccurs(haystack: string, needle: string)
    requires Contains(haystack, needle)
    ensures exists i :: OccursAt(haystack, needle, i)
    decreases |haystack|
  {
    if needle <= haystack {
      assert OccursAt(haystack, needle, 0);
    } else {
      var tail := haystack[1..];
      ContainsOccurs(tail, needle);
      var j :| OccursAt(tail, needle, j);
      assert haystack[j + 1..j + 1 + |needle|] == tail[j..j + |needle|];
      assert OccursAt(haystack, needle, j + 1);
    }
  }

  /** A witness position is enough to establish containment. */
  lemma {:induction false} OccursAtContains(haystack: string, needle: string, i: int)
    requires OccursAt(haystack, needle, i)
    ensures Contains(haystack, needle)
    decreases i
  {
    if i == 0 {
      assert haystack[0..|needle|] == haystack[..|needle|];
    } else {
      assert haystack[1..][i - 1..i - 1 + |needle|] == haystack[i..i + |needle|];
      OccursAtContains(haystack[1..], needle, i - 1);
    }
  }

  /** Containment holds exactly when there is a position where the needle occurs. */
  lemma ContainsIff(haystack: string, needle: string)
    ensures Contains(haystack, needle) <==> exists i :: OccursAt(haystack, needle, i)
  {
    if Contains(haystack, needle) {
      ContainsOccurs(haystack, needle);
    }
    forall i | OccursAt(haystack, needle, i) ensures Contains(haystack, needle) {
      OccursAtContains(haystack, needle, i);
    }
  }

  predicate IsUpper(c: char)
  {
    'A' <= c <= 'Z'
  }

  predicate IsLower(c: char)
  {
    'a' <= c <= 'z'
  }

  /** Lower-cases one ASCII letter; every other character is left alone. */
  function LowerChar(c: char): (r: char)
    ensures !IsUpper(r)
    ensures IsUpper(c) ==> IsLower(r) && r as int - 'a' as int == c as int - 'A' as int
    ensures !IsUpper(c) ==> r == c
  {
    if IsUpper(c) then (c as int - 'A' as int + 'a' as int) as char else c
  }

  /** The capital form of an ASCII small letter: the one character that
      `LowerChar` maps to it. */
  function UpperOf(c: char): (r: char)
    requires IsLower(c)
    ensures IsUpper(r) && LowerChar(r) == c
  {
    (c as int - 'a' as int + 'A' as int) as char
  }

  /** `s.lower()` restricted to ASCII: the same length, each character
      lower-cased in place, and no upper-case letter left anywhere. */
  function Lower(s: string): (r: string)
    ensures |r| == |s|
    ensures forall i :: 0 <= i < |s| ==> r[i] == LowerChar(s[i])
    ensures forall i :: 0 <= i < |r| ==> !IsUpper(r[i])
  {
    if s == [] then [] else [LowerChar(s[0])] + Lower(s[1..])
  }

  /** Lower-casing commutes with taking a slice. */
  lemma LowerSlice(s: string, i: int, j: int)
    requires 0 <= i <= j <= |s|
    ensures Lower(s)[i..j] == Lower(s[i..j])
  {
    assert forall k :: 0 <= k < j - i ==> Lower(s)[i..j][k] == Lower(s[i..j])[k];
  }

  /** A lower-cased text can never contain a needle that has an upper-case
      letter in it, whatever the text was. */
  lemma UpperNeedleNeverInLower(s: string, needle: string, k: int)
    requires 0 <= k < |needle| && IsUpper(needle[k])
    ensures !Contains(Lower(s), needle)
  {
    forall i ensures !OccursAt(Lower(s), needle, i) {
      if 0 <= i && i + |needle| <= |s| {
        assert Lower(s)[i..i + |needle|][k] == Lower(s)[i + k];
      }
    }
    ContainsIff(Lower(s), needle);
  }

  /** Every occurrence survives lower-casing: if `s` contains `needle`, then
      `Lower(s)` contains `Lower(needle)`. So a lower-case needle tested
      against the lower-cased text matches any capitalisation of it. */
  lemma LowerKeepsOccurrences(s: string, needle: string)
    requires Contains(s, needle)
    ensures Contains(Lower(s), Lower(needle))
  {
    ContainsOccurs(s, needle);
    var i :| OccursAt(s, needle, i);
    LowerSlice(s, i, i + |needle|);
    assert OccursAt(Lower(s), Lower(needle), i);
    OccursAtContains(Lower(s), Lower(needle), i);
  }

  /** If some character of the needle does not occur in the haystack at all,
      the needle is not contained in it. */
  lemma MissingCharNotContained(haystack: string, needle: string, c: char)
    requires c in needle && c !in haystack
    ensures !Contains(haystack, needle)
  {
    var k :| 0 <= k < |needle| && needle[k] == c;
    forall i ensures !OccursAt(haystack, needle, i) {
      if 0 <= i && i + |needle| <= |haystack| {
        assert haystack[i..i + |needle|][k] == haystack[i + k];
      }
    }
    ContainsIff(haystack, needle);
  }

  /** A lower-case letter is absent from the lower-cased text when neither
      it nor its upper-case form occurs in the original. */
  lemma LowerMissingLetter(s: string, c: char)
    requires IsLower(c) && c !in s && UpperOf(c) !in s
    ensures c !in Lower(s)
  {
    forall i | 0 <= i < |s| ensures Lower(s)[i] != c {
      assert s[i] != c && s[i] != UpperOf(c);
    }
  }

  /** A text without upper-case letters is its own lower-cased form. */
  lemma LowerOfLowercase(s: string)
    requires forall i :: 0 <= i < |s| ==> !IsUpper(s[i])
    ensures Lower(s) == s
  {
    assert forall i :: 0 <= i < |s| ==> Lower(s)[i] == s[i];
  }

  /** A needle without upper-case letters that occurs in a text also occurs
      in the lower-cased text. */
  lemma LowercaseNeedleSurvives(s: string, needle: string)
    requires Contains(s, needle)
    requires forall i :: 0 <= i < |needle| ==> !IsUpper(needle[i])
    ensures Contains(Lower(s), needle)
  {
    LowerOfLowercase(needle);
    LowerKeepsOccurrences(s, needle);
  }
}
