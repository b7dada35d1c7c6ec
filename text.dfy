/** The two string operations the location filter is built from: Python's
    `str.lower()` (here restricted to ASCII letters) and the substring test
    `needle in hay`. */
module Text {

  predicate IsUpper(c: char) {
    'A' <= c <= 'Z'
  }

  /** `c.lower()` for an ASCII letter; every other character is kept. */
  function LowerChar(c: char): char {
    if IsUpper(c) then (c as int + 32) as char else c
  }

  /** `s.lower()`: same length, no upper-case letter left, every upper-case
      letter replaced by its lower-case partner, everything else kept. */
  function Lower(s: string): (r: string)
    ensures |r| == |s|
    ensures forall i :: 0 <= i < |r| ==> !IsUpper(r[i])
    ensures forall i :: 0 <= i < |s| && IsUpper(s[i]) ==> r[i] as int == s[i] as int + 32
    ensures forall i :: 0 <= i < |s| && !IsUpper(s[i]) ==> r[i] == s[i]
  {
    seq(|s|, i requires 0 <= i < |s| => LowerChar(s[i]))
  }

  /** Lower-casing twice is lower-casing once. */
  lemma LowerIdempotent(s: string)
    ensures Lower(Lower(s)) == Lower(s)
  {
  }

  /** `needle in hay`: the needle is a prefix of some suffix of the hay.
      The empty needle is in every string, as in Python. */
  predicate Contains(hay: string, needle: string)
    ensures needle <= hay ==> Contains(hay, needle)
    ensures Contains(hay, needle) ==> |needle| <= |hay|
    decreases |hay|
  {
    needle <= hay || (|hay| > 0 && Contains(hay[1..], needle))
  }

  /** The needle sits in the hay starting at offset i. */
  ghost predicate OccursAt(hay: string, needle: string, i: int) {
    0 <= i && i + |needle| <= |hay| && hay[i..i + |needle|] == needle
  }

  /** Contains agrees with the positional definition of a substring. */
  lemma {:induction false} ContainsIff(hay: string, needle: string)
    ensures Contains(hay, needle) <==> exists i :: OccursAt(hay, needle, i)
    decreases |hay|
  {
    if needle <= hay {
      assert OccursAt(hay, needle, 0);
    } else if |hay| > 0 {
      ContainsIff(hay[1..], needle);
      if i :| OccursAt(hay, needle, i) {
        assert i != 0;
        assert hay[1..][i - 1..i - 1 + |needle|] == hay[i..i + |needle|];
        assert OccursAt(hay[1..], needle, i - 1);
      }
      if i :| OccursAt(hay[1..], needle, i) {
        assert hay[1..][i..i + |needle|] == hay[i + 1..i + 1 + |needle|];
        assert OccursAt(hay, needle, i + 1);
      }
    } else {
      assert forall i :: !OccursAt(hay, needle, i);
    }
  }

  /** Nothing but the empty string is in the empty string. */
  lemma EmptyHayContainsOnlyEmpty(needle: string)
    ensures Contains("", needle) <==> needle == ""
  {
  }
}
