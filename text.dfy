/**
 * String helpers with JavaScript's meaning: the falsy empty string in `||`
 * chains, and `String.prototype.includes`.
 */
module Text {

  /** `a || b` on strings: the empty string is falsy, so `b` is taken when `a` is "". */
  function Or(a: string, b: string): (r: string)
    ensures r == a || r == b
    ensures r == "" <==> a == "" && b == ""
  {
    if a != "" then a else b
  }

  /**
   * The value of a chain `c0 || c1 || ... || ''`: the first non-empty
   * candidate, or "" when every candidate is empty.
   */
  function FirstNonEmpty(cs: seq<string>): (r: string)
    ensures r == "" <==> forall i :: 0 <= i < |cs| ==> cs[i] == ""
    ensures r != "" ==> exists k :: 0 <= k < |cs| && cs[k] == r && forall i :: 0 <= i < k ==> cs[i] == ""
  {
    if cs == [] then ""
    else if cs[0] != "" then cs[0]
    else
      var rest := FirstNonEmpty(cs[1..]);
      assert forall i :: 1 <= i < |cs| ==> cs[i] == cs[1..][i - 1];
      rest
  }

  /** `needle` occurs in `hay` starting at index `i`. */
  ghost predicate OccursAt(hay: string, needle: string, i: int)
  {
    0 <= i && i + |needle| <= |hay| && hay[i..i + |needle|] == needle
  }

  /** `hay.includes(needle)`: a test for a contiguous substring, not for list membership. */
  function Includes(hay: string, needle: string): (r: bool)
    ensures needle <= hay ==> r
    ensures r ==> |needle| <= |hay|
    decreases |hay|
  {
    if needle <= hay then true
    else if hay == [] then false
    else Includes(hay[1..], needle)
  }

  /** `Includes` holds exactly when the needle occurs somewhere in the haystack. */
  lemma {:induction false} IncludesIffOccurs(hay: string, needle: string)
    ensures Includes(hay, needle) <==> exists i :: OccursAt(hay, needle, i)
    decreases |hay|
  {
    if needle <= hay {
      assert OccursAt(hay, needle, 0);
    } else if hay != [] {
      IncludesIffOccurs(hay[1..], needle);
      forall i | OccursAt(hay[1..], needle, i)
        ensures OccursAt(hay, needle, i + 1)
      {
        OccursAtShift(hay, needle, i);
      }
      forall i | OccursAt(hay, needle, i)
        ensures OccursAt(hay[1..], needle, i - 1)
      {
        OccursAtShift(hay, needle, i - 1);
      }
    }
  }

  /** An occurrence in the tail of the haystack is an occurrence one position later in the haystack. */
  lemma OccursAtShift(hay: string, needle: string, i: int)
    requires hay != [] && i >= 0
    ensures OccursAt(hay[1..], needle, i) <==> OccursAt(hay, needle, i + 1)
  {
  }

  /** An occurrence of a needle uses only characters of the haystack. */
  lemma OccurrenceKeepsChars(hay: string, needle: string)
    ensures forall i, c :: OccursAt(hay, needle, i) && c in needle ==> c in hay
  {
    forall i, c | OccursAt(hay, needle, i) && c in needle
      ensures c in hay
    {
      var k :| 0 <= k < |needle| && needle[k] == c;
      assert hay[i + k] == hay[i..i + |needle|][k];
    }
  }

  /** Every character of a needle that is included occurs in the haystack. */
  lemma IncludedCharsOccur(hay: string, needle: string)
    ensures Includes(hay, needle) ==> forall c :: c in needle ==> c in hay
  {
    IncludesIffOccurs(hay, needle);
    OccurrenceKeepsChars(hay, needle);
  }
}
