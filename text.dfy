/**
 * The two string operations the provider search is built from: lower-casing
 * (`String.prototype.toLowerCase`) and substring containment
 * (`String.prototype.includes`).
 *
 * Lower-casing is modelled on ASCII: 'A'..'Z' map to 'a'..'z' and every
 * other character is left alone.
 */
module Text {

  predicate IsUpper(c: char) {
    'A' <= c <= 'Z'
  }

  /** ASCII lower-casing of one character. */
  function LowerChar(c: char): (r: char)
    ensures !IsUpper(r)
    ensures !IsUpper(c) ==> r == c
    ensures IsUpper(c) ==> r as int - c as int == 'a' as int - 'A' as int
  {
    if IsUpper(c) then (c as int - 'A' as int + 'a' as int) as char else c
  }

  /** A string with no upper-case letter left in it. */
  predicate IsLowerCase(s: string) {
    forall k :: 0 <= k < |s| ==> !IsUpper(s[k])
  }

  /** `s.toLowerCase()`: every character lowered in place. */
  function Lower(s: string): (r: string)
    ensures |r| == |s|
  {
    seq(|s|, k requires 0 <= k < |s| => LowerChar(s[k]))
  }

  /**
   * Lowering moves every upper-case letter to its lower-case letter, keeps
   * every other character as it was, and so leaves no upper-case letter.
   */
  lemma LowerIsLowerCase(s: string)
    ensures IsLowerCase(Lower(s))
    ensures forall k :: 0 <= k < |s| && !IsUpper(s[k]) ==> Lower(s)[k] == s[k]
    ensures forall k :: 0 <= k < |s| && IsUpper(s[k]) ==> Lower(s)[k] as int == s[k] as int + ('a' as int - 'A' as int)
  {
  }

  /** Lowering commutes with taking a slice. */
  lemma LowerSlice(s: string, i: nat, j: nat)
    requires i <= j <= |s|
    ensures Lower(s[i..j]) == Lower(s)[i..j]
  {
  }

  /** Lowering an already lowered string changes nothing. */
  lemma LowerIdempotent(s: string)
    ensures Lower(Lower(s)) == Lower(s)
  {
  }

  /** `s` begins with `prefix`. */
  predicate StartsWith(s: string, prefix: string) {
    |prefix| <= |s| && s[..|prefix|] == prefix
  }

  /** `hay.includes(needle)`, scanning start positions left to right. */
  predicate Includes(hay: string, needle: string)
    ensures Includes(hay, needle) ==> |needle| <= |hay|
    ensures |needle| == 0 ==> Includes(hay, needle)
    decreases |hay|
  {
    StartsWith(hay, needle) || (|hay| > 0 && Includes(hay[1..], needle))
  }

  /** `needle` sits in `hay` starting at position `i`. */
  ghost predicate OccursAt(hay: string, needle: string, i: int) {
    0 <= i && i + |needle| <= |hay| && hay[i..i + |needle|] == needle
  }

  /** The scanning definition of `Includes` agrees with "occurs at some position". */
  lemma {:induction false} IncludesIff(hay: string, needle: string)
    ensures Includes(hay, needle) <==> exists i :: OccursAt(hay, needle, i)
    decreases |hay|
  {
    if Includes(hay, needle) {
      if StartsWith(hay, needle) {
        assert OccursAt(hay, needle, 0);
      } else {
        IncludesIff(hay[1..], needle);
        var i :| OccursAt(hay[1..], needle, i);
        assert hay[1..][i..i + |needle|] == hay[i + 1..i + 1 + |needle|];
        assert OccursAt(hay, needle, i + 1);
      }
    }
    if exists i :: OccursAt(hay, needle, i) {
      var i :| OccursAt(hay, needle, i);
      if i == 0 {
        assert StartsWith(hay, needle);
      } else {
        assert hay[1..][i - 1..i - 1 + |needle|] == hay[i..i + |needle|];
        assert OccursAt(hay[1..], needle, i - 1);
        IncludesIff(hay[1..], needle);
      }
    }
  }

  /** A needle holding a character that `hay` lacks is not included in it. */
  lemma {:induction false} NotIncludedWhenCharMissing(hay: string, needle: string, k: nat)
    requires k < |needle| && needle[k] !in hay
    ensures !Includes(hay, needle)
    decreases |hay|
  {
    if |hay| > 0 {
      assert forall c :: c in hay[1..] ==> c in hay;
      NotIncludedWhenCharMissing(hay[1..], needle, k);
    }
  }

  /** The upper-case form of a lower-case ASCII letter. */
  function UpperOf(c: char): (u: char)
    requires 'a' <= c <= 'z'
    ensures IsUpper(u) && LowerChar(u) == c
  {
    (c as int - 'a' as int + 'A' as int) as char
  }

  /** `c` is a lower-case letter that `s` holds in neither case. */
  predicate LacksLetter(s: string, c: char) {
    'a' <= c <= 'z' && c !in s && UpperOf(c) !in s
  }

  /** A letter that `s` lacks in both cases is absent from `Lower(s)`. */
  lemma LowerLacks(s: string, c: char)
    requires LacksLetter(s, c)
    ensures c !in Lower(s)
  {
  }

  /** The lowered `s` does not include a needle holding a letter that `s` lacks in both cases. */
  lemma NotIncludedInLowered(s: string, needle: string, c: char)
    requires LacksLetter(s, c) && c in needle
    ensures !Includes(Lower(s), needle)
  {
    LowerLacks(s, c);
    var k :| 0 <= k < |needle| && needle[k] == c;
    NotIncludedWhenCharMissing(Lower(s), needle, k);
  }
}
