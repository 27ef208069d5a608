/**
  The two string operations the matching rule of the evaluation loop relies on:
  lower-casing a predicted label (`String.prototype.toLowerCase`, restricted to
  ASCII letters) and substring search (`String.prototype.includes`).
 */
module Text {

  predicate IsUpperAscii(c: char) {
    'A' <= c <= 'Z'
  }

  /** Lower-cases one character: ASCII capitals map to their small letter, everything else is kept. */
  function LowerChar(c: char): char {
    if IsUpperAscii(c) then (c as int + 32) as char else c
  }

  /** ASCII lower-casing of a whole string, character by character. */
  function ToLower(s: string): (r: string)
    ensures |r| == |s|
    ensures forall i :: 0 <= i < |r| ==> !IsUpperAscii(r[i])
    ensures forall i :: 0 <= i < |s| && !IsUpperAscii(s[i]) ==> r[i] == s[i]
    ensures forall i :: 0 <= i < |s| && IsUpperAscii(s[i]) ==> r[i] as int == s[i] as int + 32
  {
    seq(|s|, i requires 0 <= i < |s| => LowerChar(s[i]))
  }

  /** `needle` occurs in `hay` starting at index `i`. */
  predicate OccursAt(needle: string, hay: string, i: int) {
    0 <= i && i + |needle| <= |hay| && hay[i..i + |needle|] == needle
  }

  /** Reference meaning of substring containment: some occurrence exists. */
  ghost predicate IsSubstring(needle: string, hay: string) {
    exists i :: OccursAt(needle, hay, i)
  }

  /**
    `hay.includes(needle)`: scans the start positions of `hay` from left to
    right. The empty needle is contained in every string, the empty one included.
   */
  function Includes(hay: string, needle: string): bool
    decreases |hay|
  {
    if |hay| < |needle| then false
    else if hay[..|needle|] == needle then true
    else Includes(hay[1..], needle)
  }

  /** The scan finds an occurrence exactly when one exists. */
  lemma {:induction false} IncludesIsSubstring(hay: string, needle: string)
    ensures Includes(hay, needle) <==> IsSubstring(needle, hay)
    decreases |hay|
  {
    if |hay| < |needle| {
    } else if hay[..|needle|] == needle {
      assert OccursAt(needle, hay, 0);
    } else {
      IncludesIsSubstring(hay[1..], needle);
      if IsSubstring(needle, hay[1..]) {
        var i :| OccursAt(needle, hay[1..], i);
        OccursShift(needle, hay, i);
      }
      if IsSubstring(needle, hay) {
        var i :| OccursAt(needle, hay, i);
        assert i != 0;
        OccursShift(needle, hay, i - 1);
      }
    }
  }

  /** Dropping the first character of `hay` moves every later occurrence one place to the left. */
  lemma OccursShift(needle: string, hay: string, i: int)
    requires 0 < |hay| && 0 <= i
    ensures OccursAt(needle, hay[1..], i) <==> OccursAt(needle, hay, i + 1)
  {
    if i + 1 + |needle| <= |hay| {
      assert hay[1..][i..i + |needle|] == hay[i + 1..i + 1 + |needle|];
    }
  }

  /** Every string contains the empty string. */
  lemma EmptyIsSubstring(hay: string)
    ensures IsSubstring([], hay)
  {
    assert OccursAt([], hay, 0);
  }

  /** A string with a character that `hay` lacks does not occur in `hay`. */
  lemma MissingCharNotSubstring(needle: string, hay: string, j: int)
    requires 0 <= j < |needle| && needle[j] !in hay
    ensures !IsSubstring(needle, hay)
  {
    forall i: int
      ensures !OccursAt(needle, hay, i)
    {
      if 0 <= i && i + |needle| <= |hay| {
        assert hay[i..i + |needle|][j] == hay[i + j];
      }
    }
  }

  /** A string containing an ASCII capital never occurs inside a lower-cased string. */
  lemma UpperNeverInLowered(needle: string, name: string, j: int)
    requires 0 <= j < |needle| && IsUpperAscii(needle[j])
    ensures !IsSubstring(needle, ToLower(name))
  {
    var lowered := ToLower(name);
    forall i: int
      ensures !OccursAt(needle, lowered, i)
    {
      if 0 <= i && i + |needle| <= |lowered| {
        assert lowered[i..i + |needle|][j] == lowered[i + j];
      }
    }
  }
}
