/**
 * String helpers the search boxes and labels use: `toLowerCase`, `includes`
 * and the Spanish plural suffix.
 */
module Text {

  /** `toLowerCase` on one character; only the ASCII letters A-Z change. */
  function LowerChar(c: char): char
  {
    if 'A' <= c <= 'Z' then (c as int + 32) as char else c
  }

  /** `toLowerCase` on a string, character by character. */
  function Lower(s: string): (r: string)
    ensures |r| == |s|
    ensures forall i :: 0 <= i < |s| ==> r[i] == LowerChar(s[i])
  {
    if s == [] then [] else [LowerChar(s[0])] + Lower(s[1..])
  }

  /** `hay.includes(needle)`: `needle` occurs in `hay` at some position. */
  function Contains(hay: string, needle: string): bool
    decreases |hay|
  {
    needle <= hay || (hay != [] && Contains(hay[1..], needle))
  }

  /** `needle` occurs in `hay` starting at position `i`. */
  predicate OccursAt(hay: string, needle: string, i: int)
  {
    0 <= i && i + |needle| <= |hay| && hay[i..i + |needle|] == needle
  }

  /** Dropping the first character of `hay` shifts every occurrence one place left. */
  lemma OccursShift(hay: string, needle: string, i: int)
    requires hay != [] && 0 <= i
    ensures OccursAt(hay, needle, i + 1) <==> OccursAt(hay[1..], needle, i)
  {
    if i + 1 + |needle| <= |hay| {
      assert hay[1..][i..i + |needle|] == hay[i + 1..i + 1 + |needle|];
    }
  }

  /** `Contains` holds exactly when `needle` occurs in `hay` at some position. */
  lemma {:induction false} ContainsAt(hay: string, needle: string)
    ensures Contains(hay, needle) <==> exists i :: OccursAt(hay, needle, i)
    decreases |hay|
  {
    if needle <= hay {
      assert OccursAt(hay, needle, 0);
    } else if hay == [] {
      assert forall i :: !OccursAt(hay, needle, i);
    } else {
      ContainsAt(hay[1..], needle);
      if exists i :: OccursAt(hay, needle, i) {
        var i :| OccursAt(hay, needle, i);
        assert i != 0;
        OccursShift(hay, needle, i - 1);
      }
      if Contains(hay[1..], needle) {
        var j :| OccursAt(hay[1..], needle, j);
        OccursShift(hay, needle, j);
      }
    }
  }

  /** The empty string is contained in every string. */
  lemma ContainsEmpty(hay: string)
    ensures Contains(hay, "")
  {
  }

  /** Case-insensitive containment: `Lower(hay).includes(Lower(term))`. */
  predicate MatchesTerm(hay: string, term: string)
  {
    Contains(Lower(hay), Lower(term))
  }

  /** Two terms that differ only in letter case match the same strings. */
  lemma MatchesTermCaseInsensitive(hay: string, t1: string, t2: string)
    requires Lower(t1) == Lower(t2)
    ensures MatchesTerm(hay, t1) == MatchesTerm(hay, t2)
  {
  }

  /** Every string matches the empty search term. */
  lemma MatchesEmptyTerm(hay: string)
    ensures MatchesTerm(hay, "")
  {
    ContainsEmpty(Lower(hay));
  }

  /** `count !== 1 ? "s" : ""`: the plural suffix of "producto", "venta", ... */
  function PluralSuffix(count: int): (r: string)
    ensures r != "" <==> count != 1
    ensures r == "" || r == "s"
  {
    if count != 1 then "s" else ""
  }
}
