/** String helpers the handlers rely on: ASCII case mapping (Rust
    `to_uppercase`, JavaScript `toLowerCase`), prefix tests (`starts_with`)
    and substring tests (`includes`). */
module Text {

  function UpperChar(ch: char): char {
    if 'a' <= ch <= 'z' then (ch as int - 32) as char else ch
  }

  function LowerChar(ch: char): char {
    if 'A' <= ch <= 'Z' then (ch as int + 32) as char else ch
  }

  /** `s` with every ASCII letter upper-cased, everything else kept. */
  function ToUpper(s: string): (r: string)
    ensures |r| == |s|
    ensures forall i :: 0 <= i < |s| ==> r[i] == UpperChar(s[i])
  {
    seq(|s|, i requires 0 <= i < |s| => UpperChar(s[i]))
  }

  /** `s` with every ASCII letter lower-cased, everything else kept. */
  function ToLower(s: string): (r: string)
    ensures |r| == |s|
    ensures forall i :: 0 <= i < |s| ==> r[i] == LowerChar(s[i])
  {
    seq(|s|, i requires 0 <= i < |s| => LowerChar(s[i]))
  }

  /** Upper-casing twice is upper-casing once. */
  lemma ToUpperIdempotent(s: string)
    ensures ToUpper(ToUpper(s)) == ToUpper(s)
  {
    forall i | 0 <= i < |s|
      ensures ToUpper(ToUpper(s))[i] == ToUpper(s)[i]
    {
      assert UpperChar(UpperChar(s[i])) == UpperChar(s[i]);
    }
  }

  predicate StartsWith(s: string, prefix: string) {
    |prefix| <= |s| && s[..|prefix|] == prefix
  }

  /** `needle` occurs in `hay` at position `k`. */
  predicate OccursAt(needle: string, hay: string, k: nat) {
    k + |needle| <= |hay| && hay[k..k + |needle|] == needle
  }

  /** `needle` occurs somewhere in `hay`, scanning from the left
      (JavaScript `String.prototype.includes`). */
  function Includes(hay: string, needle: string): (r: bool)
    ensures r <==> exists k: nat :: OccursAt(needle, hay, k)
    decreases |hay|
  {
    if StartsWith(hay, needle) then
      assert OccursAt(needle, hay, 0);
      true
    else if |hay| <= |needle| then
      assert forall k: nat :: !OccursAt(needle, hay, k);
      false
    else
      var rest := Includes(hay[1..], needle);
      ShiftOccurrence(needle, hay);
      rest
  }

  /** An occurrence past position 0 is an occurrence in the tail. */
  lemma ShiftOccurrence(needle: string, hay: string)
    requires hay != []
    requires !OccursAt(needle, hay, 0)
    ensures (exists k: nat :: OccursAt(needle, hay, k)) <==>
            (exists k: nat :: OccursAt(needle, hay[1..], k))
  {
    forall k: nat | OccursAt(needle, hay, k)
      ensures OccursAt(needle, hay[1..], k - 1)
    {
      assert k != 0;
      assert hay[1..][k - 1..k - 1 + |needle|] == hay[k..k + |needle|];
    }
    forall k: nat | OccursAt(needle, hay[1..], k)
      ensures OccursAt(needle, hay, k + 1)
    {
      assert hay[1..][k..k + |needle|] == hay[k + 1..k + 1 + |needle|];
    }
  }

  /** The empty string occurs in every string. */
  lemma IncludesEmpty(hay: string)
    ensures Includes(hay, "")
  {
    assert OccursAt("", hay, 0);
  }
}
