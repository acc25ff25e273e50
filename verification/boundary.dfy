/**
 * The multipart boundary generator `genBoundary` (mailer.go:489-497).
 *
 * `genBoundary` draws 32 indices from a pseudo-random generator seeded with
 * the clock. Here the indices it would draw are an input: `draws`, one index in
 * [0, 36) per character.
 */
module Boundary {

  /** The characters a boundary is made of, in the order `genBoundary` lists them. */
  const Alphabet: string := "1234567890abcdefghijklmnopqrstuvwxyz"

  /** Number of characters in every generated boundary. */
  const BoundaryLength: nat := 32

  /** A value `r.Intn(len(charset))` in `genBoundary` can return. */
  type CharIndex = i: int | 0 <= i < 36

  /** The boundary spelled by a sequence of draws. */
  function BoundaryOf(draws: seq<CharIndex>): string {
    seq(|draws|, i requires 0 <= i < |draws| => Alphabet[draws[i]])
  }

  /** Fills a 32-character buffer one position at a time. */
  method GenBoundary(draws: seq<CharIndex>) returns (boundary: string)
    requires |draws| == BoundaryLength
    ensures boundary == BoundaryOf(draws)
    ensures |boundary| == BoundaryLength
    ensures forall i :: 0 <= i < |boundary| ==> boundary[i] in Alphabet
  {
    var b := new char[BoundaryLength];
    for i := 0 to BoundaryLength
      invariant forall j :: 0 <= j < i ==> b[j] == Alphabet[draws[j]]
    {
      b[i] := Alphabet[draws[i]];
    }
    boundary := b[..];
  }

  /** The position of a character in `Alphabet`, computed from its code. */
  function IndexOf(c: char): int {
    if '1' <= c <= '9' then c as int - '1' as int
    else if c == '0' then 9
    else c as int - 'a' as int + 10
  }

  /** No character of the alphabet occurs twice: `IndexOf` undoes indexing. */
  lemma AlphabetIndex(i: CharIndex)
    ensures IndexOf(Alphabet[i]) == i
  {
  }

  /** The draws can be read back from the boundary they produce. */
  function DrawsOf(boundary: string): seq<int> {
    seq(|boundary|, i requires 0 <= i < |boundary| => IndexOf(boundary[i]))
  }

  /** The draws can be read back from the boundary: distinct draw sequences give distinct boundaries. */
  lemma DrawsRoundTrip(draws: seq<CharIndex>)
    ensures DrawsOf(BoundaryOf(draws)) == draws
  {
    forall i | 0 <= i < |draws|
      ensures DrawsOf(BoundaryOf(draws))[i] == draws[i]
    {
      AlphabetIndex(draws[i]);
    }
  }

  /** A character allowed in a boundary, `bchars` of section 5.1.1 of RFC 2046. */
  predicate IsBChar(c: char) {
    || '0' <= c <= '9'
    || 'a' <= c <= 'z'
    || 'A' <= c <= 'Z'
    || c in "'()+_,-./:=? "
  }

  /** A boundary as section 5.1.1 of RFC 2046 defines it: 1 to 70 bchars, not ending in a space. */
  predicate IsRfc2046Boundary(s: string) {
    && 1 <= |s| <= 70
    && (forall i :: 0 <= i < |s| ==> IsBChar(s[i]))
    && s[|s| - 1] != ' '
  }

  /** Every alphabet character is a digit or a lower-case letter. */
  lemma AlphabetIsAlphanumeric(i: CharIndex)
    ensures '0' <= Alphabet[i] <= '9' || 'a' <= Alphabet[i] <= 'z'
  {
  }

  /** Whatever the draws, the generated boundary is a valid RFC 2046 boundary. */
  lemma GeneratedBoundaryIsValid(draws: seq<CharIndex>)
    requires |draws| == BoundaryLength
    ensures IsRfc2046Boundary(BoundaryOf(draws))
  {
    var b := BoundaryOf(draws);
    forall i | 0 <= i < |b|
      ensures IsBChar(b[i])
    {
      AlphabetIsAlphanumeric(draws[i]);
    }
    AlphabetIsAlphanumeric(draws[|b| - 1]);
  }
}
