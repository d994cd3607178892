/** The short-code generator. The Go code draws `shortCodeLength` indices from a
    time-seeded random source; here those draws are an input sequence. */
module ShortCodeService {

  const ShortCodeLength: nat := 4
  const ShortCodeSource: string := "ABCDEFGHIJKLMNOPQRSTUVWXYZ0123456789"

  /** Every draw is an index into the alphabet, as `Intn(len(shortCodeSource))` guarantees. */
  predicate InAlphabetRange(draws: seq<int>)
  {
    forall i :: 0 <= i < |draws| ==> 0 <= draws[i] < |ShortCodeSource|
  }

  /** One draw per character of a code. */
  predicate ValidDraws(draws: seq<int>)
  {
    |draws| == ShortCodeLength && InAlphabetRange(draws)
  }

  /** A well-formed short code: the right length, every character from the alphabet. */
  predicate IsShortCode(s: string)
  {
    |s| == ShortCodeLength && forall i :: 0 <= i < |s| ==> s[i] in ShortCodeSource
  }

  /** The code a sequence of draws spells: one alphabet symbol per draw, appended in order. */
  function CodeOf(draws: seq<int>): string
    requires InAlphabetRange(draws)
  {
    if draws == [] then "" else CodeOf(draws[..|draws| - 1]) + [ShortCodeSource[draws[|draws| - 1]]]
  }

  /** Position `i` of the code is the symbol at index `draws[i]`. */
  lemma {:induction false} CodeOfAt(draws: seq<int>, i: nat)
    requires InAlphabetRange(draws)
    requires i < |draws|
    ensures |CodeOf(draws)| == |draws|
    ensures CodeOf(draws)[i] == ShortCodeSource[draws[i]]
  {
    var front := draws[..|draws| - 1];
    assert InAlphabetRange(front);
    if i < |draws| - 1 {
      CodeOfAt(front, i);
    } else if |front| > 0 {
      CodeOfAt(front, 0);
    }
  }

  /** Valid draws always spell a well-formed short code. */
  lemma CodeOfIsShortCode(draws: seq<int>)
    requires ValidDraws(draws)
    ensures IsShortCode(CodeOf(draws))
  {
    CodeOfAt(draws, 0);
    forall i | 0 <= i < ShortCodeLength
      ensures CodeOf(draws)[i] in ShortCodeSource
    {
      CodeOfAt(draws, i);
    }
  }

  /** `Generate`: the counted loop looks up one symbol per draw and appends it. */
  method Generate(draws: seq<int>) returns (generated: string)
    requires ValidDraws(draws)
    ensures generated == CodeOf(draws)
    ensures IsShortCode(generated)
  {
    generated := "";
    for i := 0 to ShortCodeLength
      invariant generated == CodeOf(draws[..i])
    {
      var index := draws[i];
      var symbol := ShortCodeSource[index];
      assert draws[..i + 1][..i] == draws[..i];
      generated := generated + [symbol];
    }
    assert draws[..ShortCodeLength] == draws;
    CodeOfIsShortCode(draws);
  }
}
