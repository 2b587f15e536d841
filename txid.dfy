/** Transaction ids of the mock generators: 64 characters, each drawn from
    `0123456789abcdef` by a uniform index. */
module TxIds {

  const HexDigits: string := "0123456789abcdef"
  const TxIdLength: nat := 64

  predicate IsHexChar(c: char) {
    '0' <= c <= '9' || 'a' <= c <= 'f'
  }

  /** The index a character has in `HexDigits` (its value as a hex digit). */
  function HexValue(c: char): (v: nat)
    requires IsHexChar(c)
    ensures v < 16 && HexDigits[v] == c
  {
    if c <= '9' then c as nat - '0' as nat else c as nat - 'a' as nat + 10
  }

  predicate ValidDigitDraws(draws: seq<int>) {
    |draws| == TxIdLength && forall k :: 0 <= k < |draws| ==> 0 <= draws[k] < 16
  }

  /** `Array.from({length: 64}, () => digits[draw]).join('')`: one character per draw. */
  function GenerateTxId(draws: seq<int>): (txid: string)
    requires ValidDigitDraws(draws)
    ensures |txid| == TxIdLength
    ensures forall k :: 0 <= k < |txid| ==> IsHexChar(txid[k])
  {
    seq(TxIdLength, k requires 0 <= k < TxIdLength => HexDigits[draws[k]])
  }

  /** Reading the hex values back recovers the draws: distinct draws give distinct ids. */
  function DecodeTxId(txid: string): (draws: seq<int>)
    requires forall k :: 0 <= k < |txid| ==> IsHexChar(txid[k])
    ensures |draws| == |txid|
  {
    seq(|txid|, k requires 0 <= k < |txid| => HexValue(txid[k]) as int)
  }

  lemma DecodeGenerate(draws: seq<int>)
    requires ValidDigitDraws(draws)
    ensures DecodeTxId(GenerateTxId(draws)) == draws
  {
    var txid := GenerateTxId(draws);
    forall k | 0 <= k < TxIdLength
      ensures DecodeTxId(txid)[k] == draws[k]
    {
      assert txid[k] == HexDigits[draws[k]];
      assert HexDigits[HexValue(txid[k])] == txid[k];
      HexDigitsDistinct(HexValue(txid[k]), draws[k]);
    }
  }

  lemma HexDigitsDistinct(i: nat, j: nat)
    requires i < 16 && j < 16 && HexDigits[i] == HexDigits[j]
    ensures i == j
  {
  }

  lemma GenerateInjective(d1: seq<int>, d2: seq<int>)
    requires ValidDigitDraws(d1) && ValidDigitDraws(d2)
    requires GenerateTxId(d1) == GenerateTxId(d2)
    ensures d1 == d2
  {
    DecodeGenerate(d1);
    DecodeGenerate(d2);
  }
}
