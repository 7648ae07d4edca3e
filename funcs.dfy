/** The envelope codec and the correlation-id generator (rpc/src/utils/funcs.ts). */
module Funcs {
  import opened Types

  /** `stringify`: encoding an envelope yields text that `parse` reads back exactly. */
  function Stringify(state: Envelope): (raw: Raw)
    ensures Parse(raw) == Some(state)
  {
    Json(state)
  }

  /** `parse`: `None` stands for the exception `JSON.parse` raises on text
      that is not well-formed. */
  function Parse(raw: Raw): Option<Envelope> {
    match raw
    case Json(state) => Some(state)
    case Malformed(_) => None
  }

  // ----- generateUUID -----

  const HexDigits: string := "0123456789abcdef"

  /** `n.toString(16)` for one nibble: a lower-case hex digit. */
  function HexDigit(n: int): char
    requires 0 <= n < 16
  {
    HexDigits[n]
  }

  /** The value of a lower-case hex digit; -1 for any other character. */
  function HexValue(c: char): int {
    if '0' <= c <= '9' then c as int - '0' as int
    else if 'a' <= c <= 'f' then c as int - 'a' as int + 10
    else -1
  }

  lemma HexDigitValue(n: int)
    requires 0 <= n < 16
    ensures HexValue(HexDigit(n)) == n && HexDigit(n) != '-'
  {
  }

  /** The 32 draws of `(Math.random() * 16) | 0`, one per loop step. */
  predicate ValidDraws(draws: seq<int>) {
    |draws| == 32 && forall i :: 0 <= i < |draws| ==> 0 <= draws[i] < 16
  }

  /** Steps before which a hyphen is written. */
  predicate IsBreak(i: int) {
    i == 8 || i == 12 || i == 16 || i == 20
  }

  /** Indices of the finished id that hold a hyphen. */
  predicate IsHyphenIndex(k: int) {
    k == 8 || k == 13 || k == 18 || k == 23
  }

  /** The nibble written at step `i` given its draw `r`: step 12 writes the
      version 4 and ignores its draw; step 16 keeps the low two bits of its
      draw and sets the variant bits `10`, i.e. `(r & 3) | 8`. */
  function NibbleAt(i: int, r: int): (v: int)
    requires 0 <= r < 16
    ensures 0 <= v < 16
  {
    if i == 12 then 4
    else if i == 16 then (((r as bv4) & 3) | 8) as int
    else r
  }

  /** The text after the first `i` steps of the loop. */
  function UuidPrefix(draws: seq<int>, i: nat): string
    requires ValidDraws(draws) && i <= 32
  {
    if i == 0 then ""
    else UuidPrefix(draws, i - 1) + (if IsBreak(i - 1) then "-" else "") + [HexDigit(NibbleAt(i - 1, draws[i - 1]))]
  }

  /** The id `generateUUID` produces from the draws. */
  function UuidText(draws: seq<int>): string
    requires ValidDraws(draws)
  {
    UuidPrefix(draws, 32)
  }

  /** Number of hyphens written up to and including step `i`. */
  function HyphensThrough(i: int): nat {
    (if 8 <= i then 1 else 0) + (if 12 <= i then 1 else 0) + (if 16 <= i then 1 else 0) + (if 20 <= i then 1 else 0)
  }

  /** Index in the id of the digit written at step `i`. */
  function Slot(i: nat): nat {
    i + HyphensThrough(i)
  }

  /** Length of the text after `i` steps. */
  function Width(i: nat): nat {
    if i == 0 then 0 else Slot(i - 1) + 1
  }

  /** The step whose digit sits at index `k`, for a non-hyphen index. */
  function StepOf(k: nat): nat {
    k - (if k > 8 then 1 else 0) - (if k > 13 then 1 else 0) - (if k > 18 then 1 else 0) - (if k > 23 then 1 else 0)
  }

  /** Every non-hyphen index of a 36-character id holds the digit of exactly
      one of the 32 steps. */
  lemma SlotsCover(k: nat)
    requires k < 36 && !IsHyphenIndex(k)
    ensures StepOf(k) < 32 && Slot(StepOf(k)) == k
  {
  }

  /** The shape of the `i`-step prefix: its length, where its hyphens are,
      and which digit each step left. */
  lemma {:induction false} PrefixShape(draws: seq<int>, i: nat)
    requires ValidDraws(draws) && i <= 32
    ensures |UuidPrefix(draws, i)| == Width(i)
    ensures forall k :: 0 <= k < |UuidPrefix(draws, i)| ==> (UuidPrefix(draws, i)[k] == '-' <==> IsHyphenIndex(k))
    ensures forall j :: 0 <= j < i ==> UuidPrefix(draws, i)[Slot(j)] == HexDigit(NibbleAt(j, draws[j]))
  {
    if i > 0 {
      PrefixShape(draws, i - 1);
      var s := UuidPrefix(draws, i - 1);
      var t := UuidPrefix(draws, i);
      var d := HexDigit(NibbleAt(i - 1, draws[i - 1]));
      HexDigitValue(NibbleAt(i - 1, draws[i - 1]));
      if IsBreak(i - 1) {
        assert t == s + "-" + [d];
      } else {
        assert t == s + [d];
      }
      assert t[Slot(i - 1)] == d;
      forall j | 0 <= j < i - 1
        ensures t[Slot(j)] == HexDigit(NibbleAt(j, draws[j]))
      {
        assert Slot(j) < |s|;
        assert t[Slot(j)] == s[Slot(j)];
      }
    }
  }

  /** The version-4 layout of section 4.4 of RFC 4122: 36 characters, hyphens
      exactly at 8, 13, 18 and 23, the version nibble `4` at 14 and one of the
      variant digits `8`, `9`, `a`, `b` at 19. */
  ghost predicate UuidShape(s: string) {
    && |s| == 36
    && (forall k :: 0 <= k < 36 ==> (s[k] == '-' <==> IsHyphenIndex(k)))
    && s[14] == '4'
    && s[19] in "89ab"
  }

  lemma UuidTextShape(draws: seq<int>)
    requires ValidDraws(draws)
    ensures UuidShape(UuidText(draws))
    ensures forall j :: 0 <= j < 32 && j != 12 && j != 16 ==> UuidText(draws)[Slot(j)] == HexDigit(draws[j])
    ensures UuidText(draws)[19] == HexDigit(draws[16] % 4 + 8)
  {
    PrefixShape(draws, 32);
    var u := UuidText(draws);
    assert u[Slot(12)] == HexDigit(4);
    assert u[Slot(16)] == HexDigit(NibbleAt(16, draws[16]));
    var r := draws[16] as bv4;
    assert ((r & 3) | 8) as int == draws[16] % 4 + 8 by {
      assert r & 3 == r % 4;
      assert (r & 3) | 8 == (r & 3) + 8;
    }
  }

  /** `generateUUID`: the loop appends one digit per step, preceded by a
      hyphen at steps 8, 12, 16 and 20. Digits other than the version and
      variant ones are those of the draws, which the id gives back. */
  method GenerateUuid(draws: seq<int>) returns (uuid: string)
    requires ValidDraws(draws)
    ensures uuid == UuidText(draws)
    ensures UuidShape(uuid)
    ensures forall j :: 0 <= j < 32 && j != 12 && j != 16 ==> HexValue(uuid[Slot(j)]) == draws[j]
    ensures HexValue(uuid[19]) == draws[16] % 4 + 8
  {
    uuid := "";
    var random := 0;
    var i := 0;
    while i < 32
      invariant 0 <= i <= 32
      invariant uuid == UuidPrefix(draws, i)
    {
      random := draws[i];
      if i == 8 || i == 12 || i == 16 || i == 20 {
        uuid := uuid + "-";
      }
      uuid := uuid + [HexDigit(NibbleAt(i, random))];
      i := i + 1;
    }
    UuidTextShape(draws);
    forall j | 0 <= j < 32 && j != 12 && j != 16
      ensures HexValue(uuid[Slot(j)]) == draws[j]
    {
      HexDigitValue(draws[j]);
    }
    HexDigitValue(draws[16] % 4 + 8);
  }
}
