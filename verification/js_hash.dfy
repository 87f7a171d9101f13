/** The 32-bit string hash of the model trainer (`generateModelHash` and
    `generateDataHash`): `hash = ((hash << 5) - hash) + charCode` folded over the
    UTF-16 code units of a string, truncated to a signed 32-bit integer after
    every step, and printed as the hexadecimal digits of its absolute value. */
module JsHash {
  import opened Common

  const TWO32: int := 0x1_0000_0000
  const TWO31: int := 0x8000_0000

  /** A UTF-16 code unit, what `charCodeAt` returns. */
  type CodeUnit = c: int | 0 <= c < 0x10000

  predicate IsInt32(x: int)
  {
    -TWO31 <= x < TWO31
  }

  /** ECMAScript ToInt32 on an integral number: the representative of `x`
      modulo 2^32 in [-2^31, 2^31). */
  function ToInt32(x: int): (r: int)
    ensures IsInt32(r)
    ensures (r - x) % TWO32 == 0
    ensures IsInt32(x) ==> r == x
  {
    var m := x % TWO32;
    if m >= TWO31 then m - TWO32 else m
  }

  /** ToInt32 only depends on its argument modulo 2^32. */
  lemma ToInt32Congruent(x: int, y: int)
    requires (x - y) % TWO32 == 0
    ensures ToInt32(x) == ToInt32(y)
  {
    var k := (x - y) / TWO32;
    assert x == y + k * TWO32;
    ModShift(y, k);
  }

  lemma ModShift(y: int, k: int)
    ensures (y + k * TWO32) % TWO32 == y % TWO32
  {
  }

  /** One loop iteration as the source writes it: `hash << 5` truncates the
      shifted value to 32 bits, the subtraction and addition are exact, and
      `hash & hash` truncates the sum again. */
  function StepAsWritten(h: int, c: CodeUnit): (r: int)
    requires IsInt32(h)
    ensures IsInt32(r)
  {
    ToInt32(ToInt32(h * 32) - h + c)
  }

  /** The iteration is the familiar multiply-by-31 step modulo 2^32. */
  lemma StepIsTimes31(h: int, c: CodeUnit)
    requires IsInt32(h)
    ensures StepAsWritten(h, c) == ToInt32(31 * h + c)
  {
    var s := ToInt32(h * 32);
    assert (s - h * 32) % TWO32 == 0;
    assert (s - h + c) - (31 * h + c) == s - h * 32;
    ToInt32Congruent(s - h + c, 31 * h + c);
  }

  /** The hash accumulator after the code units `u`, starting from 0. */
  function Fold(u: seq<CodeUnit>): (h: int)
    ensures IsInt32(h)
  {
    if |u| == 0 then 0 else StepAsWritten(Fold(u[..|u| - 1]), u[|u| - 1])
  }

  /** The polynomial the hash approximates, without any truncation:
      sum of u[i] * 31^(|u|-1-i). */
  function Poly(u: seq<CodeUnit>): int
  {
    if |u| == 0 then 0 else 31 * Poly(u[..|u| - 1]) + u[|u| - 1]
  }

  /** Congruence modulo 2^32 survives one hash step. */
  lemma StepCongruent(h: int, p: int, c: int)
    requires (h - p) % TWO32 == 0
    ensures ((31 * h + c) - (31 * p + c)) % TWO32 == 0
  {
    var k := (h - p) / TWO32;
    assert h - p == k * TWO32;
    assert (31 * h + c) - (31 * p + c) == (31 * k) * TWO32;
    ModShift(0, 31 * k);
  }

  /** Truncating after every step gives the same value as truncating once at
      the end, so the accumulator is the polynomial hash modulo 2^32. */
  lemma {:induction false} FoldIsPolyMod(u: seq<CodeUnit>)
    ensures Fold(u) == ToInt32(Poly(u))
  {
    if |u| > 0 {
      var p := u[..|u| - 1];
      var c := u[|u| - 1];
      FoldIsPolyMod(p);
      var h := Fold(p);
      StepIsTimes31(h, c);
      StepCongruent(h, Poly(p), c);
      ToInt32Congruent(31 * h + c, 31 * Poly(p) + c);
    }
  }

  /** `Math.abs` of a 32-bit value, which is at most 2^31. */
  function AbsInt32(h: int): (n: nat)
    requires IsInt32(h)
    ensures n <= TWO31
    ensures n == h || n == -h
  {
    if h < 0 then -h else h
  }

  function HexDigit(d: nat): (c: char)
    requires d < 16
  {
    "0123456789abcdef"[d]
  }

  predicate IsHexDigit(c: char)
  {
    '0' <= c <= '9' || 'a' <= c <= 'f'
  }

  function HexValue(c: char): (d: nat)
    requires IsHexDigit(c)
    ensures d < 16
  {
    if '0' <= c <= '9' then c as int - '0' as int else c as int - 'a' as int + 10
  }

  /** `n.toString(16)` for a natural number: lower-case digits, no leading
      zero, "0" for zero. */
  function Hex(n: nat): (s: string)
    ensures |s| > 0
    ensures forall i :: 0 <= i < |s| ==> IsHexDigit(s[i])
    decreases n
  {
    if n < 16 then [HexDigit(n)] else Hex(n / 16) + [HexDigit(n % 16)]
  }

  /** Reads lower-case hexadecimal digits back into a number. */
  function ParseHex(s: string): nat
    requires forall i :: 0 <= i < |s| ==> IsHexDigit(s[i])
  {
    if |s| == 0 then 0 else 16 * ParseHex(s[..|s| - 1]) + HexValue(s[|s| - 1])
  }

  /** The printed digits denote the number printed. */
  lemma {:induction false} ParseHexOfHex(n: nat)
    ensures ParseHex(Hex(n)) == n
    decreases n
  {
    var s := Hex(n);
    if n >= 16 {
      ParseHexOfHex(n / 16);
      assert s[..|s| - 1] == Hex(n / 16);
    }
  }

  /** No leading zero: only the number zero prints as a string starting with '0'. */
  lemma {:induction false} HexNoLeadingZero(n: nat)
    ensures Hex(n)[0] == '0' <==> n == 0
    decreases n
  {
    if n >= 16 {
      HexNoLeadingZero(n / 16);
      assert Hex(n)[0] == Hex(n / 16)[0];
    }
  }

  /** A number below 16^k prints in at most k digits. */
  lemma {:induction false} HexLength(n: nat, k: nat, bound: nat)
    requires k >= 1 && bound == Pow16(k) && n < bound
    ensures |Hex(n)| <= k
    decreases n
  {
    if n >= 16 {
      assert Pow16(1) == 16;
      assert k >= 2;
      HexLength(n / 16, k - 1, Pow16(k - 1));
    }
  }

  function Pow16(k: nat): (p: nat)
    ensures p >= 1
  {
    if k == 0 then 1 else 16 * Pow16(k - 1)
  }

  /** The string hash: hex digits of the absolute value of the accumulator. */
  function HashCodeUnits(u: seq<CodeUnit>): (s: string)
    ensures |u| == 0 ==> s == "0"
    ensures '-' !in s
    ensures |s| <= 8
    ensures forall i :: 0 <= i < |s| ==> IsHexDigit(s[i])
    ensures ParseHex(s) == AbsInt32(ToInt32(Poly(u)))
  {
    var s := Hex(AbsInt32(Fold(u)));
    FoldIsPolyMod(u);
    ParseHexOfHex(AbsInt32(Fold(u)));
    assert Pow16(8) == TWO32;
    HexLength(AbsInt32(Fold(u)), 8, Pow16(8));
    s
  }

  /** The UTF-16 encoding of a string, unit by unit as `charCodeAt` sees it:
      characters outside the Basic Multilingual Plane become surrogate pairs. */
  function Utf16(s: string): (u: seq<CodeUnit>)
    ensures |u| >= |s|
    ensures (forall i :: 0 <= i < |s| ==> (s[i] as int) < 0x10000) ==> |u| == |s|
  {
    if |s| == 0 then []
    else
      var c := s[0] as int;
      var head: seq<CodeUnit> :=
        if c < 0x10000 then [c]
        else [0xD800 + (c - 0x10000) / 0x400, 0xDC00 + (c - 0x10000) % 0x400];
      head + Utf16(s[1..])
  }

  /** `generateModelHash`: the hash of the JSON text of the weights. The JSON
      serialisation of floating-point numbers is not modelled; the caller supplies
      the text. */
  function ModelHash(weightsJson: string): (s: string)
    ensures weightsJson == "" ==> s == "0"
    ensures '-' !in s && 0 < |s| <= 8
  {
    HashCodeUnits(Utf16(weightsJson))
  }

  /** The key `generateDataHash` hashes: `${n}_${first}_${last}`, where a
      missing bar prints as "undefined". */
  function DataHashKey(count: nat, firstTimestamp: Option<string>, lastTimestamp: Option<string>): string
  {
    NatToString(count) + "_" + OrUndefined(firstTimestamp) + "_" + OrUndefined(lastTimestamp)
  }

  function OrUndefined(s: Option<string>): string
  {
    match s
    case Some(t) => t
    case None => "undefined"
  }

  /** `generateDataHash` over bars given by their timestamps, oldest first. */
  function DataHash(timestamps: seq<string>): (s: string)
    ensures '-' !in s && 0 < |s| <= 8
    ensures forall i :: 0 <= i < |s| ==> IsHexDigit(s[i])
    ensures ParseHex(s) == AbsInt32(ToInt32(Poly(Utf16(DataHashKey(
              |timestamps|,
              if |timestamps| == 0 then None else Some(timestamps[0]),
              if |timestamps| == 0 then None else Some(timestamps[|timestamps| - 1]))))))
  {
    var first := if |timestamps| == 0 then None else Some(timestamps[0]);
    var last := if |timestamps| == 0 then None else Some(timestamps[|timestamps| - 1]);
    HashCodeUnits(Utf16(DataHashKey(|timestamps|, first, last)))
  }

  /** With no bars the key is "0_undefined_undefined". */
  lemma DataHashKeyEmpty()
    ensures DataHashKey(0, None, None) == "0_undefined_undefined"
  {
  }
}
