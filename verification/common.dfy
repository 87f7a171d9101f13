/** Shared vocabulary for the edge-function models: optional values, error
    results, the `Math.min`/`Math.max`/`Math.abs` arithmetic of the handlers,
    `Number.prototype.toFixed(2)`, and the ASCII part of `toLowerCase` and
    `String.prototype.includes`. */
module Common {

  /** A value that may be missing (`undefined`/`null` in the handlers). */
  datatype Option<+T> = None | Some(value: T)

  /** The outcome of a handler step that can throw: `Err` carries the message. */
  datatype Result<+T> = Ok(value: T) | Err(message: string)

  /** One row of the `market_data` table (an OHLCV bar). */
  datatype Bar = Bar(timestamp: string, open: real, high: real, low: real, close: real, volume: real)

  function Abs(x: real): (r: real)
    ensures r >= 0.0
    ensures r == x || r == -x
  {
    if x < 0.0 then -x else x
  }

  function Min(a: real, b: real): (r: real)
    ensures r <= a && r <= b
    ensures r == a || r == b
  {
    if a <= b then a else b
  }

  function Max(a: real, b: real): (r: real)
    ensures r >= a && r >= b
    ensures r == a || r == b
  {
    if a >= b then a else b
  }

  /** `Math.min(Math.max(x, lo), hi)`: the result lies in [lo, hi] and is `x`
      itself whenever `x` already does. */
  function Clamp(x: real, lo: real, hi: real): (r: real)
    requires lo <= hi
    ensures lo <= r <= hi
    ensures lo <= x <= hi ==> r == x
    ensures x < lo ==> r == lo
    ensures x > hi ==> r == hi
  {
    Min(Max(x, lo), hi)
  }

  /** The largest element of a non-empty sequence (`Math.max(...xs)`). */
  function MaxOf(xs: seq<real>): (r: real)
    requires |xs| > 0
    ensures r in xs
    ensures forall i :: 0 <= i < |xs| ==> xs[i] <= r
  {
    if |xs| == 1 then xs[0] else Max(xs[0], MaxOf(xs[1..]))
  }

  /** The smallest element of a non-empty sequence (`Math.min(...xs)`). */
  function MinOf(xs: seq<real>): (r: real)
    requires |xs| > 0
    ensures r in xs
    ensures forall i :: 0 <= i < |xs| ==> r <= xs[i]
  {
    if |xs| == 1 then xs[0] else Min(xs[0], MinOf(xs[1..]))
  }

  function Closes(bars: seq<Bar>): (xs: seq<real>)
    ensures |xs| == |bars| && forall i :: 0 <= i < |bars| ==> xs[i] == bars[i].close
  {
    seq(|bars|, i requires 0 <= i < |bars| => bars[i].close)
  }

  function Lows(bars: seq<Bar>): (xs: seq<real>)
    ensures |xs| == |bars| && forall i :: 0 <= i < |bars| ==> xs[i] == bars[i].low
  {
    seq(|bars|, i requires 0 <= i < |bars| => bars[i].low)
  }

  function Highs(bars: seq<Bar>): (xs: seq<real>)
    ensures |xs| == |bars| && forall i :: 0 <= i < |bars| ==> xs[i] == bars[i].high
  {
    seq(|bars|, i requires 0 <= i < |bars| => bars[i].high)
  }

  function Volumes(bars: seq<Bar>): (xs: seq<real>)
    ensures |xs| == |bars| && forall i :: 0 <= i < |bars| ==> xs[i] == bars[i].volume
  {
    seq(|bars|, i requires 0 <= i < |bars| => bars[i].volume)
  }

  function Pow(x: real, k: nat): real
  {
    if k == 0 then 1.0 else x * Pow(x, k - 1)
  }

  /** `x || d` on a number: 0 is falsy, so it gives way to the default. */
  function OrDefault(x: real, d: real): (r: real)
    ensures x != 0.0 ==> r == x
    ensures x == 0.0 ==> r == d
  {
    if x == 0.0 then d else x
  }

  /** How many of the values are strictly positive: the trades that made a
      profit. */
  function CountPositive(xs: seq<real>): (n: nat)
    ensures n <= |xs|
  {
    if |xs| == 0 then 0 else (if xs[0] > 0.0 then 1 else 0) + CountPositive(xs[1..])
  }

  function Sum(xs: seq<real>): real
  {
    if |xs| == 0 then 0.0 else xs[0] + Sum(xs[1..])
  }

  lemma {:induction false} SumAppend(xs: seq<real>, ys: seq<real>)
    ensures Sum(xs + ys) == Sum(xs) + Sum(ys)
  {
    if |xs| == 0 {
      assert xs + ys == ys;
    } else {
      assert (xs + ys)[1..] == xs[1..] + ys;
      SumAppend(xs[1..], ys);
    }
  }

  /** A sum of positive numbers is positive. */
  lemma {:induction false} SumPositive(xs: seq<real>)
    requires |xs| > 0 && forall i :: 0 <= i < |xs| ==> xs[i] > 0.0
    ensures Sum(xs) > 0.0
  {
    if |xs| > 1 {
      SumPositive(xs[1..]);
    }
  }

  /** `Number(x.toFixed(2))` on the exact value: the nearest multiple of 0.01,
      ties away from zero (toFixed formats the magnitude and prefixes the sign). */
  function RoundCents(x: real): (r: real)
    ensures x >= 0.0 ==> r >= 0.0
    ensures Abs(r - x) <= 0.005
  {
    if x < 0.0 then -RoundCentsNonNeg(-x) else RoundCentsNonNeg(x)
  }

  function RoundCentsNonNeg(x: real): (r: real)
    requires x >= 0.0
    ensures r >= 0.0
    ensures x - 0.005 < r <= x + 0.005
  {
    var n := (x * 100.0 + 0.5).Floor;
    assert n as real <= x * 100.0 + 0.5 < n as real + 1.0;
    n as real / 100.0
  }

  /** Rounding to cents never carries a value past a bound that is itself a
      whole number of cents. */
  lemma RoundCentsBelow(x: real, n: int)
    requires 0.0 <= x <= n as real / 100.0
    ensures RoundCents(x) <= n as real / 100.0
  {
    var f := (x * 100.0 + 0.5).Floor;
    assert f as real <= x * 100.0 + 0.5 <= n as real + 0.5;
    assert f <= n;
  }

  lemma RoundCentsAbove(x: real, n: int)
    requires x >= n as real / 100.0 && n >= 0
    ensures RoundCents(x) >= n as real / 100.0
  {
    var f := (x * 100.0 + 0.5).Floor;
    assert x * 100.0 + 0.5 >= n as real + 0.5;
    assert f >= n;
  }

  // ---------------------------------------------------------------------
  // ASCII text helpers

  function LowerChar(c: char): char
  {
    if 'A' <= c <= 'Z' then (c as int + 32) as char else c
  }

  /** `toLowerCase` restricted to the ASCII letters. */
  function Lower(s: string): (r: string)
    ensures |r| == |s|
    ensures forall i :: 0 <= i < |s| ==> r[i] == LowerChar(s[i])
  {
    if |s| == 0 then [] else [LowerChar(s[0])] + Lower(s[1..])
  }

  /** Two strings that differ at most in the case of ASCII letters. */
  predicate SameIgnoringCase(a: string, b: string)
  {
    |a| == |b| && forall i :: 0 <= i < |a| ==> LowerChar(a[i]) == LowerChar(b[i])
  }

  lemma SameIgnoringCaseLower(a: string, b: string)
    requires SameIgnoringCase(a, b)
    ensures Lower(a) == Lower(b)
  {
  }

  lemma LowerIdempotent(s: string)
    ensures Lower(Lower(s)) == Lower(s)
  {
  }

  /** `sub` occurs in `s` starting at index `i`. */
  predicate OccursAt(s: string, sub: string, i: nat)
  {
    i + |sub| <= |s| && s[i..i + |sub|] == sub
  }

  /** `s.includes(sub)`, scanning left to right. */
  function Contains(s: string, sub: string): bool
    decreases |s|
  {
    if |sub| > |s| then false
    else if s[..|sub|] == sub then true
    else Contains(s[1..], sub)
  }

  /** The scan finds `sub` exactly when some position of `s` starts it. */
  lemma {:induction false} ContainsIff(s: string, sub: string)
    ensures Contains(s, sub) <==> exists i: nat :: OccursAt(s, sub, i)
    decreases |s|
  {
    if |sub| > |s| {
      assert forall i: nat :: !OccursAt(s, sub, i);
    } else if s[..|sub|] == sub {
      assert OccursAt(s, sub, 0);
    } else {
      ContainsIff(s[1..], sub);
      if Contains(s[1..], sub) {
        var i: nat :| OccursAt(s[1..], sub, i);
        assert s[i + 1..i + 1 + |sub|] == s[1..][i..i + |sub|];
        assert OccursAt(s, sub, i + 1);
      } else {
        forall i: nat | OccursAt(s, sub, i)
          ensures false
        {
          if i > 0 {
            assert s[1..][i - 1..i - 1 + |sub|] == s[i..i + |sub|];
            assert OccursAt(s[1..], sub, i - 1);
          }
        }
      }
    }
  }

  function ContainsAny(s: string, words: seq<string>): bool
  {
    if |words| == 0 then false else Contains(s, words[0]) || ContainsAny(s, words[1..])
  }

  /** `words.some(w => s.includes(w))`. */
  lemma {:induction false} ContainsAnyIff(s: string, words: seq<string>)
    ensures ContainsAny(s, words) <==> exists k :: 0 <= k < |words| && Contains(s, words[k])
  {
    if |words| > 0 {
      ContainsAnyIff(s, words[1..]);
      if ContainsAny(s, words[1..]) {
        var k :| 0 <= k < |words[1..]| && Contains(s, words[1..][k]);
        assert Contains(s, words[k + 1]);
      }
      if exists k :: 0 <= k < |words| && Contains(s, words[k]) {
        var k :| 0 <= k < |words| && Contains(s, words[k]);
        if k > 0 {
          assert words[1..][k - 1] == words[k];
        }
      }
    }
  }

  /** `(s.match(new RegExp(w, 'g')) || []).length` for a literal word: the
      number of non-overlapping occurrences found scanning left to right. */
  function CountOccurrences(s: string, w: string): (n: nat)
    requires |w| > 0
    ensures n * |w| <= |s|
    ensures n == 0 <==> !Contains(s, w)
    decreases |s|
  {
    if |w| > |s| then 0
    else if s[..|w|] == w then 1 + CountOccurrences(s[|w|..], w)
    else CountOccurrences(s[1..], w)
  }

  /** Decimal digits of a natural number, as `String(n)` prints it. */
  function NatToString(n: nat): (s: string)
    ensures |s| > 0
    ensures forall i :: 0 <= i < |s| ==> '0' <= s[i] <= '9'
    decreases n
  {
    if n < 10 then [DigitChar(n)] else NatToString(n / 10) + [DigitChar(n % 10)]
  }

  function DigitChar(d: nat): (c: char)
    requires d < 10
    ensures '0' <= c <= '9'
  {
    ('0' as int + d) as char
  }
}
