/** Temporary validation codes and QR tokens (src/App.jsx:18, 54, 111).

    `generateCode` renders an integer in [100000, 999999] as its decimal string; a QR token
    is `QR-<id>-<instant>`. Decimal rendering is written out here together with its inverse,
    so that "exactly six digits" and "distinct tokens" are proved rather than assumed. */
module Codes {

  predicate IsDigit(c: char) {
    '0' <= c <= '9'
  }

  predicate AllDigits(s: string) {
    forall i :: 0 <= i < |s| ==> IsDigit(s[i])
  }

  function DigitChar(d: nat): (c: char)
    requires d < 10
    ensures IsDigit(c)
  {
    "0123456789"[d]
  }

  function DigitValue(c: char): (d: nat)
    requires IsDigit(c)
    ensures d < 10
  {
    c as int - '0' as int
  }

  lemma DigitRoundTrip(d: nat)
    requires d < 10
    ensures DigitValue(DigitChar(d)) == d
  {
  }

  /** `Number.prototype.toString()` for a non-negative integer: no sign, no leading zero. */
  function NatToString(n: nat): (s: string)
    ensures 1 <= |s|
    ensures AllDigits(s)
    decreases n
  {
    if n < 10 then [DigitChar(n)] else NatToString(n / 10) + [DigitChar(n % 10)]
  }

  /** The value of a string of decimal digits (most significant first). */
  function DecimalValue(s: string): nat
    requires AllDigits(s)
  {
    if s == [] then 0 else 10 * DecimalValue(s[..|s| - 1]) + DigitValue(s[|s| - 1])
  }

  /** Decimal rendering and parsing are inverse: the rendering loses nothing. */
  lemma {:induction false} DecimalRoundTrip(n: nat)
    ensures DecimalValue(NatToString(n)) == n
  {
    var s := NatToString(n);
    if n < 10 {
      DigitRoundTrip(n);
    } else {
      DecimalRoundTrip(n / 10);
      assert s[..|s| - 1] == NatToString(n / 10);
      DigitRoundTrip(n % 10);
    }
  }

  /** Rendering is injective: different instants give different strings. */
  lemma NatToStringInjective(a: nat, b: nat)
    requires NatToString(a) == NatToString(b)
    ensures a == b
  {
    DecimalRoundTrip(a);
    DecimalRoundTrip(b);
  }

  function Pow10(k: nat): (p: nat)
    ensures p >= 1
  {
    if k == 0 then 1 else 10 * Pow10(k - 1)
  }

  /** A number with k + 1 significant digits renders as exactly k + 1 characters. */
  lemma {:induction false} NatToStringLength(n: nat, k: nat)
    requires Pow10(k) <= n < Pow10(k + 1)
    ensures |NatToString(n)| == k + 1
  {
    if k > 0 {
      assert Pow10(k) == 10 * Pow10(k - 1);
      assert Pow10(k + 1) == 10 * Pow10(k);
      NatToStringLength(n / 10, k - 1);
    }
  }

  const CodeMin: nat := 100000
  const CodeMax: nat := 999999

  /** What a validation code is: six decimal digits whose value lies in the generator's range. */
  predicate IsSixDigitCode(s: string) {
    |s| == 6 && AllDigits(s) && CodeMin <= DecimalValue(s) <= CodeMax
  }

  /** Every integer `generateCode` can draw renders as a six-digit code that reads back as itself. */
  lemma CodeOfDraw(n: nat)
    requires CodeMin <= n <= CodeMax
    ensures IsSixDigitCode(NatToString(n))
    ensures DecimalValue(NatToString(n)) == n
  {
    assert Pow10(6) == 1000000 && Pow10(5) == 100000;
    NatToStringLength(n, 5);
    DecimalRoundTrip(n);
  }

  /** `generateCode`: `Math.floor(100000 + Math.random() * 900000).toString()`, with the random
      draw as a nondeterministic choice of an integer in [100000, 999999]. */
  method GenerateCode() returns (code: string)
    ensures IsSixDigitCode(code)
  {
    var n: nat :| CodeMin <= n <= CodeMax;
    CodeOfDraw(n);
    code := NatToString(n);
  }

  /** One fresh draw of `generateCode` per record of a list of `count` records (the list-wide
      `prev.map(...)` calls `generateCode` once for each record it rewrites). */
  method DrawCodes(count: nat) returns (codes: seq<string>)
    ensures |codes| == count
    ensures forall i :: 0 <= i < count ==> IsSixDigitCode(codes[i])
  {
    codes := [];
    while |codes| < count
      invariant |codes| <= count
      invariant forall i :: 0 <= i < |codes| ==> IsSixDigitCode(codes[i])
    {
      var c := GenerateCode();
      codes := codes + [c];
    }
  }

  /** The QR token issued on approval and on seeding: `QR-${id}-${Date.now()}`. */
  function QrToken(id: string, now: nat): (t: string)
    ensures |t| == 4 + |id| + |NatToString(now)|
    ensures t[..3 + |id|] == "QR-" + id && t[3 + |id|] == '-'
    ensures t[3 + |id| + 1..] == NatToString(now) && AllDigits(t[3 + |id| + 1..])
  {
    "QR-" + id + "-" + NatToString(now)
  }

  /** In `x + "-" + y` the dash sits at |x| and the characters after it are those of y. */
  lemma DashThenDigits(x: string, y: string, k: int)
    ensures (x + "-" + y)[|x|] == '-'
    ensures AllDigits(y) && 0 <= k < |y| ==> (x + "-" + y)[|x| + 1 + k] == y[k] != '-'
  {
  }

  /** Splitting `a + "-" + d` at its last dash: a digit suffix (which holds no dash)
      determines both halves. */
  lemma {:induction false} SplitAtLastDash(a: string, d: string, b: string, e: string)
    requires AllDigits(d) && AllDigits(e)
    requires a + "-" + d == b + "-" + e
    ensures a == b && d == e
  {
    var s := a + "-" + d;
    if |d| < |e| {
      DashThenDigits(a, d, 0);
      DashThenDigits(b, e, |e| - |d| - 1);
      assert false;
    } else if |e| < |d| {
      DashThenDigits(a, d, |d| - |e| - 1);
      DashThenDigits(b, e, 0);
      assert false;
    } else {
      assert d == s[|s| - |d|..];
      assert e == s[|s| - |d|..];
      assert a == s[..|a|];
      assert b == s[..|a|];
    }
  }

  /** Two QR tokens are equal only when they were issued for the same visit id at the same
      instant: a token names one issuance. */
  lemma QrTokenInjective(id1: string, t1: nat, id2: string, t2: nat)
    requires QrToken(id1, t1) == QrToken(id2, t2)
    ensures id1 == id2 && t1 == t2
  {
    assert QrToken(id1, t1) == ("QR-" + id1) + "-" + NatToString(t1);
    assert QrToken(id2, t2) == ("QR-" + id2) + "-" + NatToString(t2);
    SplitAtLastDash("QR-" + id1, NatToString(t1), "QR-" + id2, NatToString(t2));
    assert id1 == ("QR-" + id1)[3..];
    assert id2 == ("QR-" + id2)[3..];
    NatToStringInjective(t1, t2);
  }
}
