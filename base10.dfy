/** Decimal digit strings: how a u64 is printed, and the number a digit string denotes. */
module Base10 {
  import opened Arith

  function Pow10(n: nat): (r: nat)
    ensures r >= 1
  {
    if n == 0 then 1 else 10 * Pow10(n - 1)
  }

  predicate IsDigit(c: char) { '0' <= c <= '9' }

  predicate IsDigits(s: seq<char>) { forall i :: 0 <= i < |s| ==> IsDigit(s[i]) }

  function DigitChar(x: nat): (c: char)
    requires x < 10
    ensures IsDigit(c) && DigitValue(c) == x
  {
    "0123456789"[x]
  }

  function DigitValue(c: char): nat
    requires IsDigit(c)
  {
    c as int - '0' as int
  }

  /** The number a digit string denotes, most significant digit first; the empty string is 0. */
  function DigitsValue(s: seq<char>): nat
    requires IsDigits(s)
  {
    if s == [] then 0 else DigitsValue(s[..|s| - 1]) * 10 + DigitValue(s[|s| - 1])
  }

  /** `n` in decimal with no leading zero ("0" for zero), as `{}` prints a u64. */
  function Decimal(n: nat): (s: seq<char>)
    ensures |s| >= 1 && IsDigits(s) && DigitsValue(s) == n
    ensures n > 0 ==> s[0] != '0'
  {
    if n < 10 then [DigitChar(n)]
    else
      var prefix := Decimal(n / 10);
      var s := prefix + [DigitChar(n % 10)];
      assert s[..|s| - 1] == prefix;
      s
  }

  function Zeros(k: nat): (s: seq<char>)
    ensures |s| == k && forall i :: 0 <= i < k ==> s[i] == '0'
  {
    seq(k, _ => '0')
  }

  /** `n` in decimal, left-padded with '0' to at least `width` characters, as
      `{:0width$}` prints a u64. */
  function ZeroPadded(n: nat, width: nat): (s: seq<char>)
  {
    var digits := Decimal(n);
    if |digits| >= width then digits else Zeros(width - |digits|) + digits
  }

  /** `s` with every trailing `c` removed, as `trim_end_matches(c)` does. */
  function TrimEnd(s: seq<char>, c: char): (r: seq<char>)
    ensures |r| <= |s| && r == s[..|r|]
    ensures r == [] || r[|r| - 1] != c
    ensures forall i :: |r| <= i < |s| ==> s[i] == c
  {
    if s != [] && s[|s| - 1] == c then TrimEnd(s[..|s| - 1], c) else s
  }

  // ----- Lemmas -----

  lemma {:induction false} DigitsValueAppend(a: seq<char>, b: seq<char>)
    requires IsDigits(a) && IsDigits(b)
    ensures IsDigits(a + b)
    ensures DigitsValue(a + b) == DigitsValue(a) * Pow10(|b|) + DigitsValue(b)
    decreases |b|
  {
    if b != [] {
      var b' := b[..|b| - 1];
      var d := DigitValue(b[|b| - 1]);
      assert (a + b)[..|a + b| - 1] == a + b';
      DigitsValueAppend(a, b');
      var x, p, y := DigitsValue(a), Pow10(|b'|), DigitsValue(b');
      assert DigitsValue(a + b') == x * p + y;
      assert DigitsValue(a + b) == (x * p + y) * 10 + d;
      assert DigitsValue(b) == y * 10 + d;
      assert Pow10(|b|) == p * 10;
      MulDistributes(x, p, y, 10);
    } else {
      assert a + b == a;
    }
  }

  lemma {:induction false} ZerosValue(k: nat)
    ensures IsDigits(Zeros(k)) && DigitsValue(Zeros(k)) == 0
  {
    if k > 0 {
      assert Zeros(k)[..k - 1] == Zeros(k - 1);
      ZerosValue(k - 1);
    }
  }

  /** Padding on the left does not change the value; on the right it scales it. */
  lemma ZeroPaddingValue(s: seq<char>, k: nat)
    requires IsDigits(s)
    ensures IsDigits(Zeros(k) + s) && DigitsValue(Zeros(k) + s) == DigitsValue(s)
    ensures IsDigits(s + Zeros(k)) && DigitsValue(s + Zeros(k)) == DigitsValue(s) * Pow10(k)
  {
    ZerosValue(k);
    DigitsValueAppend(Zeros(k), s);
    DigitsValueAppend(s, Zeros(k));
  }

  /** The padded form denotes `n`, has at least `width` digits, and has no leading zero
      beyond those the padding adds. */
  lemma ZeroPaddedValue(n: nat, width: nat)
    requires width >= 1
    ensures var s := ZeroPadded(n, width);
            IsDigits(s) && DigitsValue(s) == n && |s| >= width && |s| >= 1
    ensures var s := ZeroPadded(n, width);
            |s| > width ==> s[0] != '0'
  {
    var digits := Decimal(n);
    if |digits| < width {
      ZeroPaddingValue(digits, width - |digits|);
    }
  }

  /** Trimming does not reach past a prefix that does not end in the trimmed character. */
  lemma {:induction false} TrimEndStopsAt(x: seq<char>, f: seq<char>, c: char)
    requires x != [] && x[|x| - 1] != c
    ensures TrimEnd(x + f, c) == x + TrimEnd(f, c)
    decreases |f|
  {
    if f != [] && f[|f| - 1] == c {
      assert (x + f)[..|x + f| - 1] == x + f[..|f| - 1];
      TrimEndStopsAt(x, f[..|f| - 1], c);
    } else if f == [] {
      assert x + f == x;
    }
  }

  /** What trimming removed is a run of `c`. */
  lemma TrimmedZeros(f: seq<char>)
    ensures f == TrimEnd(f, '0') + Zeros(|f| - |TrimEnd(f, '0')|)
  {
    var t := TrimEnd(f, '0');
    assert f == t + f[|t|..];
  }
}
