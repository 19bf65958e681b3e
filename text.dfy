/** Small string toolkit shared by the cartridge and the research engine:
    ASCII lower-casing, substring containment (Python's `in` on strings),
    suffix tests, prefix truncation (`s[:n]`), `sep.join(xs)` and the
    zero-padded decimal rendering used for project ids. */
module Text {

  function Min(a: int, b: int): int { if a <= b then a else b }

  function Max(a: int, b: int): int { if a <= b then b else a }

  /** Lower-case one character; only ASCII letters change. */
  function LowerChar(c: char): char
  {
    if 'A' <= c <= 'Z' then (c as int + 32) as char else c
  }

  /** `s.lower()`, restricted to ASCII letters. */
  function Lower(s: string): (r: string)
    ensures |r| == |s|
    ensures forall i :: 0 <= i < |s| ==> r[i] == LowerChar(s[i])
  {
    if s == [] then [] else [LowerChar(s[0])] + Lower(s[1..])
  }

  /** Lower-casing twice changes nothing more. */
  lemma LowerIdempotent(s: string)
    ensures Lower(Lower(s)) == Lower(s)
  {
  }

  predicate IsPrefix(p: string, s: string)
  {
    |p| <= |s| && s[..|p|] == p
  }

  /** `sub in s`: some position of `s` starts an occurrence of `sub`. */
  predicate Contains(s: string, sub: string)
    decreases |s|
  {
    IsPrefix(sub, s) || (|s| > 0 && Contains(s[1..], sub))
  }

  /** `s.endswith(suffix)` */
  predicate EndsWith(s: string, suffix: string)
  {
    |suffix| <= |s| && s[|s| - |suffix|..] == suffix
  }

  /** `s[:n]` for a non-negative `n`. */
  function Take<T>(s: seq<T>, n: nat): (r: seq<T>)
    ensures |r| == Min(n, |s|)
    ensures r == s[..|r|]
  {
    if |s| <= n then s else s[..n]
  }

  /** `sep.join(xs)` */
  function Join(xs: seq<string>, sep: string): string
  {
    if |xs| == 0 then "" else if |xs| == 1 then xs[0] else xs[0] + sep + Join(xs[1..], sep)
  }

  /** Whatever surrounds an occurrence, the occurrence is found. */
  lemma {:induction false} ContainsInfix(a: string, b: string, c: string)
    ensures Contains(a + b + c, b)
  {
    if a == [] {
      assert a + b + c == b + c;
      assert (b + c)[..|b|] == b;
    } else {
      ContainsInfix(a[1..], b, c);
      assert (a + b + c)[1..] == a[1..] + b + c;
    }
  }

  /** Every joined element occurs in the joined text. */
  lemma {:induction false} JoinContains(xs: seq<string>, sep: string, i: nat)
    requires i < |xs|
    ensures Contains(Join(xs, sep), xs[i])
  {
    if |xs| == 1 {
      ContainsInfix([], xs[0], []);
      assert [] + xs[0] + [] == xs[0];
    } else if i == 0 {
      ContainsInfix([], xs[0], sep + Join(xs[1..], sep));
      assert [] + xs[0] + (sep + Join(xs[1..], sep)) == Join(xs, sep);
    } else {
      JoinContains(xs[1..], sep, i - 1);
      ContainsSuffix(xs[0] + sep, Join(xs[1..], sep), xs[i]);
    }
  }

  lemma {:induction false} ContainsSuffix(a: string, s: string, sub: string)
    requires Contains(s, sub)
    ensures Contains(a + s, sub)
    decreases |a|
  {
    if a == [] {
      assert a + s == s;
    } else {
      ContainsSuffix(a[1..], s, sub);
      assert (a + s)[1..] == a[1..] + s;
    }
  }

  /** Joining one more element adds the separator and the element. */
  lemma {:induction false} JoinAppend(xs: seq<string>, x: string, sep: string)
    requires |xs| > 0
    ensures Join(xs + [x], sep) == Join(xs, sep) + sep + x
    decreases |xs|
  {
    if |xs| == 1 {
      assert xs + [x] == [xs[0], x];
    } else {
      JoinAppend(xs[1..], x, sep);
      assert (xs + [x])[1..] == xs[1..] + [x];
    }
  }

  // ---------------------------------------------------------------------
  // Decimal rendering, as in Python's `f"{n:03d}"` for n >= 0

  predicate IsDigit(c: char) { '0' <= c <= '9' }

  function DigitChar(d: nat): (c: char)
    requires d < 10
    ensures IsDigit(c) && DigitValue(c) == d
  {
    ('0' as int + d) as char
  }

  /** The shortest decimal rendering of `n`. */
  function Digits(n: nat): (r: string)
    ensures |r| >= 1
    ensures forall i :: 0 <= i < |r| ==> IsDigit(r[i])
  {
    if n < 10 then [DigitChar(n)] else Digits(n / 10) + [DigitChar(n % 10)]
  }

  /** Numbers below 1000 need at most three digits. */
  lemma DigitsOfSmall(n: nat)
    ensures n < 1000 ==> |Digits(n)| <= 3
  {
    if 10 <= n < 1000 {
      assert Digits(n) == Digits(n / 10) + [DigitChar(n % 10)];
      if n >= 100 {
        assert Digits(n / 10) == Digits(n / 100) + [DigitChar(n / 10 % 10)];
      }
    }
  }

  /** A positive number's rendering has no leading zero. */
  lemma {:induction false} DigitsLead(n: nat)
    ensures n >= 1 ==> Digits(n)[0] != '0'
  {
    if n >= 10 {
      DigitsLead(n / 10);
      assert Digits(n)[0] == Digits(n / 10)[0];
    }
  }

  /** Numbers from 100 on need at least three digits. */
  lemma DigitsOfLarge(n: nat)
    ensures n >= 100 ==> |Digits(n)| >= 3
  {
    if n >= 100 {
      assert Digits(n) == Digits(n / 10) + [DigitChar(n % 10)];
      assert Digits(n / 10) == Digits(n / 100) + [DigitChar(n / 10 % 10)];
    }
  }

  /** The number a string of decimal digits stands for. */
  function DecimalValue(s: string): nat
    requires forall i :: 0 <= i < |s| ==> IsDigit(s[i])
  {
    if s == [] then 0
    else
      assert IsDigit(s[|s| - 1]);
      DecimalValue(s[..|s| - 1]) * 10 + DigitValue(s[|s| - 1])
  }

  function DigitValue(c: char): nat
    requires IsDigit(c)
  {
    c as int - '0' as int
  }

  function Zeros(k: nat): (r: string)
    ensures |r| == k && forall i :: 0 <= i < k ==> r[i] == '0'
  {
    if k == 0 then [] else Zeros(k - 1) + ['0']
  }

  /** `f"{n:0<width>d}"`: pad with zeros on the left up to `width` digits. */
  function ZeroPadded(n: nat, width: nat): (r: string)
    ensures |r| == Max(width, |Digits(n)|)
    ensures forall i :: 0 <= i < |r| ==> IsDigit(r[i])
  {
    var d := Digits(n);
    if |d| < width then Zeros(width - |d|) + d else d
  }

  /** Reading back the rendering gives the number. */
  lemma {:induction false} DigitsRoundTrip(n: nat)
    ensures DecimalValue(Digits(n)) == n
  {
    if n >= 10 {
      DigitsRoundTrip(n / 10);
      var d := Digits(n);
      assert d[..|d| - 1] == Digits(n / 10);
    }
  }

  /** Leading zeros do not change the value. */
  lemma {:induction false} LeadingZeros(k: nat, s: string)
    requires forall i :: 0 <= i < |s| ==> IsDigit(s[i])
    ensures DecimalValue(Zeros(k) + s) == DecimalValue(s)
    decreases |s|, k
  {
    var z := Zeros(k) + s;
    if s == [] {
      assert z == Zeros(k);
      if k > 0 {
        assert z[..|z| - 1] == Zeros(k - 1) + [];
        LeadingZeros(k - 1, []);
      }
    } else {
      assert z[..|z| - 1] == Zeros(k) + s[..|s| - 1];
      LeadingZeros(k, s[..|s| - 1]);
    }
  }

  /** The zero-padded rendering reads back as the number. */
  lemma ZeroPaddedRoundTrip(n: nat, width: nat)
    ensures DecimalValue(ZeroPadded(n, width)) == n
  {
    DigitsRoundTrip(n);
    var d := Digits(n);
    if |d| < width {
      LeadingZeros(width - |d|, d);
    }
  }
}
