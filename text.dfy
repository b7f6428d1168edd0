/** The JavaScript string operations the application relies on:
    `toLowerCase`, `includes`, `trim` and the decimal `toString` of a
    non-negative integer. */
module Text {

  /** `toLowerCase` on one character, for the ASCII letters. */
  function LowerChar(c: char): char
  {
    if 'A' <= c <= 'Z' then (c as int + 32) as char else c
  }

  function Lower(s: string): (r: string)
    ensures |r| == |s|
    ensures forall i :: 0 <= i < |s| ==> r[i] == LowerChar(s[i])
  {
    seq(|s|, i requires 0 <= i < |s| => LowerChar(s[i]))
  }

  /** Lower-casing twice is lower-casing once. */
  lemma LowerIdempotent(s: string)
    ensures Lower(Lower(s)) == Lower(s)
  {
  }

  predicate IsPrefix(t: string, s: string)
  {
    |t| <= |s| && s[..|t|] == t
  }

  /** `s.includes(t)`, searching from the left. */
  predicate Contains(s: string, t: string)
    decreases |s|
  {
    IsPrefix(t, s) || (s != [] && Contains(s[1..], t))
  }

  /** `s.toLowerCase().includes(t.toLowerCase())`, the search of every list screen. */
  predicate ContainsIgnoringCase(s: string, t: string)
  {
    Contains(Lower(s), Lower(t))
  }

  /** `t` occurs in `s` starting at offset `k`. */
  predicate OccursAt(s: string, t: string, k: int)
  {
    0 <= k <= |s| - |t| && s[k..k + |t|] == t
  }

  /** `Contains` agrees with the reference definition "`t` occurs at some offset of `s`". */
  lemma {:induction false} ContainsIffOccurs(s: string, t: string)
    ensures Contains(s, t) <==> exists k :: OccursAt(s, t, k)
  {
    if IsPrefix(t, s) {
      assert OccursAt(s, t, 0);
    } else if s == [] {
    } else {
      ContainsIffOccurs(s[1..], t);
      if exists k :: OccursAt(s, t, k) {
        var k :| OccursAt(s, t, k);
        assert k != 0;
        assert OccursAt(s[1..], t, k - 1);
      }
      if exists k :: OccursAt(s[1..], t, k) {
        var k :| OccursAt(s[1..], t, k);
        assert OccursAt(s, t, k + 1);
      }
    }
  }

  /** Every string includes the empty string. */
  lemma ContainsEmpty(s: string)
    ensures Contains(s, "")
    ensures ContainsIgnoringCase(s, "")
  {
    assert IsPrefix("", s);
    assert IsPrefix("", Lower(s));
  }

  /** The characters `String.prototype.trim` removes (WhiteSpace and LineTerminator
      of section 12.2 and 12.3 of ECMA-262). */
  predicate IsWhitespace(c: char)
  {
    var n := c as int;
    n == 0x09 || n == 0x0A || n == 0x0B || n == 0x0C || n == 0x0D || n == 0x20
    || n == 0xA0 || n == 0x1680 || (0x2000 <= n <= 0x200A)
    || n == 0x2028 || n == 0x2029 || n == 0x202F || n == 0x205F || n == 0x3000 || n == 0xFEFF
  }

  function TrimStart(s: string): (r: string)
    ensures r == [] || !IsWhitespace(r[0])
    ensures |r| <= |s| && r == s[|s| - |r|..]
  {
    if s != [] && IsWhitespace(s[0]) then TrimStart(s[1..]) else s
  }

  function TrimEnd(s: string): (r: string)
    ensures r == [] || !IsWhitespace(r[|r| - 1])
    ensures |r| <= |s| && r == s[..|r|]
  {
    if s != [] && IsWhitespace(s[|s| - 1]) then TrimEnd(s[..|s| - 1]) else s
  }

  /** `s.trim()`. */
  function Trim(s: string): string
  {
    TrimEnd(TrimStart(s))
  }

  /** `!s.trim()`: the trimmed string is empty, so falsy. */
  predicate IsBlank(s: string)
  {
    Trim(s) == ""
  }

  lemma {:induction false} TrimStartEmptyIff(s: string)
    ensures TrimStart(s) == [] <==> forall i :: 0 <= i < |s| ==> IsWhitespace(s[i])
  {
    if s != [] && IsWhitespace(s[0]) {
      TrimStartEmptyIff(s[1..]);
      assert forall i :: 1 <= i < |s| ==> s[i] == s[1..][i - 1];
    }
  }

  /** A string is blank exactly when all its characters are whitespace. */
  lemma BlankIffAllWhitespace(s: string)
    ensures IsBlank(s) <==> forall i :: 0 <= i < |s| ==> IsWhitespace(s[i])
  {
    TrimStartEmptyIff(s);
    var t := TrimStart(s);
    if t != [] {
      assert !IsWhitespace(t[0]);
      var e := TrimEnd(t);
      assert e == [] ==> false by {
        if e == [] {
          TrimEndKeepsHead(t);
        }
      }
    }
  }

  /** `TrimEnd` cannot remove a non-whitespace first character. */
  lemma {:induction false} TrimEndKeepsHead(t: string)
    requires t != [] && !IsWhitespace(t[0])
    ensures TrimEnd(t) != []
  {
    if IsWhitespace(t[|t| - 1]) {
      assert |t| > 1;
      TrimEndKeepsHead(t[..|t| - 1]);
    }
  }

  function DigitChar(d: nat): (c: char)
    requires d < 10
    ensures '0' <= c <= '9'
  {
    ('0' as int + d) as char
  }

  function DigitValue(c: char): nat
    requires '0' <= c <= '9'
  {
    c as int - '0' as int
  }

  predicate AllDigits(s: string)
  {
    forall i :: 0 <= i < |s| ==> '0' <= s[i] <= '9'
  }

  /** `n.toString()` for a non-negative integer (below 10^21, where JavaScript switches notation). */
  function Decimal(n: nat): (r: string)
    ensures |r| >= 1 && AllDigits(r)
    ensures n < 10 <==> |r| == 1
  {
    if n < 10 then [DigitChar(n)] else Decimal(n / 10) + [DigitChar(n % 10)]
  }

  /** Reads a string of decimal digits, most significant first. */
  function DecimalValue(s: string): nat
    requires AllDigits(s)
  {
    if s == [] then 0 else 10 * DecimalValue(s[..|s| - 1]) + DigitValue(s[|s| - 1])
  }

  /** `Decimal` is injective: reading it back gives the number. */
  lemma {:induction false} DecimalRoundTrip(n: nat)
    ensures DecimalValue(Decimal(n)) == n
  {
    if n >= 10 {
      DecimalRoundTrip(n / 10);
      var r := Decimal(n);
      assert r[..|r| - 1] == Decimal(n / 10);
    }
  }

  function Pow10(k: nat): (p: nat)
    ensures p >= 1
  {
    if k == 0 then 1 else 10 * Pow10(k - 1)
  }

  /** The last `k` digits of `m`, zero-padded to exactly `k` characters. */
  function Padded(m: nat, k: nat): (r: string)
    ensures |r| == k && AllDigits(r)
  {
    if k == 0 then [] else Padded(m / 10, k - 1) + [DigitChar(m % 10)]
  }

  /** `s.slice(-k)`: the last `k` characters, or all of `s` when it is shorter. */
  function LastChars(s: string, k: nat): (r: string)
    ensures |r| == if |s| < k then |s| else k
  {
    if |s| <= k then s else s[|s| - k..]
  }

  lemma {:induction false} MulAtLeast(d: int, x: int)
    requires d > 0 && x >= 1
    ensures d * x >= d
    decreases x
  {
    if x > 1 {
      MulAtLeast(d, x - 1);
      assert d * x == d * (x - 1) + d;
    }
  }

  /** Division with remainder has one answer. */
  lemma DivModUnique(n: int, d: int, q: int, r: int)
    requires d > 0 && 0 <= r < d && n == d * q + r
    ensures n / d == q && n % d == r
  {
    var q0, r0 := n / d, n % d;
    assert d * (q - q0) == r0 - r;
    if q > q0 {
      MulAtLeast(d, q - q0);
      assert false;
    } else if q < q0 {
      MulAtLeast(d, q0 - q);
      assert false;
    }
  }

  lemma DivModShift(n: nat, k: nat)
    requires k >= 1
    ensures (n % Pow10(k)) / 10 == (n / 10) % Pow10(k - 1)
    ensures (n % Pow10(k)) % 10 == n % 10
  {
    var p := Pow10(k - 1);
    assert Pow10(k) == 10 * p;
    var a, b := n / 10, n % 10;
    var q, r := a / p, a % p;
    assert a == p * q + r;
    assert n == 10 * a + b;
    assert n == (10 * p) * q + (10 * r + b) by {
      assert 10 * a == 10 * (p * q) + 10 * r;
      assert 10 * (p * q) == (10 * p) * q;
    }
    assert 10 * r + b < 10 * p by {
      assert r <= p - 1;
      assert 10 * r <= 10 * p - 10;
    }
    DivModUnique(n, 10 * p, q, 10 * r + b);
    DivModUnique(10 * r + b, 10, r, b);
  }

  /** For a number with more than `k` digits, the last `k` characters of its decimal
      string are its value modulo 10^k, zero-padded. */
  lemma {:induction false} DecimalSuffix(n: nat, k: nat)
    requires n >= Pow10(k)
    ensures |Decimal(n)| > k
    ensures LastChars(Decimal(n), k) == Padded(n % Pow10(k), k)
  {
    if k == 0 {
    } else {
      assert n >= 10 by {
        assert Pow10(k) == 10 * Pow10(k - 1);
      }
      assert n / 10 >= Pow10(k - 1);
      DecimalSuffix(n / 10, k - 1);
      DivModShift(n, k);
      var d := Decimal(n / 10);
      assert Decimal(n) == d + [DigitChar(n % 10)];
      assert LastChars(Decimal(n), k) == LastChars(d, k - 1) + [DigitChar(n % 10)];
    }
  }
}
