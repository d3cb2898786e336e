/** The string built-ins the storefront relies on: case mapping, substring
    search, `trim`, decimal rendering of a millisecond clock reading and
    `slice(-k)`. Case mapping is modelled on the ASCII letters only. */
module Text {

  // ----- case mapping -----

  function LowerChar(c: char): char {
    if 'A' <= c <= 'Z' then (c as int + 32) as char else c
  }

  function UpperChar(c: char): char {
    if 'a' <= c <= 'z' then (c as int - 32) as char else c
  }

  /** `toLowerCase`, character by character. */
  function Lower(s: string): (r: string)
    ensures |r| == |s|
    ensures forall i :: 0 <= i < |s| ==> r[i] == LowerChar(s[i])
  {
    if s == [] then [] else [LowerChar(s[0])] + Lower(s[1..])
  }

  /** `toUpperCase`, character by character. */
  function Upper(s: string): (r: string)
    ensures |r| == |s|
    ensures forall i :: 0 <= i < |s| ==> r[i] == UpperChar(s[i])
  {
    if s == [] then [] else [UpperChar(s[0])] + Upper(s[1..])
  }

  /** Upper-casing forgets the case of the input: a typed code and its
      lower-case spelling upper-case to the same string. */
  lemma UpperIgnoresCase(s: string)
    ensures Upper(Lower(s)) == Upper(s)
    ensures Upper(Upper(s)) == Upper(s)
  {
    var a, b, c := Upper(Lower(s)), Upper(s), Upper(Upper(s));
    assert |a| == |b| == |c|;
    forall i | 0 <= i < |s| ensures a[i] == b[i] && c[i] == b[i] {
      assert a[i] == UpperChar(LowerChar(s[i]));
    }
  }

  // ----- substring search -----

  /** `s.includes(sub)`: `sub` occurs in `s` at some offset. */
  predicate Includes(s: string, sub: string)
    decreases |s|
  {
    sub <= s || (|s| > 0 && Includes(s[1..], sub))
  }

  /** `sub` sits in `s` at offset k. */
  predicate OccursAt(s: string, sub: string, k: int) {
    0 <= k <= |s| - |sub| && s[k..k + |sub|] == sub
  }

  /** Includes means what `includes` promises: some window of `s` equals `sub`. */
  lemma {:induction false} IncludesIffWindow(s: string, sub: string)
    ensures Includes(s, sub) <==> exists k :: OccursAt(s, sub, k)
    decreases |s|
  {
    if sub <= s {
      assert OccursAt(s, sub, 0);
    } else if |s| > 0 {
      IncludesIffWindow(s[1..], sub);
      if exists k :: OccursAt(s, sub, k) {
        var k :| OccursAt(s, sub, k);
        if k > 0 {
          assert s[1..][k - 1..k - 1 + |sub|] == s[k..k + |sub|];
          assert OccursAt(s[1..], sub, k - 1);
        }
      }
      if Includes(s[1..], sub) {
        var k :| OccursAt(s[1..], sub, k);
        assert s[k + 1..k + 1 + |sub|] == s[1..][k..k + |sub|];
        assert OccursAt(s, sub, k + 1);
      }
    }
  }

  /** The empty query occurs in every string. */
  lemma IncludesEmpty(s: string)
    ensures Includes(s, "")
  {
  }

  /** `s.substring(start, end)` for 0 <= start <= end: both ends are clamped
      to the length of `s`. */
  function Substring(s: string, start: nat, end: nat): (r: string)
    requires start <= end
    ensures |r| <= end - start
    ensures end <= |s| ==> r == s[start..end]
  {
    var a := if start <= |s| then start else |s|;
    var b := if end <= |s| then end else |s|;
    s[a..b]
  }

  predicate HasNoLowerAscii(s: string) {
    forall i :: 0 <= i < |s| ==> !('a' <= s[i] <= 'z')
  }

  // ----- trim -----

  /** The characters `String.prototype.trim` strips: the white-space and
      line-terminator code points of ECMAScript. */
  predicate IsJsWhiteSpace(c: char) {
    c == '\U{0009}' || c == '\U{000B}' || c == '\U{000C}' || c == ' ' ||
    c == '\U{00A0}' || c == '\U{FEFF}' || c == '\U{1680}' ||
    ('\U{2000}' <= c <= '\U{200A}') || c == '\U{202F}' || c == '\U{205F}' ||
    c == '\U{3000}' || c == '\U{000A}' || c == '\U{000D}' ||
    c == '\U{2028}' || c == '\U{2029}'
  }

  function TrimStart(s: string): string {
    if s != [] && IsJsWhiteSpace(s[0]) then TrimStart(s[1..]) else s
  }

  function TrimEnd(s: string): string {
    if s != [] && IsJsWhiteSpace(s[|s| - 1]) then TrimEnd(s[..|s| - 1]) else s
  }

  function Trim(s: string): string {
    TrimEnd(TrimStart(s))
  }

  predicate AllWhiteSpace(s: string) {
    forall i :: 0 <= i < |s| ==> IsJsWhiteSpace(s[i])
  }

  lemma {:induction false} TrimStartEmpty(s: string)
    ensures TrimStart(s) == [] <==> AllWhiteSpace(s)
  {
    if s != [] && IsJsWhiteSpace(s[0]) {
      TrimStartEmpty(s[1..]);
      assert AllWhiteSpace(s[1..]) ==> AllWhiteSpace(s) by {
        if AllWhiteSpace(s[1..]) {
          forall i | 0 <= i < |s| ensures IsJsWhiteSpace(s[i]) {
            if i > 0 { assert s[i] == s[1..][i - 1]; }
          }
        }
      }
      assert AllWhiteSpace(s) ==> AllWhiteSpace(s[1..]) by {
        if AllWhiteSpace(s) {
          forall i | 0 <= i < |s[1..]| ensures IsJsWhiteSpace(s[1..][i]) {
            assert s[1..][i] == s[i + 1];
          }
        }
      }
    }
  }

  /** TrimStart leaves either nothing or a string that does not start with
      white space; if it leaves something, TrimEnd leaves something too. */
  lemma {:induction false} TrimStartShape(s: string)
    ensures TrimStart(s) == [] || !IsJsWhiteSpace(TrimStart(s)[0])
  {
    if s != [] && IsJsWhiteSpace(s[0]) { TrimStartShape(s[1..]); }
  }

  lemma {:induction false} TrimEndKeepsFirst(s: string)
    requires s != [] && !IsJsWhiteSpace(s[0])
    ensures TrimEnd(s) != []
  {
    if IsJsWhiteSpace(s[|s| - 1]) {
      assert |s| > 1;
      TrimEndKeepsFirst(s[..|s| - 1]);
    }
  }

  /** `!s.trim()` holds exactly for the strings made of white space only
      (the empty string included). */
  lemma TrimEmptyIffBlank(s: string)
    ensures Trim(s) == [] <==> AllWhiteSpace(s)
  {
    TrimStartEmpty(s);
    TrimStartShape(s);
    if TrimStart(s) != [] { TrimEndKeepsFirst(TrimStart(s)); }
  }

  // ----- decimal rendering of a clock reading -----

  predicate IsDigit(c: char) { '0' <= c <= '9' }

  predicate AllDigits(s: string) {
    forall i :: 0 <= i < |s| ==> IsDigit(s[i])
  }

  function DigitChar(d: nat): (c: char)
    requires d < 10
    ensures IsDigit(c)
  {
    ('0' as int + d) as char
  }

  function DigitValue(c: char): (d: nat)
    requires IsDigit(c)
    ensures d < 10
  {
    c as int - '0' as int
  }

  /** `n.toString()` for a non-negative integer: its decimal digits, most
      significant first, without leading zeros. */
  function Digits(n: nat): (r: string)
    ensures r != [] && AllDigits(r)
    ensures n >= 10 ==> r[0] != '0'
  {
    if n < 10 then [DigitChar(n)] else Digits(n / 10) + [DigitChar(n % 10)]
  }

  /** The value of a string of decimal digits, most significant first. */
  function ParseDigits(s: string): nat
    requires AllDigits(s)
  {
    if s == [] then 0 else ParseDigits(s[..|s| - 1]) * 10 + DigitValue(s[|s| - 1])
  }

  function Pow10(k: nat): (p: nat)
    ensures p >= 1
  {
    if k == 0 then 1 else 10 * Pow10(k - 1)
  }

  /** Decimal rendering and parsing are inverse. */
  lemma {:induction false} ParseDigitsOfDigits(n: nat)
    ensures ParseDigits(Digits(n)) == n
  {
    if n >= 10 {
      var s := Digits(n);
      assert s[..|s| - 1] == Digits(n / 10);
      ParseDigitsOfDigits(n / 10);
    }
  }

  /** The rendering of n is short enough to hold n: n < 10^|Digits(n)|. */
  lemma {:induction false} DigitsBound(n: nat)
    ensures n < Pow10(|Digits(n)|)
  {
    if n >= 10 { DigitsBound(n / 10); }
  }

  /** A number of at least 10^k needs more than k digits. */
  lemma {:induction false} DigitsLengthAtLeast(n: nat, k: nat)
    requires n >= Pow10(k)
    ensures |Digits(n)| > k
  {
    if k > 0 {
      assert n / 10 >= Pow10(k - 1);
      DigitsLengthAtLeast(n / 10, k - 1);
    }
  }

  /** `s.slice(-k)` for k >= 1: the last k characters, or all of `s` when it
      is shorter. */
  function LastN(s: string, k: nat): (r: string)
    requires k >= 1
    ensures |r| <= k && |r| <= |s| && r == s[|s| - |r|..]
    ensures |s| >= k ==> |r| == k
  {
    if |s| <= k then s else s[|s| - k..]
  }

  lemma ModStep(n: nat, p: nat)
    requires p >= 1
    ensures ((n / 10) % p) * 10 + n % 10 == n % (10 * p)
  {
    var q, r := n / 10, n % 10;
    var a, b := q / p, q % p;
    assert n == 10 * p * a + (10 * b + r);
    assert 0 <= 10 * b + r < 10 * p;
    DivModUnique(n, 10 * p, a, 10 * b + r);
  }

  lemma DivModUnique(n: nat, m: nat, a: nat, b: nat)
    requires m >= 1 && n == m * a + b && b < m
    ensures n % m == b
  {
    var a', b' := n / m, n % m;
    assert m * (a - a') == b' - b;
    MulAwayFromZero(m, a - a');
  }

  lemma MulAwayFromZero(m: nat, d: int)
    requires m >= 1
    ensures d >= 1 ==> m * d >= m
    ensures d <= -1 ==> m * d <= 0 - m as int
  {
  }

  /** The last k digits of n spell n modulo 10^k. */
  lemma {:induction false} LastDigitsValue(n: nat, k: nat)
    requires k >= 1
    ensures ParseDigits(LastN(Digits(n), k)) == n % Pow10(k)
  {
    var s := Digits(n);
    if |s| <= k {
      ParseDigitsOfDigits(n);
      DigitsBound(n);
      PowMonotone(|s|, k);
      DivModUnique(n, Pow10(k), 0, n);
    } else {
      assert n >= 10;
      var t := Digits(n / 10);
      assert s == t + [DigitChar(n % 10)];
      var tail := LastN(s, k);
      assert tail[..|tail| - 1] == s[|s| - k..|s| - 1];
      if k == 1 {
        assert tail[..|tail| - 1] == [];
        assert tail[0] == DigitChar(n % 10);
        assert ParseDigits(tail) == n % 10;
      } else {
        assert tail[..|tail| - 1] == LastN(t, k - 1);
        LastDigitsValue(n / 10, k - 1);
        ModStep(n, Pow10(k - 1));
      }
    }
  }

  lemma {:induction false} PowMonotone(i: nat, j: nat)
    requires i <= j
    ensures Pow10(i) <= Pow10(j)
  {
    if i < j { PowMonotone(i, j - 1); }
  }
}
