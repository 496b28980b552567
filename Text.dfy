/** The string operations the guardrail checks rely on, stated over `seq<char>`. */
module Text {

  /** Lower-cases one ASCII letter and leaves every other character unchanged. */
  function LowerChar(c: char): (r: char)
    ensures 'A' <= c <= 'Z' ==> 'a' <= r <= 'z' && r as int == c as int + 32
    ensures !('A' <= c <= 'Z') ==> r == c
  {
    if 'A' <= c <= 'Z' then (c as int + 32) as char else c
  }

  /** `s.lower()`, restricted to ASCII letters. */
  function Lower(s: string): (r: string)
    ensures |r| == |s|
    ensures forall i :: 0 <= i < |s| ==> r[i] == LowerChar(s[i])
  {
    if s == [] then [] else [LowerChar(s[0])] + Lower(s[1..])
  }

  /** Lower-casing twice is lower-casing once. */
  lemma LowerIdempotent(s: string)
    ensures Lower(Lower(s)) == Lower(s)
  {
    var l := Lower(s);
    assert forall i | 0 <= i < |s| :: Lower(l)[i] == LowerChar(LowerChar(s[i])) == LowerChar(s[i]);
  }

  /** `sub in s`: `sub` occurs somewhere in `s` as a contiguous run. */
  predicate Contains(s: string, sub: string)
  {
    exists i | 0 <= i <= |s| - |sub| :: OccursAt(s, sub, i)
  }

  /** `sub` starts at position `i` of `s`. */
  predicate OccursAt(s: string, sub: string, i: int)
  {
    0 <= i <= |s| - |sub| && s[i..i + |sub|] == sub
  }

  /** `s.count(c)`. */
  function CountChar(s: string, c: char): (n: nat)
    ensures n <= |s|
    ensures n == 0 <==> forall i :: 0 <= i < |s| ==> s[i] != c
  {
    if s == [] then 0 else (if s[|s| - 1] == c then 1 else 0) + CountChar(s[..|s| - 1], c)
  }

  // ---------------------------------------------------------------------------
  // Counting the elements of a sequence that satisfy a test
  // ---------------------------------------------------------------------------

  /** Membership in a non-empty sequence, split at its last element. */
  lemma InInitOrLast<T>(s: seq<T>, x: T)
    requires s != []
    ensures x in s <==> x in s[..|s| - 1] || x == s[|s| - 1]
  {
    assert s == s[..|s| - 1] + [s[|s| - 1]];
  }

  predicate Distinct<T(==)>(xs: seq<T>)
  {
    forall i, j :: 0 <= i < j < |xs| ==> xs[i] != xs[j]
  }

  /** Dropping the last element keeps the elements distinct, and the last one is not among the rest. */
  lemma DistinctInit<T>(xs: seq<T>)
    requires xs != [] && Distinct(xs)
    ensures Distinct(xs[..|xs| - 1]) && xs[|xs| - 1] !in xs[..|xs| - 1]
  {
    var init := xs[..|xs| - 1];
    forall a | 0 <= a < |init| ensures init[a] != xs[|xs| - 1] {
      assert init[a] == xs[a];
    }
  }

  /** `sum(1 for x in xs if p(x))`. */
  function CountWhere<T>(xs: seq<T>, p: T -> bool): (n: nat)
    ensures n <= |xs|
  {
    if xs == [] then 0 else CountWhere(xs[..|xs| - 1], p) + (if p(xs[|xs| - 1]) then 1 else 0)
  }

  /** No element passes exactly when the count is zero. */
  lemma {:induction false} CountWhereZero<T>(xs: seq<T>, p: T -> bool)
    ensures CountWhere(xs, p) == 0 <==> forall i | 0 <= i < |xs| :: !p(xs[i])
  {
    if xs != [] {
      var init := xs[..|xs| - 1];
      CountWhereZero(init, p);
      assert forall i | 0 <= i < |init| :: init[i] == xs[i];
    }
  }

  /** The distinct elements of `xs` that pass `p`. */
  function SetWhere<T>(xs: seq<T>, p: T -> bool): set<T>
  {
    set x | x in xs && p(x)
  }

  /** Over a list without repetitions, the count is the number of distinct elements that pass. */
  lemma {:induction false} CountWhereDistinct<T>(xs: seq<T>, p: T -> bool)
    requires Distinct(xs)
    ensures CountWhere(xs, p) == |SetWhere(xs, p)|
  {
    if xs != [] {
      var init, last := xs[..|xs| - 1], xs[|xs| - 1];
      assert Distinct(init);
      CountWhereDistinct(init, p);
      var before := SetWhere(init, p);
      var after := SetWhere(xs, p);
      assert last !in init;
      assert xs == init + [last];
      if p(last) {
        assert after == before + {last};
      } else {
        assert after == before;
      }
    }
  }

  // ---------------------------------------------------------------------------
  // str.strip()
  // ---------------------------------------------------------------------------

  /** The characters for which Python's `str.isspace()` holds. */
  predicate IsSpace(c: char)
  {
    c == ' ' || '\t' <= c <= '\r' || '\U{1C}' <= c <= '\U{1F}' || c == '\U{85}' || c == '\U{A0}'
    || c == '\U{1680}' || '\U{2000}' <= c <= '\U{200A}' || c == '\U{2028}' || c == '\U{2029}'
    || c == '\U{202F}' || c == '\U{205F}' || c == '\U{3000}'
  }

  /** Every character of `s` is whitespace. */
  predicate IsBlank(s: string)
  {
    forall i :: 0 <= i < |s| ==> IsSpace(s[i])
  }

  function TrimStart(s: string): (r: string)
    ensures |r| <= |s| && r == s[|s| - |r|..]
    ensures r != [] ==> !IsSpace(r[0])
  {
    if s != [] && IsSpace(s[0]) then TrimStart(s[1..]) else s
  }

  function TrimEnd(s: string): (r: string)
    ensures |r| <= |s| && r == s[..|r|]
    ensures r != [] ==> !IsSpace(r[|r| - 1])
  {
    if s != [] && IsSpace(s[|s| - 1]) then TrimEnd(s[..|s| - 1]) else s
  }

  /** `s.strip()`: `s` without its leading and trailing whitespace. */
  function Strip(s: string): string
  {
    TrimEnd(TrimStart(s))
  }

  /** A non-empty string is blank exactly when its first character is whitespace and the rest is blank. */
  lemma BlankCons(s: string)
    requires s != []
    ensures IsBlank(s) <==> IsSpace(s[0]) && IsBlank(s[1..])
  {
    if IsSpace(s[0]) && IsBlank(s[1..]) {
      forall i | 0 <= i < |s| ensures IsSpace(s[i]) {
        if i > 0 { assert s[i] == s[1..][i - 1]; }
      }
    }
    if IsBlank(s) {
      forall i | 0 <= i < |s| - 1 ensures IsSpace(s[1..][i]) {
        assert s[1..][i] == s[i + 1];
      }
    }
  }

  lemma {:induction false} TrimStartEmpty(s: string)
    ensures TrimStart(s) == [] <==> IsBlank(s)
  {
    if s != [] {
      BlankCons(s);
      if IsSpace(s[0]) {
        TrimStartEmpty(s[1..]);
      }
    }
  }

  /** `not s.strip()`: a prompt is rejected as empty exactly when it is all whitespace. */
  lemma StripEmptyIffBlank(s: string)
    ensures Strip(s) == [] <==> IsBlank(s)
  {
    TrimStartEmpty(s);
    var t := TrimStart(s);
    if t != [] {
      assert !IsSpace(t[0]);
      assert TrimEnd(t) != [] by {
        if TrimEnd(t) == [] { TrimEndEmptyOnlyIfBlank(t); }
      }
    }
  }

  lemma {:induction false} TrimEndEmptyOnlyIfBlank(s: string)
    requires TrimEnd(s) == []
    ensures IsBlank(s)
  {
    if s != [] {
      var init := s[..|s| - 1];
      assert IsSpace(s[|s| - 1]);
      TrimEndEmptyOnlyIfBlank(init);
      forall i | 0 <= i < |s| ensures IsSpace(s[i]) {
        if i < |s| - 1 { assert s[i] == init[i]; }
      }
    }
  }

  // ---------------------------------------------------------------------------
  // str.join and the formatting of scores
  // ---------------------------------------------------------------------------

  /** `sep.join(parts)`. */
  function Join(parts: seq<string>, sep: string): (r: string)
    ensures parts == [] ==> r == []
    ensures |parts| == 1 ==> r == parts[0]
  {
    if parts == [] then [] else if |parts| == 1 then parts[0] else parts[0] + sep + Join(parts[1..], sep)
  }

  function Digit(d: nat): (c: char)
    requires d < 10
    ensures '0' <= c <= '9' && c as int - '0' as int == d
  {
    ('0' as int + d) as char
  }

  predicate AllDigits(s: string)
  {
    forall i :: 0 <= i < |s| ==> '0' <= s[i] <= '9'
  }

  /** The decimal numeral of `n`, without leading zeros. */
  function NatToDecimal(n: nat): (r: string)
    ensures r != [] && AllDigits(r)
    decreases n
  {
    if n < 10 then [Digit(n)] else NatToDecimal(n / 10) + [Digit(n % 10)]
  }

  /** The number a string of decimal digits denotes. */
  function DecimalValue(s: string): nat
    requires AllDigits(s)
  {
    if s == [] then 0 else 10 * DecimalValue(s[..|s| - 1]) + (s[|s| - 1] as int - '0' as int)
  }

  lemma {:induction false} DecimalRoundTrip(n: nat)
    ensures DecimalValue(NatToDecimal(n)) == n
    decreases n
  {
    if n >= 10 {
      DecimalRoundTrip(n / 10);
      var r := NatToDecimal(n);
      assert r[..|r| - 1] == NatToDecimal(n / 10);
    }
  }

  /** A score in thousandths written as Python's `f"{score:.3f}"`: `700` becomes `"0.700"`. */
  function FormatMilli(m: nat): string
  {
    NatToDecimal(m / 1000) + "." + [Digit(m / 100 % 10), Digit(m / 10 % 10), Digit(m % 10)]
  }

  /** Three digits denote the number they spell. */
  lemma ThreeDigitsValue(a: nat, b: nat, c: nat)
    requires a < 10 && b < 10 && c < 10
    ensures DecimalValue([Digit(a), Digit(b), Digit(c)]) == 100 * a + 10 * b + c
  {
    var s := [Digit(a), Digit(b), Digit(c)];
    assert s[..2][..1][..0] == [];
    assert DecimalValue(s[..2][..1]) == a;
    assert DecimalValue(s[..2]) == 10 * a + b;
  }

  /** The last three decimal digits of `m` spell `m % 1000`. */
  lemma LastThreeDigits(m: nat)
    ensures 100 * (m / 100 % 10) + 10 * (m / 10 % 10) + m % 10 == m % 1000
  {
    var q, r := m / 1000, m % 1000;
    var hundreds, rest := r / 100, r % 100;
    var tens, units := rest / 10, rest % 10;
    assert m == 100 * (10 * q + hundreds) + rest;
    assert m / 100 == 10 * q + hundreds;
    assert m == 10 * (100 * q + 10 * hundreds + tens) + units;
    assert m / 10 == 100 * q + 10 * hundreds + tens;
    assert m / 100 % 10 == hundreds && m / 10 % 10 == tens && m % 10 == units;
    assert r == 100 * hundreds + 10 * tens + units;
  }

  /** The formatted score has exactly three decimals, and whole and fraction give back the score. */
  lemma FormatMilliRoundTrip(m: nat)
    ensures var s := FormatMilli(m);
      |s| >= 5 && s[|s| - 4] == '.' && AllDigits(s[..|s| - 4]) && AllDigits(s[|s| - 3..])
      && 1000 * DecimalValue(s[..|s| - 4]) + DecimalValue(s[|s| - 3..]) == m
  {
    var s := FormatMilli(m);
    var whole := NatToDecimal(m / 1000);
    var frac := [Digit(m / 100 % 10), Digit(m / 10 % 10), Digit(m % 10)];
    assert s == whole + "." + frac;
    assert s[..|s| - 4] == whole;
    assert s[|s| - 3..] == frac;
    DecimalRoundTrip(m / 1000);
    ThreeDigitsValue(m / 100 % 10, m / 10 % 10, m % 10);
    LastThreeDigits(m);
  }
}
