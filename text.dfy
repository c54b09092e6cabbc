/**
 * The string operations the core relies on: ASCII lower-casing, substring and
 * prefix tests, decimal printing and parsing, and the lexicographic order of
 * `String`. Rust's `to_lowercase` is Unicode-aware; this model lowers ASCII only.
 */
module Text {
  import opened Wrappers

  predicate IsAsciiUpper(c: char) {
    'A' <= c <= 'Z'
  }

  /** `char::to_ascii_lowercase`. */
  function LowerChar(c: char): char {
    if IsAsciiUpper(c) then (c as int + 32) as char else c
  }

  /** `str::to_lowercase`, restricted to ASCII letters. */
  function AsciiLower(s: string): (r: string)
    ensures |r| == |s|
    ensures forall i | 0 <= i < |s| ::
      if IsAsciiUpper(s[i]) then r[i] as int == s[i] as int + 32 else r[i] == s[i]
    ensures forall i | 0 <= i < |r| :: !IsAsciiUpper(r[i])
  {
    seq(|s|, i requires 0 <= i < |s| => LowerChar(s[i]))
  }

  /** `s.contains(t)` for a string pattern `t` (a char pattern is a one-character string). */
  function Contains(s: string, t: string): bool
    decreases |s|
  {
    t <= s || (|s| > 0 && Contains(s[1..], t))
  }

  /** `t` occurs in `s` starting at index `i`. */
  predicate OccursAt(s: string, t: string, i: int) {
    0 <= i <= |s| - |t| && s[i..i + |t|] == t
  }

  /** `Contains` holds exactly when `t` occurs as a contiguous block of `s`. */
  lemma {:induction false} ContainsIffOccurs(s: string, t: string)
    ensures Contains(s, t) <==> exists i :: OccursAt(s, t, i)
    decreases |s|
  {
    if t <= s {
      assert OccursAt(s, t, 0);
    } else if |s| > 0 {
      ContainsIffOccurs(s[1..], t);
      if Contains(s[1..], t) {
        var i :| OccursAt(s[1..], t, i);
        assert s[i + 1..i + 1 + |t|] == s[1..][i..i + |t|];
        assert OccursAt(s, t, i + 1);
      }
      if i :| OccursAt(s, t, i) {
        assert i != 0;
        assert s[1..][i - 1..i - 1 + |t|] == s[i..i + |t|];
        assert OccursAt(s[1..], t, i - 1);
      }
    }
  }

  /** A one-character pattern is contained exactly when that character occurs. */
  lemma ContainsChar(s: string, c: char)
    ensures Contains(s, [c]) <==> c in s
  {
    ContainsIffOccurs(s, [c]);
    if c in s {
      var i :| 0 <= i < |s| && s[i] == c;
      assert OccursAt(s, [c], i);
    }
    forall i | OccursAt(s, [c], i) ensures c in s {
      assert s[i..i + 1][0] == s[i];
    }
  }

  predicate IsDigit(c: char) {
    '0' <= c <= '9'
  }

  predicate AllDigits(s: string) {
    forall i | 0 <= i < |s| :: IsDigit(s[i])
  }

  function DigitChar(d: nat): (c: char)
    requires d < 10
    ensures IsDigit(c)
  {
    ('0' as int + d) as char
  }

  function DigitValue(c: char): nat
    requires IsDigit(c)
  {
    c as int - '0' as int
  }

  /** The number a string of decimal digits denotes. */
  function DigitsValue(s: string): nat
    requires AllDigits(s)
    decreases |s|
  {
    if s == [] then 0 else DigitsValue(s[..|s| - 1]) * 10 + DigitValue(s[|s| - 1])
  }

  /** `n.to_string()`, as `format!("{}", n)` prints an unsigned integer. */
  function Decimal(n: nat): (s: string)
    ensures |s| > 0 && AllDigits(s)
    decreases n
  {
    if n < 10 then [DigitChar(n)] else Decimal(n / 10) + [DigitChar(n % 10)]
  }

  /**
   * `s.parse::<T>()` for an unsigned integer type whose largest value is `max`:
   * an optional leading `+`, then one or more decimal digits, and no overflow.
   * Anything else (empty, a lone `+`, a sign `-`, a non-digit, overflow) fails.
   */
  function ParseUnsigned(s: string, max: nat): (r: Option<nat>)
    ensures r.Some? ==> r.value <= max
    ensures r.Some? <==> exists d | UnsignedSyntax(s, d) :: DigitsValue(d) <= max
    ensures r.Some? ==> exists d | UnsignedSyntax(s, d) :: r.value == DigitsValue(d)
  {
    var digits := if |s| > 0 && s[0] == '+' then s[1..] else s;
    UnsignedSyntaxUnique(s, digits);
    if |digits| > 0 && AllDigits(digits) && DigitsValue(digits) <= max
    then Some(DigitsValue(digits))
    else None
  }

  /** `s` is the digit string `d`, or `d` after a single '+'. */
  predicate UnsignedSyntax(s: string, d: string) {
    d != [] && AllDigits(d) && (s == d || s == ['+'] + d)
  }

  /** The digits of an unsigned number are what is left after an optional leading '+'. */
  lemma UnsignedSyntaxUnique(s: string, digits: string)
    requires digits == if |s| > 0 && s[0] == '+' then s[1..] else s
    ensures forall d | UnsignedSyntax(s, d) :: d == digits
    ensures |digits| > 0 && AllDigits(digits) ==> UnsignedSyntax(s, digits)
  {
    forall d | UnsignedSyntax(s, d)
      ensures d == digits
    {
      if s == d {
        assert !IsDigit('+');
        assert s[0] == d[0];
      } else {
        assert s[1..] == d;
      }
    }
    if |digits| > 0 && AllDigits(digits) && |s| > 0 && s[0] == '+' {
      assert s == ['+'] + digits;
    }
  }

  /** A leading '+' and leading zeros are accepted; a value past the maximum and a stray character are not. */
  lemma ParseUnsignedExamples()
    ensures ParseUnsigned("+7", 255) == Some(7)
    ensures ParseUnsigned("007", 255) == Some(7)
    ensures ParseUnsigned("256", 255) == None
    ensures ParseUnsigned("12a", 255) == None
    ensures ParseUnsigned("", 255) == None && ParseUnsigned("+", 255) == None
  {
    assert "+7"[1..] == "7";
    assert DigitsValue("007") == 7 by {
      assert "007"[..2] == "00" && "00"[..1] == "0";
    }
    assert DigitsValue("256") == 256 by {
      assert "256"[..2] == "25" && "25"[..1] == "2";
    }
    assert !IsDigit("12a"[2]);
  }

  lemma {:induction false} DigitsValueOfDecimal(n: nat)
    ensures DigitsValue(Decimal(n)) == n
    decreases n
  {
    if n >= 10 {
      var s := Decimal(n);
      assert s[..|s| - 1] == Decimal(n / 10);
      DigitsValueOfDecimal(n / 10);
    }
  }

  /** Parsing what `Decimal` prints gives the number back, for every value that fits. */
  lemma ParseDecimal(n: nat, max: nat)
    requires n <= max
    ensures ParseUnsigned(Decimal(n), max) == Some(n)
  {
    DigitsValueOfDecimal(n);
  }

  /** `Ord for String`: lexicographic by character, a proper prefix first. */
  predicate StrLe(a: string, b: string)
    decreases |a|
  {
    a == [] || (b != [] && (a[0] < b[0] || (a[0] == b[0] && StrLe(a[1..], b[1..]))))
  }

  lemma {:induction false} StrLeTotal(a: string, b: string)
    ensures StrLe(a, b) || StrLe(b, a)
    decreases |a|
  {
    if a != [] && b != [] && a[0] == b[0] {
      StrLeTotal(a[1..], b[1..]);
    }
  }

  lemma {:induction false} StrLeAntisymmetric(a: string, b: string)
    requires StrLe(a, b) && StrLe(b, a)
    ensures a == b
    decreases |a|
  {
    if a != [] {
      StrLeAntisymmetric(a[1..], b[1..]);
      assert a == [a[0]] + a[1..] && b == [b[0]] + b[1..];
    }
  }

  lemma {:induction false} StrLeTransitive(a: string, b: string, c: string)
    requires StrLe(a, b) && StrLe(b, c)
    ensures StrLe(a, c)
    decreases |a|
  {
    if a != [] && a[0] == b[0] && b[0] == c[0] {
      StrLeTransitive(a[1..], b[1..], c[1..]);
    }
  }
}
