/** The string operations the portal relies on: `includes`, the first piece of
    `split`, `substring`, ASCII `toLowerCase`, decimal rendering of a number in a
    template literal, and the digit-prefix reading that `parseFloat` performs. */
module Text {
  import opened Values

  // ---------------------------------------------------------------- includes

  /** `t` occurs in `s` starting at index `i`. */
  predicate OccursAt(s: string, t: string, i: int) {
    0 <= i && i + |t| <= |s| && s[i..i + |t|] == t
  }

  /** `s.includes(t)`, computed by trying each start position from the left. */
  function Contains(s: string, t: string): bool
    decreases |s|
  {
    if t <= s then true
    else if s == [] then false
    else Contains(s[1..], t)
  }

  /** An occurrence at position 0 is exactly a prefix. */
  lemma OccursAtStart(s: string, t: string)
    ensures OccursAt(s, t, 0) <==> t <= s
  {
    if |t| <= |s| {
      assert s[0..|t|] == s[..|t|];
    }
  }

  /** An occurrence past position 0 is an occurrence in the tail. */
  lemma OccursInTail(s: string, t: string, i: int)
    requires s != [] && i >= 1
    ensures OccursAt(s, t, i) <==> OccursAt(s[1..], t, i - 1)
  {
    if i + |t| <= |s| {
      assert s[1..][i - 1..i - 1 + |t|] == s[i..i + |t|];
    }
  }

  /** `Contains` agrees with the reference definition: some position holds `t`. */
  lemma {:induction false} ContainsIffOccurs(s: string, t: string)
    ensures Contains(s, t) <==> exists i :: OccursAt(s, t, i)
    decreases |s|
  {
    OccursAtStart(s, t);
    if t <= s {
      assert OccursAt(s, t, 0);
    } else if s == [] {
    } else {
      ContainsIffOccurs(s[1..], t);
      if Contains(s[1..], t) {
        var i :| OccursAt(s[1..], t, i);
        OccursInTail(s, t, i + 1);
      } else {
        forall i | OccursAt(s, t, i) ensures false {
          if i > 0 {
            OccursInTail(s, t, i);
          }
        }
      }
    }
  }

  /** A string that contains `t` somewhere inside still contains it with text
      added around it. */
  lemma ContainsInside(a: string, t: string, b: string)
    ensures Contains(a + t + b, t)
  {
    assert OccursAt(a + t + b, t, |a|) by {
      assert (a + t + b)[|a|..|a| + |t|] == t;
    }
    ContainsIffOccurs(a + t + b, t);
  }

  // ------------------------------------------------------------ split(sep)[0]

  /** `s.split(sep)[0]`: the text before the first occurrence of `sep`, or all
      of `s` when `sep` does not occur. */
  function BeforeFirst(s: string, sep: string): string
    requires sep != []
    decreases |s|
  {
    if s == [] || sep <= s then [] else [s[0]] + BeforeFirst(s[1..], sep)
  }

  /** The piece is a prefix of `s` free of `sep`; it ends where `sep` first
      occurs (no earlier position holds `sep`), or it is the whole of `s` when
      `sep` does not occur. */
  lemma {:induction false} BeforeFirstSpec(s: string, sep: string)
    requires sep != []
    ensures BeforeFirst(s, sep) <= s
    ensures !Contains(BeforeFirst(s, sep), sep)
    ensures forall i :: 0 <= i < |BeforeFirst(s, sep)| ==> !OccursAt(s, sep, i)
    ensures Contains(s, sep) ==> sep <= s[|BeforeFirst(s, sep)|..]
    ensures !Contains(s, sep) ==> BeforeFirst(s, sep) == s
    decreases |s|
  {
    var r := BeforeFirst(s, sep);
    if s == [] {
    } else if sep <= s {
      assert r == [];
    } else {
      var r' := BeforeFirst(s[1..], sep);
      BeforeFirstSpec(s[1..], sep);
      assert r == [s[0]] + r';
      assert Contains(r, sep) == Contains(r', sep);
      forall i | 0 <= i < |r| ensures !OccursAt(s, sep, i) {
        if i == 0 {
          OccursAtStart(s, sep);
        } else {
          OccursInTail(s, sep, i);
        }
      }
    }
  }

  /** A piece that does not hold the separator's first character, followed by
      the separator, is what `split(sep)[0]` gives back. */
  lemma {:induction false} BeforeFirstOfJoin(a: string, sep: string, b: string)
    requires sep != []
    requires forall i :: 0 <= i < |a| ==> a[i] != sep[0]
    ensures BeforeFirst(a + sep + b, sep) == a
    decreases |a|
  {
    var s := a + sep + b;
    if a == [] {
      assert s == sep + b;
    } else {
      assert s[0] == a[0];
      assert !(sep <= s);
      assert s[1..] == a[1..] + sep + b;
      BeforeFirstOfJoin(a[1..], sep, b);
    }
  }

  // ---------------------------------------------------------- substring(0, n)

  /** `s.substring(0, n)`: the first `n` characters, or all of `s` if shorter. */
  function Take(s: string, n: nat): (r: string)
    ensures r <= s
    ensures |r| == if |s| < n then |s| else n
  {
    if |s| < n then s else s[..n]
  }

  // ------------------------------------------------------------- toLowerCase

  function LowerChar(c: char): char {
    if 'A' <= c <= 'Z' then (c as int + 32) as char else c
  }

  /** `s.toLowerCase()` on the ASCII letters. */
  function ToLower(s: string): (r: string)
    ensures |r| == |s|
    ensures forall i :: 0 <= i < |s| ==> r[i] == LowerChar(s[i])
  {
    seq(|s|, i requires 0 <= i < |s| => LowerChar(s[i]))
  }

  /** Lowering twice is lowering once. */
  lemma ToLowerIdempotent(s: string)
    ensures ToLower(ToLower(s)) == ToLower(s)
  {
  }

  // -------------------------------------------------------- decimal numbers

  predicate IsDigit(c: char) { '0' <= c <= '9' }

  predicate AllDigits(s: string) { forall i :: 0 <= i < |s| ==> IsDigit(s[i]) }

  function DigitChar(d: nat): (c: char)
    requires d < 10
    ensures IsDigit(c)
  {
    ('0' as int + d) as char
  }

  function DigitValue(c: char): nat
    requires IsDigit(c)
  {
    c as int - '0' as int
  }

  /** `${n}` for a non-negative integer: its decimal digits, no leading zero. */
  function NatToString(n: nat): (s: string)
    ensures |s| >= 1 && AllDigits(s)
    ensures n >= 10 ==> s[0] != '0'
  {
    if n < 10 then [DigitChar(n)] else NatToString(n / 10) + [DigitChar(n % 10)]
  }

  /** The number a string of decimal digits denotes. */
  function DigitsValue(s: string): nat
    requires AllDigits(s)
  {
    if s == [] then 0 else DigitsValue(s[..|s| - 1]) * 10 + DigitValue(s[|s| - 1])
  }

  /** Reading back the digits of `n` gives `n`. */
  lemma {:induction false} DigitsOfNatToString(n: nat)
    ensures DigitsValue(NatToString(n)) == n
  {
    if n >= 10 {
      var s := NatToString(n);
      assert s[..|s| - 1] == NatToString(n / 10);
      DigitsOfNatToString(n / 10);
    }
  }

  /** Distinct numbers render as distinct strings. */
  lemma NatToStringInjective(a: nat, b: nat)
    requires NatToString(a) == NatToString(b)
    ensures a == b
  {
    DigitsOfNatToString(a);
    DigitsOfNatToString(b);
  }

  /** Two strings with the same literal prefix are equal only if the rest is. */
  lemma PrefixedInjective(p: string, a: nat, b: nat)
    requires p + NatToString(a) == p + NatToString(b)
    ensures a == b
  {
    assert NatToString(a) == (p + NatToString(a))[|p|..];
    assert NatToString(b) == (p + NatToString(b))[|p|..];
    NatToStringInjective(a, b);
  }

  // --------------------------------------------------------------- parseFloat

  /** The longest prefix of `s` made of decimal digits. */
  function DigitPrefix(s: string): (r: string)
    ensures r <= s && AllDigits(r)
    ensures |r| < |s| ==> !IsDigit(s[|r|])
  {
    if s != [] && IsDigit(s[0]) then [s[0]] + DigitPrefix(s[1..]) else []
  }

  /** The digit prefix of digits followed by a non-digit is those digits. */
  lemma {:induction false} DigitPrefixOfDigits(d: string, rest: string)
    requires AllDigits(d)
    requires rest == [] || !IsDigit(rest[0])
    ensures DigitPrefix(d + rest) == d
  {
    if d != [] {
      assert (d + rest)[1..] == d[1..] + rest;
      DigitPrefixOfDigits(d[1..], rest);
    } else {
      assert d + rest == rest;
    }
  }

  predicate IsSpace(c: char) {
    c == ' ' || c == '\t' || c == '\n' || c == '\r' || c == '\U{B}' || c == '\U{C}'
  }

  function TrimStart(s: string): (r: string)
    ensures |r| <= |s| && r == s[|s| - |r|..]
    ensures r != [] ==> !IsSpace(r[0])
    ensures forall i :: 0 <= i < |s| - |r| ==> IsSpace(s[i])
  {
    if s != [] && IsSpace(s[0]) then TrimStart(s[1..]) else s
  }

  /** A string that does not start with white space is left as it is. */
  lemma TrimStartOfNonSpace(s: string)
    requires s != [] && !IsSpace(s[0])
    ensures TrimStart(s) == s
  {
  }

  function Pow10(k: nat): (p: nat)
    ensures p >= 1
  {
    if k == 0 then 1 else 10 * Pow10(k - 1)
  }

  /** An unsigned decimal: digits, then optionally `.` and more digits; whatever
      follows is ignored. `None` when no digit is where the number should be. */
  function ParseDecimal(u: string): Option<real> {
    var whole := DigitPrefix(u);
    var rest := u[|whole|..];
    var fraction := if rest != [] && rest[0] == '.' then DigitPrefix(rest[1..]) else [];
    if whole == [] && fraction == [] then None
    else Some(DigitsValue(whole) as real + DigitsValue(fraction) as real / Pow10(|fraction|) as real)
  }

  /** `parseFloat(s)` for decimal notation: leading white space, an optional
      sign, then an unsigned decimal. `None` stands for NaN. */
  function ParseFloat(s: string): (r: Option<real>)
  {
    var t := TrimStart(s);
    if t != [] && t[0] == '-' then
      match ParseDecimal(t[1..])
      case Some(m) => Some(-m)
      case None => None
    else if t != [] && t[0] == '+' then ParseDecimal(t[1..])
    else ParseDecimal(t)
  }

  /** The digits of a number followed by a unit read back as the number. */
  lemma ParseDecimalOfNat(n: nat, unit: string)
    requires unit == [] || (!IsDigit(unit[0]) && unit[0] != '.')
    ensures ParseDecimal(NatToString(n) + unit) == Some(n as real)
  {
    var d := NatToString(n);
    DigitPrefixOfDigits(d, unit);
    DigitsOfNatToString(n);
    assert (d + unit)[|d|..] == unit;
    var fraction: string := [];
    assert DigitsValue(fraction) == 0 && Pow10(|fraction|) == 1;
  }

  /** A number written in decimal and followed by a unit (or nothing) parses
      back to itself: `parseFloat("1500 kg") == 1500`. A unit that starts with
      a digit, a point or an exponent letter would continue the number. */
  lemma ParseFloatOfNat(n: nat, unit: string)
    requires unit == [] || (!IsDigit(unit[0]) && unit[0] != '.' && unit[0] != 'e' && unit[0] != 'E')
    ensures ParseFloat(NatToString(n) + unit) == Some(n as real)
  {
    var d := NatToString(n);
    var s := d + unit;
    assert s[0] == d[0] && IsDigit(s[0]);
    TrimStartOfNonSpace(s);
    assert s[0] != '-' && s[0] != '+';
    ParseDecimalOfNat(n, unit);
  }

  /** A string whose first non-blank character is a letter is NaN. */
  lemma ParseFloatOfWord(s: string)
    requires TrimStart(s) != [] && 'A' <= TrimStart(s)[0] <= 'z'
    ensures ParseFloat(s) == None
  {
  }

  /** `parseFloat(x) || fallback`: NaN and zero are falsy and give the fallback. */
  function NumberOr(p: Option<real>, fallback: real): (r: real)
    ensures p.Some? && p.value != 0.0 ==> r == p.value
    ensures p.None? || p.value == 0.0 ==> r == fallback
  {
    if p.Some? && p.value != 0.0 then p.value else fallback
  }
}
