/** Decimal and hexadecimal numerals as the tools read and write them. */
module Numerals {
  import opened Wrappers

  function DigitOf(c: char): Option<nat> {
    if '0' <= c <= '9' then Some(c as nat - '0' as nat)
    else if 'a' <= c <= 'f' then Some(c as nat - 'a' as nat + 10)
    else if 'A' <= c <= 'F' then Some(c as nat - 'A' as nat + 10)
    else None
  }

  function CharOf(digit: nat): char
    requires digit < 16
  {
    if digit < 10 then '0' + digit as char else 'a' + (digit - 10) as char
  }

  /** Value of a non-empty digit string, most significant digit first. */
  function ParseDigits(s: string, base: nat): Option<nat>
    requires 2 <= base <= 16
  {
    if s == [] then None
    else
      var last := DigitOf(s[|s| - 1]);
      if last.None? || last.value >= base then None
      else if |s| == 1 then last
      else
        var init := ParseDigits(s[..|s| - 1], base);
        if init.None? then None else Some(init.value * base + last.value)
  }

  function Digits(n: nat, base: nat): (s: string)
    requires 2 <= base <= 16
    ensures s != []
    decreases n
  {
    if n < base then [CharOf(n)] else Digits(n / base, base) + [CharOf(n % base)]
  }

  lemma DigitChar(digit: nat)
    requires digit < 16
    ensures DigitOf(CharOf(digit)) == Some(digit)
  {
  }

  lemma ParseSnoc(s: string, digit: nat, base: nat)
    requires 2 <= base <= 16 && digit < base && ParseDigits(s, base).Some?
    ensures ParseDigits(s + [CharOf(digit)], base) == Some(ParseDigits(s, base).value * base + digit)
  {
    var t := s + [CharOf(digit)];
    DigitChar(digit);
    assert t[|t| - 1] == CharOf(digit) && t[..|t| - 1] == s && |t| > 1;
  }

  lemma ParseSingle(digit: nat, base: nat)
    requires 2 <= base <= 16 && digit < base
    ensures ParseDigits([CharOf(digit)], base) == Some(digit)
  {
    DigitChar(digit);
  }

  lemma DigitsStep(n: nat, q: nat, r: nat, base: nat)
    requires 2 <= base <= 16 && base <= n && q == n / base && r == n % base && r < base
    requires q * base + r == n && ParseDigits(Digits(q, base), base) == Some(q)
    ensures ParseDigits(Digits(n, base), base) == Some(n)
  {
    ParseSnoc(Digits(q, base), r, base);
  }

  lemma Division(n: nat, base: nat)
    requires 2 <= base <= n
    ensures n / base < n && n % base < base && n / base * base + n % base == n
  {
  }

  lemma {:induction false} DigitsRoundTrip(n: nat, base: nat)
    requires 2 <= base <= 16
    ensures ParseDigits(Digits(n, base), base) == Some(n)
    decreases n
  {
    if n < base {
      ParseSingle(n, base);
    } else {
      var q, r := n / base, n % base;
      Division(n, base);
      DigitsRoundTrip(q, base);
      DigitsStep(n, q, r, base);
    }
  }

  function Hex(n: nat): string { "0x" + Digits(n, 16) }

  /** The base a literal's prefix names. */
  function PrefixBase(c: char): Option<nat> {
    if c == 'x' || c == 'X' then Some(16)
    else if c == 'o' || c == 'O' then Some(8)
    else if c == 'b' || c == 'B' then Some(2)
    else None
  }

  /** The digits without the single underscores that may group them. */
  function Ungrouped(s: string): Option<string> {
    if s == [] then Some([])
    else if s[0] == '_' then None
    else
      var rest := Ungrouped(if |s| > 2 && s[1] == '_' then s[2..] else s[1..]);
      if rest.Some? then Some([s[0]] + rest.value) else None
  }

  /** A literal with its own base, as in `int(text, 0)`: decimal, or hexadecimal, octal or binary by its prefix. */
  function ParseLiteral(s: string): Option<nat> {
    var prefixed := |s| > 2 && s[0] == '0' && PrefixBase(s[1]).Some?;
    var base := if prefixed then PrefixBase(s[1]).value else 10;
    var digits := Ungrouped(if !prefixed then s else if s[2] == '_' then s[3..] else s[2..]);
    if digits.None? then None
    else
      var n := ParseDigits(digits.value, base);
      if !prefixed && n.Some? && s[0] == '0' && n.value != 0 then None else n
  }

  lemma {:induction false} UngroupedDigits(s: string)
    requires '_' !in s
    ensures Ungrouped(s) == Some(s)
  {
    if s != [] {
      assert |s| > 1 ==> s[1] in s;
      UngroupedDigits(s[1..]);
      assert s == [s[0]] + s[1..];
    }
  }

  lemma {:induction false} NoUnderscore(n: nat, base: nat)
    requires 2 <= base <= 16
    ensures '_' !in Digits(n, base)
    decreases n
  {
    if n >= base {
      Division(n, base);
      NoUnderscore(n / base, base);
    }
  }

  lemma HexRoundTrip(n: nat)
    ensures ParseLiteral(Hex(n)) == Some(n)
  {
    DigitsRoundTrip(n, 16);
    NoUnderscore(n, 16);
    UngroupedDigits(Digits(n, 16));
    assert Hex(n)[2..] == Digits(n, 16);
    assert Digits(n, 16)[0] in Digits(n, 16);
  }
}
