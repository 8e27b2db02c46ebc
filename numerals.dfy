/** Rendering of unsigned integers as digit strings, as `std::to_string`
    (base 10) and a stream in `std::hex` mode (base 16: lower-case digits, no
    padding, no base prefix) produce them. `Parse` is the reading back that
    shows a rendering loses nothing. */
module Numerals {

  /** The digit character for `d`: '0'..'9', then 'a'..'f'. */
  function DigitChar(d: nat): (c: char)
    requires d < 16
  {
    if d < 10 then ('0' as int + d) as char else ('a' as int + (d - 10)) as char
  }

  /** The value of a lower-case digit character; 16 for any other character. */
  function DigitValue(c: char): nat
  {
    if '0' <= c <= '9' then c as int - '0' as int
    else if 'a' <= c <= 'f' then c as int - 'a' as int + 10
    else 16
  }

  predicate IsDigit(c: char, base: nat)
  {
    DigitValue(c) < base
  }

  lemma DigitRoundTrip(d: nat)
    requires d < 16
    ensures DigitValue(DigitChar(d)) == d
  {
  }

  /** Euclidean division facts the renderer relies on, kept in one place. */
  lemma DivMod(n: nat, base: nat)
    requires 2 <= base
    ensures n == (n / base) * base + n % base
    ensures 0 <= n % base < base
    ensures n >= base ==> 1 <= n / base < n
  {
  }

  /** `n` written in `base` with the most significant digit first. */
  function Render(n: nat, base: nat): (s: string)
    requires 2 <= base <= 16
    ensures |s| >= 1
    ensures forall i :: 0 <= i < |s| ==> IsDigit(s[i], base)
    ensures s[0] == '0' ==> n == 0
    decreases n
  {
    DivMod(n, base);
    if n < base then [DigitChar(n)] else Render(n / base, base) + [DigitChar(n % base)]
  }

  /** The value of a digit string in `base`, most significant digit first. */
  function Parse(s: string, base: nat): nat
  {
    if s == [] then 0
    else Parse(s[..|s| - 1], base) * base + DigitValue(s[|s| - 1])
  }

  /** Rendering is lossless: reading the digits back gives the number. */
  lemma {:induction false} ParseRender(n: nat, base: nat)
    requires 2 <= base <= 16
    ensures Parse(Render(n, base), base) == n
    decreases n
  {
    var s := Render(n, base);
    DivMod(n, base);
    DigitRoundTrip(n % base);
    if n < base {
      assert s[..|s| - 1] == [];
    } else {
      ParseRender(n / base, base);
      assert s[..|s| - 1] == Render(n / base, base);
    }
  }

  /** Different numbers render differently in the same base. */
  lemma RenderInjective(m: nat, n: nat, base: nat)
    requires 2 <= base <= 16
    requires Render(m, base) == Render(n, base)
    ensures m == n
  {
    ParseRender(m, base);
    ParseRender(n, base);
  }
}
