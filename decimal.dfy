/** How JavaScript renders an integral number inside a template literal
    (`${n}`): an optional minus sign and the decimal digits without leading
    zeros. Parse is its inverse, used to state what a rendered string says. */
module Decimal {
  import opened Types

  predicate IsDigit(c: char)
  {
    '0' <= c <= '9'
  }

  predicate AllDigits(s: string)
  {
    forall i :: 0 <= i < |s| ==> IsDigit(s[i])
  }

  function DigitChar(d: nat): (c: char)
    requires d < 10
    ensures IsDigit(c) && c as int - '0' as int == d
  {
    ('0' as int + d) as char
  }

  function DigitValue(c: char): nat
    requires IsDigit(c)
  {
    c as int - '0' as int
  }

  /** The digits of n, most significant first. */
  function ShowNat(n: nat): (s: string)
    ensures 0 < |s| && AllDigits(s)
  {
    if n < 10 then [DigitChar(n)] else ShowNat(n / 10) + [DigitChar(n % 10)]
  }

  function Show(n: int): (s: string)
    ensures 0 < |s|
  {
    if n < 0 then "-" + ShowNat(-n) else ShowNat(n)
  }

  function ParseNat(s: string): nat
    requires 0 < |s| && AllDigits(s)
    decreases |s|
  {
    if |s| == 1 then DigitValue(s[0])
    else 10 * ParseNat(s[..|s| - 1]) + DigitValue(s[|s| - 1])
  }

  /** Reads back an optionally signed decimal numeral. */
  function Parse(s: string): Option<int>
  {
    if 0 < |s| && s[0] == '-' then
      if 1 < |s| && AllDigits(s[1..]) then Some(-(ParseNat(s[1..]) as int)) else None
    else if 0 < |s| && AllDigits(s) then Some(ParseNat(s))
    else None
  }

  lemma {:induction false} ParseShowNat(n: nat)
    ensures ParseNat(ShowNat(n)) == n
  {
    if n >= 10 {
      var s := ShowNat(n);
      assert s[..|s| - 1] == ShowNat(n / 10);
      ParseShowNat(n / 10);
    }
  }

  /** Rendering loses nothing: the numeral reads back as the number. */
  lemma ParseShow(n: int)
    ensures Parse(Show(n)) == Some(n)
  {
    if n < 0 {
      assert Show(n)[1..] == ShowNat(-n);
      ParseShowNat(-n);
    } else {
      ParseShowNat(n);
    }
  }

  /** Distinct numbers render as distinct strings, also behind a common prefix. */
  lemma ShowInjective(prefix: string, m: int, n: int)
    ensures prefix + Show(m) == prefix + Show(n) <==> m == n
  {
    if prefix + Show(m) == prefix + Show(n) {
      assert (prefix + Show(m))[|prefix|..] == Show(m);
      assert (prefix + Show(n))[|prefix|..] == Show(n);
      ParseShow(m);
      ParseShow(n);
    }
  }
}
