/** `float(price)` as the ranker and the validator use it, restricted to plain
    decimal text: an optional sign, digits, and an optional fraction. Python's
    surrounding whitespace, digit underscores, exponents, "inf" and "nan" are
    not accepted here (they are treated as unparsable). Values are exact reals
    rather than binary64 floats, so overflow to infinity, underflow to zero and
    rounding are not modelled. */
module Price {
  import opened Common

  predicate IsDigit(c: char) {
    '0' <= c <= '9'
  }

  predicate AllDigits(s: string) {
    forall i :: 0 <= i < |s| ==> IsDigit(s[i])
  }

  /** The number written by a string of decimal digits. */
  function DigitsValue(s: string): nat
    requires AllDigits(s)
  {
    if s == [] then 0
    else DigitsValue(s[..|s| - 1]) * 10 + (s[|s| - 1] as int - '0' as int)
  }

  function Pow10(n: nat): (p: nat)
    ensures p >= 1
  {
    if n == 0 then 1 else 10 * Pow10(n - 1)
  }

  /** Position of the first `c` in `s`. */
  function IndexOf(s: string, c: char): (r: Option<nat>)
    ensures r.Some? ==> r.value < |s| && s[r.value] == c && c !in s[..r.value]
    ensures r.None? ==> c !in s
  {
    if s == [] then None
    else if s[0] == c then Some(0)
    else match IndexOf(s[1..], c)
      case None => None
      case Some(i) =>
        assert s[..i + 1] == [s[0]] + s[1..][..i];
        Some(i + 1)
  }

  /** An unsigned decimal: digits, or digits '.' digits with at least one digit
      on either side of the point. */
  function ParseUnsigned(s: string): (r: Option<real>)
    ensures r.Some? ==> r.value >= 0.0
  {
    match IndexOf(s, '.')
    case None =>
      if s != [] && AllDigits(s) then Some(DigitsValue(s) as real) else None
    case Some(i) =>
      var whole, frac := s[..i], s[i + 1..];
      if |whole| + |frac| > 0 && AllDigits(whole) && AllDigits(frac)
      then Some(DigitsValue(whole) as real + DigitsValue(frac) as real / Pow10(|frac|) as real)
      else None
  }

  /** `float(s)`, or `None` where Python raises `ValueError`. */
  function ParsePrice(s: string): (r: Option<real>)
    ensures r.Some? && r.value < 0.0 ==> s != [] && s[0] == '-'
  {
    if s != [] && s[0] == '-' then
      match ParseUnsigned(s[1..])
      case None => None
      case Some(v) => Some(-v)
    else if s != [] && s[0] == '+' then ParseUnsigned(s[1..])
    else ParseUnsigned(s)
  }

  /** The decimal text of a natural number, as `str(n)` writes it. */
  function NatText(n: nat): (s: string)
    ensures s != [] && AllDigits(s) && '.' !in s && s[0] != '-' && s[0] != '+'
  {
    var d := [('0' as int + n % 10) as char];
    if n < 10 then d else NatText(n / 10) + d
  }

  lemma {:induction false} DigitsValueOfNatText(n: nat)
    ensures DigitsValue(NatText(n)) == n
  {
    var d := [('0' as int + n % 10) as char];
    if n >= 10 {
      DigitsValueOfNatText(n / 10);
      assert (NatText(n / 10) + d)[..|NatText(n)| - 1] == NatText(n / 10);
    }
  }

  /** Every whole number written in decimal parses back to itself. */
  lemma ParseNatText(n: nat)
    ensures ParsePrice(NatText(n)) == Some(n as real)
  {
    DigitsValueOfNatText(n);
  }

  /** Negative prices parse to the negation of their magnitude. */
  lemma {:induction false} ParseNegated(s: string)
    requires ParseUnsigned(s).Some?
    ensures ParsePrice("-" + s) == Some(-ParseUnsigned(s).value)
  {
    assert ("-" + s)[1..] == s;
  }

  lemma ParseZero()
    ensures ParsePrice("0") == Some(0.0)
  {
    assert "0"[..0] == [];
  }
}
