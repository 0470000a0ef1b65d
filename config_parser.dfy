/** The part of Python's `configparser` that the PostgreSQL backend relies on:
    a parsed configuration as section -> option -> string value, item lookup
    (`cp[section][option]`), and `getint` with a fallback. Option names are
    taken to be normalised already; the DEFAULT section and interpolation are
    not part of this model. */
module ConfigParser {

  type Section = map<string, string>
  type ParsedConfig = map<string, Section>

  datatype Option<T> = None | Some(value: T)

  datatype Result<T, E> = Ok(value: T) | Err(error: E)

  /** The exceptions the lookups raise: `KeyError(key)` for a missing section
      or option, `ValueError(literal)` for a value `int()` rejects. */
  datatype ConfigError =
    | KeyError(key: string)
    | ValueError(literal: string)

  // ---------------------------------------------------------------------------
  // Item lookup: cp[section][option]
  // ---------------------------------------------------------------------------

  /** `cp[section][option]`: the section is looked up first, so a missing
      section is reported before anything about the option. */
  function Lookup(cp: ParsedConfig, section: string, option: string): (r: Result<string, ConfigError>)
    ensures r.Ok? <==> section in cp && option in cp[section]
    ensures r.Ok? ==> r.value == cp[section][option]
    ensures section !in cp ==> r == Err(KeyError(section))
    ensures section in cp && option !in cp[section] ==> r == Err(KeyError(option))
  {
    if section !in cp then Err(KeyError(section))
    else if option !in cp[section] then Err(KeyError(option))
    else Ok(cp[section][option])
  }

  // ---------------------------------------------------------------------------
  // Integer literals: the part of int() that getint uses
  // ---------------------------------------------------------------------------

  predicate IsDigit(c: char) { '0' <= c <= '9' }

  predicate AllDigits(s: string) { forall i :: 0 <= i < |s| ==> IsDigit(s[i]) }

  predicate HasSign(s: string) { |s| > 0 && (s[0] == '+' || s[0] == '-') }

  /** The digits after an optional leading sign. */
  function Magnitude(s: string): string
  {
    if HasSign(s) then s[1..] else s
  }

  /** A base-10 integer literal: an optional sign followed by at least one digit. */
  predicate IsIntLiteral(s: string)
  {
    |Magnitude(s)| > 0 && AllDigits(Magnitude(s))
  }

  function DigitValue(c: char): (d: nat)
    requires IsDigit(c)
    ensures d < 10
  {
    (c as int) - ('0' as int)
  }

  function DigitChar(d: nat): (c: char)
    requires d < 10
    ensures IsDigit(c) && DigitValue(c) == d
  {
    ('0' as int + d) as char
  }

  /** The value of a digit string read most significant digit first. */
  function DigitsValue(s: string): nat
    requires AllDigits(s)
  {
    if s == [] then 0 else DigitsValue(s[..|s| - 1]) * 10 + DigitValue(s[|s| - 1])
  }

  /** `int(s)`: defined exactly on integer literals. */
  function ParseInt(s: string): (r: Option<int>)
    ensures r.Some? <==> IsIntLiteral(s)
    ensures r.Some? && s[0] == '-' ==> r.value <= 0
    ensures r.Some? && s[0] != '-' ==> r.value >= 0
  {
    if !IsIntLiteral(s) then None
    else if s[0] == '-' then Some(-(DigitsValue(Magnitude(s)) as int))
    else Some(DigitsValue(Magnitude(s)))
  }

  /** The canonical decimal spelling of a natural number: no leading zero. */
  function NatToDecimal(n: nat): (s: string)
    ensures |s| > 0 && AllDigits(s)
    ensures |s| > 1 ==> s[0] != '0'
  {
    if n < 10 then [DigitChar(n)] else NatToDecimal(n / 10) + [DigitChar(n % 10)]
  }

  /** `str(n)` for an int. */
  function IntToString(n: int): (s: string)
    ensures IsIntLiteral(s)
    ensures (s[0] == '-') <==> n < 0
  {
    if n < 0 then "-" + NatToDecimal(-n) else NatToDecimal(n)
  }

  lemma {:induction false} DigitsValueOfDecimal(n: nat)
    ensures DigitsValue(NatToDecimal(n)) == n
  {
    if n >= 10 {
      var prefix := NatToDecimal(n / 10);
      var s := prefix + [DigitChar(n % 10)];
      assert s[..|s| - 1] == prefix;
      DigitsValueOfDecimal(n / 10);
    }
  }

  /** Every int written out by `str` reads back as itself. */
  lemma {:induction false} ParseIntToString(n: int)
    ensures ParseInt(IntToString(n)) == Some(n)
  {
    var s := IntToString(n);
    if n < 0 {
      assert Magnitude(s) == NatToDecimal(-n);
      DigitsValueOfDecimal(-n);
    } else {
      DigitsValueOfDecimal(n);
    }
  }

  /** A leading zero does not change the value of a digit string. */
  lemma {:induction false} DigitsValueLeadingZero(d: string)
    requires AllDigits(d)
    ensures AllDigits("0" + d) && DigitsValue("0" + d) == DigitsValue(d)
  {
    if d != [] {
      var s := "0" + d;
      assert s[..|s| - 1] == "0" + d[..|d| - 1];
      DigitsValueLeadingZero(d[..|d| - 1]);
    }
  }

  /** `int()` reads a literal with leading zeros as the same number. */
  lemma ParseIntLeadingZero(d: string)
    requires |d| > 0 && AllDigits(d)
    ensures ParseInt("0" + d) == ParseInt(d)
  {
    assert Magnitude("0" + d) == "0" + d;
    DigitsValueLeadingZero(d);
  }

  /** `int()` reads a literal with an explicit plus sign as the same number. */
  lemma ParseIntPlusSign(d: string)
    requires |d| > 0 && AllDigits(d)
    ensures ParseInt("+" + d) == ParseInt(d)
  {
  }

  // ---------------------------------------------------------------------------
  // getint(section, option, fallback=...)
  // ---------------------------------------------------------------------------

  /** `cp.getint(section, option, fallback=fallback)`: the fallback replaces
      only a missing section or option; a value that is present but is not an
      integer literal raises ValueError. */
  function GetInt(cp: ParsedConfig, section: string, option: string, fallback: int): (r: Result<int, ConfigError>)
    ensures section !in cp || option !in cp[section] ==> r == Ok(fallback)
    ensures section in cp && option in cp[section] ==>
              (r.Ok? <==> IsIntLiteral(cp[section][option]))
    ensures section in cp && option in cp[section] && r.Ok? ==>
              ParseInt(cp[section][option]) == Some(r.value)
    ensures r.Err? ==>
              section in cp && option in cp[section] &&
              r.error == ValueError(cp[section][option])
  {
    match Lookup(cp, section, option)
    case Err(_) => Ok(fallback)
    case Ok(literal) =>
      match ParseInt(literal)
      case None => Err(ValueError(literal))
      case Some(v) => Ok(v)
  }
}
