/**
 * The scalar conversions the SDK and the example server share: Python's
 * `int(value)` on the modelled values and the boolean word sets
 * (`true`/`1`/`yes`/`y` and `false`/`0`/`no`/`n`, trimmed and
 * case-insensitive, anything else by truthiness).
 */
module Coercions {
  import opened Wrappers
  import opened Values

  predicate IsDigit(c: char)
  {
    '0' <= c <= '9'
  }

  /**
   * A decimal numeral as `int()` accepts it: digits, with single
   * underscores allowed between two digits.
   */
  predicate IsNumeral(s: string)
  {
    s != [] && IsDigit(s[0]) && IsDigit(s[|s| - 1])
    && (forall i :: 0 <= i < |s| ==> IsDigit(s[i]) || s[i] == '_')
    && (forall i :: 0 <= i < |s| - 1 ==> !(s[i] == '_' && s[i + 1] == '_'))
  }

  /** The value of the digits of `s`, underscores skipped. */
  function NumeralValue(s: string): nat
  {
    if s == [] then 0
    else if IsDigit(s[|s| - 1]) then NumeralValue(s[..|s| - 1]) * 10 + (s[|s| - 1] as int - '0' as int)
    else NumeralValue(s[..|s| - 1])
  }

  /** `int(s)` for a string already stripped: an optional sign, then a numeral. */
  function ParseIntLiteral(s: string): Option<int>
  {
    if s != [] && (s[0] == '-' || s[0] == '+') then
      var n: int := NumeralValue(s[1..]);
      if IsNumeral(s[1..]) then Some(if s[0] == '-' then -n else n) else None
    else if IsNumeral(s) then Some(NumeralValue(s))
    else None
  }

  /**
   * `int(value)` for a value other than None: an int is itself, a bool is
   * 0 or 1, and a string is parsed after stripping whitespace (None: the
   * ValueError `int()` raises).
   */
  function PyInt(v: Value): Option<int>
  {
    match v
    case Null => None
    case Int(i) => Some(i)
    case Bool(b) => Some(if b then 1 else 0)
    case Str(s) => ParseIntLiteral(Strip(s))
  }

  lemma {:induction false} NatToStringIsNumeral(n: nat)
    ensures IsNumeral(NatToString(n)) && NumeralValue(NatToString(n)) == n
    ensures forall i :: 0 <= i < |NatToString(n)| ==> IsDigit(NatToString(n)[i])
    decreases n
  {
    var s := NatToString(n);
    if n >= 10 {
      NatToStringIsNumeral(n / 10);
      var init := NatToString(n / 10);
      assert s == init + [DigitChar(n % 10)];
      assert s[..|s| - 1] == init;
    }
  }

  /** Stripping leaves a string alone when it neither starts nor ends with a blank. */
  lemma StripNoop(s: string)
    requires s != [] && !IsSpace(s[0]) && !IsSpace(s[|s| - 1])
    ensures Strip(s) == s
  {
    assert StripLeft(s) == s;
  }

  /** `int(str(i)) == i`: printing an integer and parsing it back gives it again. */
  lemma IntRoundTrip(i: int)
    ensures PyInt(Str(IntToString(i))) == Some(i)
  {
    if i < 0 {
      NatToStringIsNumeral(-i);
      SignedNumeral(NatToString(-i), -i);
    } else {
      NatToStringIsNumeral(i);
      UnsignedNumeral(NatToString(i), i);
    }
  }

  lemma UnsignedNumeral(t: string, n: nat)
    requires IsNumeral(t) && NumeralValue(t) == n
    ensures PyInt(Str(t)) == Some(n)
  {
    StripNoop(t);
  }

  lemma SignedNumeral(t: string, n: nat)
    requires IsNumeral(t) && NumeralValue(t) == n
    ensures PyInt(Str("-" + t)) == Some(0 - n)
  {
    var s := "-" + t;
    assert s[1..] == t;
    assert s[|s| - 1] == t[|t| - 1];
    StripNoop(s);
  }

  /** A string that does not start with a sign or a digit is not a number. */
  lemma NotANumber(s: string)
    requires s != [] && !IsSpace(s[0]) && !IsSpace(s[|s| - 1]) && !IsDigit(s[0]) && s[0] != '-' && s[0] != '+'
    ensures PyInt(Str(s)) == None
  {
    StripNoop(s);
  }

  const TrueWords: set<string> := {"true", "1", "yes", "y"}
  const FalseWords: set<string> := {"false", "0", "no", "n"}

  /**
   * The BOOLEAN conversion: a bool is itself; a string whose trimmed,
   * lower-cased form is a true or false word is that; anything else by
   * truthiness.
   */
  function CoerceBool(v: Value): (r: bool)
    ensures v.Bool? ==> r == v.b
    ensures v.Str? && Lower(Strip(v.s)) in TrueWords ==> r
    ensures v.Str? && Lower(Strip(v.s)) in FalseWords ==> !r
    ensures !v.Bool? && !(v.Str? && Lower(Strip(v.s)) in TrueWords + FalseWords) ==> r == Truthy(v)
  {
    match v
    case Bool(b) => b
    case Str(s) =>
      var n := Lower(Strip(s));
      if n in TrueWords then true else if n in FalseWords then false else Truthy(v)
    case _ => Truthy(v)
  }

  /** Stripping on the right keeps a prefix. */
  lemma {:induction false} StripRightPrefix(s: string)
    ensures StripRight(s) == s[..|StripRight(s)|]
  {
    if s != [] && IsSpace(s[|s| - 1]) {
      StripRightPrefix(s[..|s| - 1]);
    }
  }

  /** A stripped string neither starts nor ends with a blank. */
  lemma StripEnds(s: string)
    ensures Strip(s) == [] || (!IsSpace(Strip(s)[0]) && !IsSpace(Strip(s)[|Strip(s)| - 1]))
  {
    StripRightPrefix(StripLeft(s));
  }

  /** Trimming and lower-casing a second time changes nothing. */
  lemma NormalizeIdempotent(s: string)
    ensures Lower(Strip(Lower(Strip(s)))) == Lower(Strip(s))
  {
    var x := Strip(s);
    var n := Lower(x);
    if x != [] {
      StripEnds(s);
      StripNoop(n);
    }
    assert Lower(n) == n;
  }

  /**
   * Letter case and surrounding blanks do not matter: a string converts as
   * its trimmed, lower-cased form does, except that a non-empty string of
   * blanks is true (it is truthy, while its trimmed form is empty).
   */
  lemma CoerceBoolNormalizes(s: string)
    ensures (s == [] || Strip(s) != []) ==> CoerceBool(Str(s)) == CoerceBool(Str(Lower(Strip(s))))
    ensures s != [] && Strip(s) == [] ==> CoerceBool(Str(s))
  {
    NormalizeIdempotent(s);
  }
}
