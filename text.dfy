/** String helpers with JavaScript semantics: `String.prototype.trim`,
    the `/\/$/` replacement, integer-to-string conversion and `Array.prototype.join`. */
module Text {

  /** The characters `String.prototype.trim` removes: ECMAScript WhiteSpace
      (tab, vertical tab, form feed, space, no-break space, byte order mark and
      every Unicode space separator) and LineTerminator (LF, CR, U+2028, U+2029). */
  predicate IsWhitespace(c: char) {
    c == '\t' || c == '\n' || c == '\U{B}' || c == '\U{C}' || c == '\r' || c == ' '
    || c == '\U{A0}' || c == '\U{1680}' || ('\U{2000}' <= c <= '\U{200A}')
    || c == '\U{2028}' || c == '\U{2029}' || c == '\U{202F}' || c == '\U{205F}'
    || c == '\U{3000}' || c == '\U{FEFF}'
  }

  /** Drops leading whitespace. */
  function TrimStart(s: string): (r: string)
    ensures |r| <= |s| && r == s[|s| - |r|..]
    ensures forall i :: 0 <= i < |s| - |r| ==> IsWhitespace(s[i])
    ensures r == [] || !IsWhitespace(r[0])
  {
    if s != [] && IsWhitespace(s[0]) then TrimStart(s[1..]) else s
  }

  /** Drops trailing whitespace. */
  function TrimEnd(s: string): (r: string)
    ensures |r| <= |s| && r == s[..|r|]
    ensures forall i :: |r| <= i < |s| ==> IsWhitespace(s[i])
    ensures r == [] || !IsWhitespace(r[|r| - 1])
  {
    if s != [] && IsWhitespace(s[|s| - 1]) then TrimEnd(s[..|s| - 1]) else s
  }

  /** `s.trim()`: the longest infix of `s` that neither starts nor ends with whitespace,
      obtained by removing whitespace only. */
  function Trim(s: string): (r: string)
    ensures var i := |s| - |TrimStart(s)|;
      && 0 <= i <= i + |r| <= |s| && r == s[i..i + |r|]
      && (forall k :: 0 <= k < i ==> IsWhitespace(s[k]))
      && (forall k :: i + |r| <= k < |s| ==> IsWhitespace(s[k]))
    ensures r == [] || (!IsWhitespace(r[0]) && !IsWhitespace(r[|r| - 1]))
  {
    var t := TrimStart(s);
    var r := TrimEnd(t);
    assert r == s[|s| - |t|..|s| - |t| + |r|];
    r
  }

  /** A string that is all whitespace trims to the empty string, and only such a string does. */
  lemma {:induction false} TrimEmptyIffBlank(s: string)
    ensures Trim(s) == [] <==> forall k :: 0 <= k < |s| ==> IsWhitespace(s[k])
  {
    if Trim(s) != [] {
      var r := Trim(s);
      var i := |s| - |TrimStart(s)|;
      assert s[i] == r[0];
    }
  }

  /** Trimming twice is trimming once. */
  lemma {:induction false} TrimIdempotent(s: string)
    ensures Trim(Trim(s)) == Trim(s)
  {
    var r := Trim(s);
    TrimStartNoop(r);
    TrimEndNoop(r);
  }

  lemma TrimStartNoop(s: string)
    requires s == [] || !IsWhitespace(s[0])
    ensures TrimStart(s) == s
  {
  }

  lemma TrimEndNoop(s: string)
    requires s == [] || !IsWhitespace(s[|s| - 1])
    ensures TrimEnd(s) == s
  {
  }

  /** `s.replace(/\/$/, "")`: removes one trailing slash, if there is one. */
  function StripTrailingSlash(s: string): (r: string)
    ensures s != [] && s[|s| - 1] == '/' ==> s == r + "/"
    ensures (s == [] || s[|s| - 1] != '/') ==> r == s
  {
    if s != [] && s[|s| - 1] == '/' then s[..|s| - 1] else s
  }

  function DigitChar(d: nat): (c: char)
    requires d < 10
    ensures '0' <= c <= '9'
  {
    ('0' as int + d) as char
  }

  /** Decimal digits of `n`, most significant first, without leading zeros. */
  function NatToDecimal(n: nat): (s: string)
    ensures |s| >= 1 && (forall i :: 0 <= i < |s| ==> '0' <= s[i] <= '9')
    ensures s[0] == '0' ==> n == 0
  {
    if n < 10 then [DigitChar(n)] else NatToDecimal(n / 10) + [DigitChar(n % 10)]
  }

  /** The number a string of decimal digits denotes, most significant digit first. */
  function DecimalValue(s: string): nat
    requires forall i :: 0 <= i < |s| ==> '0' <= s[i] <= '9'
  {
    if s == [] then 0 else 10 * DecimalValue(s[..|s| - 1]) + (s[|s| - 1] as int - '0' as int)
  }

  /** The digits `NatToDecimal` writes denote `n` again. */
  lemma {:induction false} NatToDecimalValue(n: nat)
    ensures DecimalValue(NatToDecimal(n)) == n
  {
    if n >= 10 {
      var s := NatToDecimal(n);
      assert s[..|s| - 1] == NatToDecimal(n / 10);
      NatToDecimalValue(n / 10);
    }
  }

  /** `${n}` denotes `n`: its digits read back give `|n|`, after a minus exactly for a negative `n`. */
  lemma IntToStringValue(n: int)
    ensures n >= 0 ==> DecimalValue(IntToString(n)) == n
    ensures n < 0 ==> IntToString(n)[0] == '-' && DecimalValue(IntToString(n)[1..]) == -n
  {
    if n >= 0 {
      NatToDecimalValue(n);
    } else {
      assert IntToString(n)[1..] == NatToDecimal(-n);
      NatToDecimalValue(-n);
    }
  }

  /** `${n}` for an integer `n` (plain decimal, a leading minus for negatives). */
  function IntToString(n: int): (s: string)
    ensures |s| >= 1
    ensures n >= 0 <==> s[0] != '-'
    ensures s[0] == '-' || '0' <= s[0] <= '9'
  {
    if n < 0 then "-" + NatToDecimal(-n) else NatToDecimal(n)
  }

  /** `parts.join(sep)`. */
  function Join(parts: seq<string>, sep: string): (r: string)
    ensures parts == [] ==> r == ""
    ensures |parts| == 1 ==> r == parts[0]
  {
    if parts == [] then "" else if |parts| == 1 then parts[0] else parts[0] + sep + Join(parts[1..], sep)
  }
}
