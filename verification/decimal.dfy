/** Numeric strings accepted for a record's average. A numeric string is an
    optional minus sign, one or more digits, and optionally a point followed
    by one or more digits ("4.25", "-3", "0.5"). Its value is kept exactly,
    as a `real` that stands in for the `double` the record stores. */
module Decimal {
  import opened Results

  predicate IsDigit(c: char)
  {
    '0' <= c <= '9'
  }

  predicate AllDigits(s: string)
  {
    forall i :: 0 <= i < |s| ==> IsDigit(s[i])
  }

  function DigitValue(c: char): (d: nat)
    requires IsDigit(c)
    ensures d < 10
  {
    c as int - '0' as int
  }

  /** The value of a digit string read as a decimal integer. */
  function DigitsValue(s: string): nat
    requires AllDigits(s)
  {
    if s == [] then 0 else DigitsValue(s[..|s| - 1]) * 10 + DigitValue(s[|s| - 1])
  }

  function Pow10(n: nat): (p: nat)
    ensures p > 0
  {
    if n == 0 then 1 else 10 * Pow10(n - 1)
  }

  /** The index of the first '.' in `s`, or `|s|` when there is none. */
  function DotIndex(s: string): (k: nat)
    ensures k <= |s|
    ensures forall i :: 0 <= i < k ==> s[i] != '.'
    ensures k < |s| ==> s[k] == '.'
  {
    if s == [] then 0 else if s[0] == '.' then 0 else 1 + DotIndex(s[1..])
  }

  /** The value of the integer digits `ip` followed by the fraction digits `fp`. */
  function DecimalValue(ip: string, fp: string): real
    requires AllDigits(ip) && AllDigits(fp)
  {
    DigitsValue(ip) as real + DigitsValue(fp) as real / Pow10(|fp|) as real
  }

  function Signed(negative: bool, v: real): real
  {
    if negative then -v else v
  }

  /** Reads a numeric string without its sign. */
  function ParseUnsigned(s: string): Option<real>
  {
    var k := DotIndex(s);
    var ip := s[..k];
    if ip == [] || !AllDigits(ip) then None
    else if k == |s| then Some(DigitsValue(ip) as real)
    else
      var fp := s[k + 1..];
      if fp == [] || !AllDigits(fp) then None
      else Some(DecimalValue(ip, fp))
  }

  /** Reads a numeric string, or reports that `s` is not one. */
  function ParseDecimal(s: string): Option<real>
  {
    if |s| > 0 && s[0] == '-' then
      match ParseUnsigned(s[1..])
      case Some(v) => Some(-v)
      case None => None
    else ParseUnsigned(s)
  }

  /** The numeric string with the given integer digits and fraction digits
      and no sign; an empty fraction is written without a point. */
  function UnsignedText(ip: string, fp: string): string
  {
    if fp == [] then ip else ip + "." + fp
  }

  /** The numeric string with the given sign, integer digits and fraction digits. */
  function DecimalText(negative: bool, ip: string, fp: string): string
  {
    if negative then "-" + UnsignedText(ip, fp) else UnsignedText(ip, fp)
  }

  lemma {:induction false} DotIndexAfterDigits(ip: string, rest: string)
    requires AllDigits(ip)
    ensures DotIndex(ip + rest) == |ip| + DotIndex(rest)
  {
    if ip != [] {
      assert (ip + rest)[1..] == ip[1..] + rest;
      DotIndexAfterDigits(ip[1..], rest);
    } else {
      assert ip + rest == rest;
    }
  }

  lemma UnsignedOfText(ip: string, fp: string)
    requires ip != [] && AllDigits(ip) && AllDigits(fp)
    ensures ParseUnsigned(UnsignedText(ip, fp)) == Some(DecimalValue(ip, fp))
  {
    var t := UnsignedText(ip, fp);
    if fp == [] {
      DotIndexAfterDigits(ip, "");
      assert ip + "" == ip;
      assert t[..|ip|] == ip;
    } else {
      DotIndexAfterDigits(ip, "." + fp);
      assert t == ip + ("." + fp);
      assert t[..|ip|] == ip;
      assert t[|ip| + 1..] == fp;
    }
  }

  /** Every numeric string reads back as the value it spells. */
  lemma ParseDecimalOfText(negative: bool, ip: string, fp: string)
    requires ip != [] && AllDigits(ip) && AllDigits(fp)
    ensures ParseDecimal(DecimalText(negative, ip, fp)) == Some(Signed(negative, DecimalValue(ip, fp)))
  {
    var t := UnsignedText(ip, fp);
    UnsignedOfText(ip, fp);
    if negative {
      assert ("-" + t)[1..] == t;
    } else {
      assert t[0] == ip[0] && IsDigit(ip[0]);
    }
  }

  lemma UnsignedIsText(s: string, v: real) returns (ip: string, fp: string)
    requires ParseUnsigned(s) == Some(v)
    ensures ip != [] && AllDigits(ip) && AllDigits(fp)
    ensures s == UnsignedText(ip, fp) && v == DecimalValue(ip, fp)
  {
    var k := DotIndex(s);
    ip := s[..k];
    if k == |s| {
      fp := "";
      assert s == ip;
      assert DigitsValue(fp) == 0;
    } else {
      fp := s[k + 1..];
      assert fp != [] && AllDigits(fp);
      assert s == ip + "." + fp;
    }
  }

  /** Only numeric strings are read: whatever `ParseDecimal` accepts is
      written as `DecimalText` of some sign and digit strings, and its value
      is the value those spell. */
  lemma ParsedIsText(s: string, v: real)
    requires ParseDecimal(s) == Some(v)
    ensures exists negative: bool, ip: string, fp: string ::
      ip != [] && AllDigits(ip) && AllDigits(fp) &&
      s == DecimalText(negative, ip, fp) && v == Signed(negative, DecimalValue(ip, fp))
  {
    var negative := |s| > 0 && s[0] == '-';
    var body := if negative then s[1..] else s;
    var u := if negative then -v else v;
    assert ParseUnsigned(body) == Some(u);
    var ip, fp := UnsignedIsText(body, u);
    if negative {
      assert s == "-" + body;
    }
    assert s == DecimalText(negative, ip, fp);
  }
}
