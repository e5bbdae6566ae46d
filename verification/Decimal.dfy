/** strconv: decimal text of an integer and back. */
module Decimal {
  import opened Wrappers

  function Digit(d: nat): char
    requires d < 10
  {
    ('0' as int + d) as char
  }

  function FormatNat(n: nat): string {
    if n < 10 then [Digit(n)] else FormatNat(n / 10) + [Digit(n % 10)]
  }

  function FormatInt(n: int): string {
    if n < 0 then "-" + FormatNat(-n) else FormatNat(n)
  }

  /** One or more decimal digits, most significant first. */
  function ParseDigits(s: string): Option<nat> {
    if s == [] || !('0' <= s[|s| - 1] <= '9') then None
    else
      var last := s[|s| - 1] as int - '0' as int;
      if |s| == 1 then Some(last)
      else match ParseDigits(s[..|s| - 1])
        case None => None
        case Some(high) => Some(high * 10 + last)
  }

  /** Two to the power bits - 1. */
  function Limit(bits: nat): (n: int)
    ensures 1 <= n && (3 <= bits ==> 4 <= n)
  {
    if bits <= 1 then 1 else 2 * Limit(bits - 1)
  }

  /** An optional sign, digits, and a value that fits the signed width. */
  function ParseInt(s: string, bits: nat): (r: Option<int>)
    ensures r.Some? ==> -Limit(bits) <= r.value < Limit(bits)
  {
    var negative := s != [] && s[0] == '-';
    var digits := ParseDigits(if s != [] && (s[0] == '-' || s[0] == '+') then s[1..] else s);
    if digits.None? then None
    else
      var n: int := if negative then -(digits.value as int) else digits.value;
      if -Limit(bits) <= n < Limit(bits) then Some(n) else None
  }

  lemma {:induction false} ParseFormatNat(n: nat)
    ensures ParseDigits(FormatNat(n)) == Some(n)
    ensures forall i :: 0 <= i < |FormatNat(n)| ==> '0' <= FormatNat(n)[i] <= '9'
    ensures FormatNat(n) != []
  {
    if 10 <= n {
      ParseFormatNat(n / 10);
      assert FormatNat(n)[..|FormatNat(n)| - 1] == FormatNat(n / 10);
    }
  }

  /** Different numbers are written differently. */
  lemma FormatIsOneToOne(a: int, b: int)
    requires FormatInt(a) == FormatInt(b)
    ensures a == b
  {
    hide FormatNat, ParseDigits;
    ParseFormatNat(if a < 0 then -a else a);
    ParseFormatNat(if b < 0 then -b else b);
    assert (a < 0 <==> FormatInt(a)[0] == '-') && (b < 0 <==> FormatInt(b)[0] == '-');
    assert a < 0 ==> FormatInt(a)[1..] == FormatNat(-a);
    assert b < 0 ==> FormatInt(b)[1..] == FormatNat(-b);
  }

  /** Reading back a written number gives it again exactly when it fits the width. */
  lemma ParseFormat(n: int, bits: nat)
    ensures ParseInt(FormatInt(n), bits) == if -Limit(bits) <= n < Limit(bits) then Some(n) else None
  {
    hide FormatNat, ParseDigits, Limit;
    var s := FormatInt(n);
    if n < 0 {
      ParseFormatNat(-n);
      assert s[0] == '-' && s[1..] == FormatNat(-n);
    } else {
      ParseFormatNat(n);
      assert s[0] != '-' && s[0] != '+';
    }
  }
}
