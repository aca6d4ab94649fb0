/** Decimal numbers as Rust's `parse` and `to_string` read and write them. */
module Decimal {
  import opened Options

  const MAX_U32: int := 0xFFFF_FFFF
  const MAX_I32: int := 0x7FFF_FFFF

  predicate IsDigit(c: char) {
    '0' <= c <= '9'
  }

  predicate AllDigits(s: string) {
    forall i :: 0 <= i < |s| ==> IsDigit(s[i])
  }

  function Text(n: nat): (s: string)
    ensures s != "" && AllDigits(s)
  {
    var last := [('0' as int + n % 10) as char];
    if n < 10 then last else Text(n / 10) + last
  }

  function SignedText(n: int): string {
    if n < 0 then "-" + Text(-n) else Text(n)
  }

  /** The value of a run of one or more digits, leading zeros allowed. */
  function Digits(s: string): (r: Option<nat>)
    ensures r.Some? <==> s != "" && AllDigits(s)
    decreases |s|
  {
    if s == "" || !IsDigit(s[|s| - 1]) then None
    else
      var d := s[|s| - 1] as int - '0' as int;
      var high := if |s| == 1 then Some(0) else Digits(s[..|s| - 1]);
      if high.Some? then Some(10 * high.value + d) else None
  }

  lemma {:induction false} DigitsOfText(n: nat)
    ensures Digits(Text(n)) == Some(n)
  {
    if n >= 10 {
      var s := Text(n);
      assert s[..|s| - 1] == Text(n / 10);
      DigitsOfText(n / 10);
    }
  }

  /** A sign of its own is no number; an unsigned number takes no minus sign. */
  function ParseU32(s: string): Option<nat> {
    var v := Digits(if s != "" && s[0] == '+' then s[1..] else s);
    if v.Some? && v.value <= MAX_U32 then v else None
  }

  function ParseI32(s: string): Option<int> {
    var negative := s != "" && s[0] == '-';
    var v := Digits(if negative || (s != "" && s[0] == '+') then s[1..] else s);
    if v.None? || v.value > (if negative then MAX_I32 + 1 else MAX_I32) then None
    else
      var size: int := v.value;
      Some(if negative then -size else size)
  }

  lemma ReadU32(n: nat)
    requires n <= MAX_U32
    ensures ParseU32(Text(n)) == Some(n)
  {
    DigitsOfText(n);
    assert IsDigit(Text(n)[0]);
  }

  lemma ReadI32(n: int)
    requires -MAX_I32 - 1 <= n <= MAX_I32
    ensures ParseI32(SignedText(n)) == Some(n)
  {
    var size: nat := if n < 0 then -n else n;
    var s := Text(size);
    DigitsOfText(size);
    assert IsDigit(s[0]);
    assert ("-" + s)[1..] == s;
  }

  /** A plus sign is accepted, a minus sign only where numbers may be negative. */
  lemma SignsRead(n: nat)
    ensures n <= MAX_U32 ==> ParseU32("+" + Text(n)) == Some(n)
    ensures n <= MAX_I32 ==> ParseI32("+" + Text(n)) == Some(n)
    ensures ParseU32("-" + Text(n)) == None
  {
    DigitsOfText(n);
    assert ("+" + Text(n))[1..] == Text(n);
    assert ("-" + Text(n))[0] == '-' && !IsDigit('-');
  }
}
