/** Device identifiers of the form `"<Prefix>_<n>"`: printing the counter
    value with `str`, and reading it back with `int(id.split('_')[-1])`. */
module Ids {
  import opened Basics

  predicate IsDigit(c: char) { '0' <= c <= '9' }

  predicate AllDigits(s: string) { forall i :: 0 <= i < |s| ==> IsDigit(s[i]) }

  function DigitChar(d: nat): (c: char)
    requires d < 10
    ensures IsDigit(c) && c as int - '0' as int == d
  {
    (d + '0' as int) as char
  }

  function DigitValue(c: char): nat
    requires IsDigit(c)
  {
    c as int - '0' as int
  }

  /** The number a string of decimal digits denotes (0 for the empty string). */
  function DigitsValue(s: string): nat
    requires AllDigits(s)
  {
    if s == [] then 0 else DigitsValue(s[..|s| - 1]) * 10 + DigitValue(s[|s| - 1])
  }

  /** `str(n)` for a non-negative integer: decimal, no sign, no leading zero. */
  function NatToString(n: nat): (s: string)
    ensures |s| >= 1 && AllDigits(s)
    ensures '_' !in s
  {
    if n < 10 then [DigitChar(n)] else NatToString(n / 10) + [DigitChar(n % 10)]
  }

  lemma {:induction false} NatToStringValue(n: nat)
    ensures DigitsValue(NatToString(n)) == n
  {
    if n >= 10 {
      var s := NatToString(n);
      NatToStringValue(n / 10);
      assert s[..|s| - 1] == NatToString(n / 10);
    }
  }

  /** Python's `int(s)` on a string, restricted to an optional sign followed
      by decimal digits; `None` stands for the `ValueError` it raises. */
  function ParseInt(s: string): Option<int> {
    if |s| >= 2 && s[0] == '-' && AllDigits(s[1..]) then Some(-(DigitsValue(s[1..]) as int))
    else if |s| >= 2 && s[0] == '+' && AllDigits(s[1..]) then Some(DigitsValue(s[1..]))
    else if |s| >= 1 && AllDigits(s) then Some(DigitsValue(s))
    else None
  }

  /** `int` accepts exactly an optional sign followed by at least one digit,
      and reads unsigned digits as their decimal value. */
  lemma ParseIntAccepts(s: string)
    ensures ParseInt(s).Some? <==> (|s| >= 1 && AllDigits(s)) || (|s| >= 2 && s[0] in "+-" && AllDigits(s[1..]))
    ensures |s| >= 1 && AllDigits(s) ==> ParseInt(s) == Some(DigitsValue(s))
  {
  }

  /** `s.split('_')[-1]`: the text after the last underscore, or the whole
      string when there is none. */
  function LastSegment(s: string): string {
    if s == [] then []
    else if s[|s| - 1] == '_' then []
    else LastSegment(s[..|s| - 1]) + [s[|s| - 1]]
  }

  /** The segment is an underscore-free tail of `s`, preceded by an
      underscore unless it is all of `s`. */
  lemma {:induction false} LastSegmentIsTail(s: string)
    ensures var r := LastSegment(s);
      && '_' !in r && |r| <= |s| && r == s[|s| - |r|..]
      && (|r| < |s| ==> s[|s| - |r| - 1] == '_')
  {
    if s != [] && s[|s| - 1] != '_' {
      LastSegmentIsTail(s[..|s| - 1]);
    }
  }

  /** The identifier `f"{prefix}_{n}"` a device constructor builds. */
  function PrefixedId(prefix: string, n: nat): string {
    prefix + "_" + NatToString(n)
  }

  /** The suffix `int(id.split('_')[-1])` reads back from a generated
      identifier is the counter value it was built from. */
  lemma {:induction false} PrefixedIdSuffix(prefix: string, n: nat)
    ensures ParseInt(LastSegment(PrefixedId(prefix, n))) == Some(n)
  {
    var id, d := PrefixedId(prefix, n), NatToString(n);
    var r := LastSegment(id);
    LastSegmentIsTail(id);
    assert id[|id| - |d| - 1] == '_';
    assert id[|id| - |d|..] == d;
    assert r == d;
    ParseIntAccepts(d);
    NatToStringValue(n);
  }

  /** Distinct counter values give distinct identifiers. */
  lemma {:induction false} PrefixedIdInjective(prefix: string, m: nat, n: nat)
    requires m != n
    ensures PrefixedId(prefix, m) != PrefixedId(prefix, n)
  {
    PrefixedIdSuffix(prefix, m);
    PrefixedIdSuffix(prefix, n);
  }
}
