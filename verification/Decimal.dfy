/** Decimal text as Go's strconv writes and reads it: positions, offsets, chunk numbers and cursors travel as text. */
module Decimal {
  import opened Wrappers

  const MAX_INT64 := 0x7fff_ffff_ffff_ffff
  const MIN_INT64 := -0x8000_0000_0000_0000

  function DigitChar(d: int): char
    requires 0 <= d < 10
  {
    ('0' as int + d) as char
  }

  function FormatNat(n: nat): (s: string)
    ensures s != ""
  {
    if n < 10 then [DigitChar(n)] else FormatNat(n / 10) + [DigitChar(n % 10)]
  }

  function Format(n: int): string {
    if n < 0 then "-" + FormatNat(-n) else FormatNat(n)
  }

  predicate IsDigit(c: char) {
    '0' <= c <= '9'
  }

  function ParseDigits(s: string): nat
    requires forall c | c in s :: IsDigit(c)
  {
    if s == "" then 0
    else
      var last := |s| - 1;
      assert IsDigit(s[last]);
      ParseDigits(s[..last]) * 10 + (s[last] as int - '0' as int)
  }

  /** Base ten with an optional sign; leading zeros are accepted, values outside 64 bits are not. */
  function ParseInt(s: string): Option<int> {
    var signed := s != "" && (s[0] == '-' || s[0] == '+');
    var digits := if signed then s[1..] else s;
    if digits == "" || exists c | c in digits :: !IsDigit(c) then None
    else
      var magnitude: int := ParseDigits(digits);
      var n := if signed && s[0] == '-' then -magnitude else magnitude;
      if MIN_INT64 <= n <= MAX_INT64 then Some(n) else None
  }

  lemma {:induction false} ParseFormatNat(n: nat)
    ensures forall c | c in FormatNat(n) :: IsDigit(c)
    ensures ParseDigits(FormatNat(n)) == n
  {
    if n >= 10 {
      ParseFormatNat(n / 10);
      var s := FormatNat(n);
      assert s[..|s| - 1] == FormatNat(n / 10);
    } else {
      assert FormatNat(n)[..0] == "";
    }
  }

  /** Reading what was written gives the number back. */
  lemma ParseFormat(n: int)
    requires MIN_INT64 <= n <= MAX_INT64
    ensures ParseInt(Format(n)) == Some(n)
  {
    ParseFormatNat(if n < 0 then -n else n);
    if n < 0 {
      assert Format(n)[1..] == FormatNat(-n);
    } else {
      var s := FormatNat(n);
      assert s[0] in s;
    }
  }

  lemma {:induction false} FormatLength(n: nat, k: nat, bound: nat)
    requires bound == Power10(k) && n < bound && k > 0
    ensures |FormatNat(n)| <= k
    decreases k
  {
    if n >= 10 {
      FormatLength(n / 10, k - 1, bound / 10);
    }
  }

  function Power10(k: nat): nat {
    if k == 0 then 1 else 10 * Power10(k - 1)
  }

  /** Code that reads a number and insists on writing it back accepts exactly the canonical spellings. */
  lemma CanonicalText(s: string)
    ensures (ParseInt(s).Some? && Format(ParseInt(s).value) == s)
       <==> (exists n: int :: MIN_INT64 <= n <= MAX_INT64 && Format(n) == s)
  {
    if n: int :| MIN_INT64 <= n <= MAX_INT64 && Format(n) == s {
      ParseFormat(n);
    }
  }
}
