/** Identifier syntax shared by the three roles. A string is a byte string, as in Go's `len` and indexing. */
module Identifiers {

  const NIL_UUID := "00000000-0000-0000-0000-000000000000"

  predicate IsHex(c: char) {
    '0' <= c <= '9' || 'a' <= c <= 'f' || 'A' <= c <= 'F'
  }

  predicate IsDashPosition(i: int) {
    i == 8 || i == 13 || i == 18 || i == 23
  }

  /** Go's check: 36 bytes, not the nil UUID, dashes at the four positions and hexadecimal digits elsewhere. */
  predicate ValidUuid(s: string) {
    && |s| == 36
    && s != NIL_UUID
    && forall i | 0 <= i < 36 :: if IsDashPosition(i) then s[i] == '-' else IsHex(s[i])
  }

  predicate ValidId(s: string, prefix: char) {
    |s| == 37 && s[0] == prefix && ValidUuid(s[1..])
  }

  predicate IsInstanceChar(c: char) {
    'a' <= c <= 'z' || '0' <= c <= '9' || c == '-'
  }

  predicate ValidInstance(s: string) {
    1 <= |s| <= 64 && forall c | c in s :: IsInstanceChar(c)
  }

  predicate Printable(s: string, max: nat) {
    0 < |s| <= max && forall c | c in s :: ' ' <= c <= '~'
  }

  /** What remains of `s` when every '-' is deleted, as Lua's `gsub('-', '')` leaves it. */
  function WithoutDashes(s: string): string {
    if s == "" then ""
    else if s[0] == '-' then WithoutDashes(s[1..])
    else [s[0]] + WithoutDashes(s[1..])
  }

  /** The Lua script's own check: four dashes in place, then 32 hexadecimal digits once dashes are deleted. */
  predicate LuaUuid(s: string) {
    && |s| == 36
    && s != NIL_UUID
    && s[8] == '-' && s[13] == '-' && s[18] == '-' && s[23] == '-'
    && var hex := WithoutDashes(s);
    |hex| == 32 && forall c | c in hex :: IsHex(c)
  }

  function DashCount(s: string): (n: nat)
    ensures n <= |s|
  {
    if s == "" then 0 else (if s[0] == '-' then 1 else 0) + DashCount(s[1..])
  }

  lemma {:induction false} WithoutDashesShape(s: string)
    ensures |WithoutDashes(s)| == |s| - DashCount(s)
    ensures forall c :: c in WithoutDashes(s) <==> c in s && c != '-'
  {
    if s != "" {
      WithoutDashesShape(s[1..]);
      assert s == [s[0]] + s[1..];
    }
  }

  lemma {:induction false} DashCountConcat(a: string, b: string)
    ensures DashCount(a + b) == DashCount(a) + DashCount(b)
  {
    if a == "" {
      assert a + b == b;
    } else {
      DashCountConcat(a[1..], b);
      assert (a + b)[1..] == a[1..] + b;
    }
  }

  lemma {:induction false} NoDashes(s: string)
    ensures DashCount(s) == 0 <==> '-' !in s
  {
    if s != "" {
      NoDashes(s[1..]);
      assert s == [s[0]] + s[1..];
    }
  }

  /** Splits the dash count of a 36-byte string at the four separator positions. */
  lemma DashCountParts(s: string)
    requires |s| == 36 && s[8] == '-' && s[13] == '-' && s[18] == '-' && s[23] == '-'
    ensures DashCount(s) == 4 + DashCount(s[..8]) + DashCount(s[9..13]) + DashCount(s[14..18]) + DashCount(s[19..23])
              + DashCount(s[24..])
  {
    assert s == s[..8] + ("-" + (s[9..13] + ("-" + (s[14..18] + ("-" + (s[19..23] + ("-" + s[24..])))))));
    DashCountConcat(s[..8], "-" + (s[9..13] + ("-" + (s[14..18] + ("-" + (s[19..23] + ("-" + s[24..])))))));
    DashCountConcat("-", s[9..13] + ("-" + (s[14..18] + ("-" + (s[19..23] + ("-" + s[24..]))))));
    DashCountConcat(s[9..13], "-" + (s[14..18] + ("-" + (s[19..23] + ("-" + s[24..])))));
    DashCountConcat("-", s[14..18] + ("-" + (s[19..23] + ("-" + s[24..]))));
    DashCountConcat(s[14..18], "-" + (s[19..23] + ("-" + s[24..])));
    DashCountConcat("-", s[19..23] + ("-" + s[24..]));
    DashCountConcat(s[19..23], "-" + s[24..]);
    DashCountConcat("-", s[24..]);
    assert DashCount("-") == 1;
  }

  /** The script's string test and Go's parser accept exactly the same UUIDs. */
  lemma LuaUuidIsValidUuid(s: string)
    ensures LuaUuid(s) <==> ValidUuid(s)
  {
    if |s| == 36 && s[8] == '-' && s[13] == '-' && s[18] == '-' && s[23] == '-' {
      WithoutDashesShape(s);
      DashCountParts(s);
      NoDashes(s[..8]);
      NoDashes(s[9..13]);
      NoDashes(s[14..18]);
      NoDashes(s[19..23]);
      NoDashes(s[24..]);
      if ValidUuid(s) {
        forall part | part in [s[..8], s[9..13], s[14..18], s[19..23], s[24..]] ensures '-' !in part {
          NoSeparatorInParts(s);
        }
      } else if LuaUuid(s) {
        forall i | 0 <= i < 36 ensures if IsDashPosition(i) then s[i] == '-' else IsHex(s[i]) {
          if !IsDashPosition(i) {
            if s[i] == '-' {
              DashOutsideSeparators(s, i);
            } else {
              assert s[i] in WithoutDashes(s);
            }
          }
        }
      }
    }
  }

  lemma NoSeparatorInParts(s: string)
    requires ValidUuid(s)
    ensures '-' !in s[..8] && '-' !in s[9..13] && '-' !in s[14..18] && '-' !in s[19..23] && '-' !in s[24..]
  {
    forall i | 0 <= i < 36 && !IsDashPosition(i) ensures s[i] != '-' {
      assert IsHex(s[i]);
    }
  }

  lemma DashOutsideSeparators(s: string, i: nat)
    requires |s| == 36 && i < 36 && !IsDashPosition(i) && s[i] == '-'
    ensures '-' in s[..8] || '-' in s[9..13] || '-' in s[14..18] || '-' in s[19..23] || '-' in s[24..]
  {
    if i < 8 {
      assert s[..8][i] == '-';
    } else if i < 13 {
      assert s[9..13][i - 9] == '-';
    } else if i < 18 {
      assert s[14..18][i - 14] == '-';
    } else if i < 23 {
      assert s[19..23][i - 19] == '-';
    } else {
      assert s[24..][i - 24] == '-';
    }
  }
}
