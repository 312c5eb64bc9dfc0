/**
 Route tokens. Go accepts a token when decoding it as unpadded base64url and encoding the result again
 gives the token back; the Lua script, which has no base64 codec, tests characters and length instead.
 Sections 3.5 and 5 of RFC 4648 define canonical encodings and the URL-safe alphabet.
 */
module RouteToken {
  import opened Wrappers

  const MAX_TOKEN_LENGTH := 128
  const MIN_TOKEN_BYTES := 16

  /** Two bits. A byte is four of them and a base64 digit three, so regrouping them needs no arithmetic. */
  type Crumb = n: int | 0 <= n < 4

  datatype Byte = Byte(p: Crumb, q: Crumb, r: Crumb, s: Crumb)

  datatype Sextet = Sextet(x: Crumb, y: Crumb, z: Crumb)

  predicate InAlphabet(c: char) {
    'A' <= c <= 'Z' || 'a' <= c <= 'z' || '0' <= c <= '9' || c == '-' || c == '_'
  }

  // ----- the alphabet in order (table 2 of section 5) -----

  const ALPHABET := ["ABCDEFGHIJKLMNOP", "QRSTUVWXYZabcdef", "ghijklmnopqrstuv", "wxyz0123456789-_"]

  function CharAt(k: nat): char
    requires k < 64
  {
    if k < 16 then ALPHABET[0][k]
    else if k < 32 then ALPHABET[1][k - 16]
    else if k < 48 then ALPHABET[2][k - 32]
    else ALPHABET[3][k - 48]
  }

  /** The first place from `k` on where the alphabet has `c`, or 64. */
  function Place(c: char, k: nat): (n: nat)
    requires k <= 64
    ensures n <= 64
    decreases 64 - k
  {
    if k == 64 || CharAt(k) == c then k else Place(c, k + 1)
  }

  /** The same by ranges. */
  function Number(c: char): int
    requires InAlphabet(c)
  {
    if 'A' <= c <= 'Z' then c as int - 'A' as int
    else if 'a' <= c <= 'z' then c as int - 'a' as int + 26
    else if '0' <= c <= '9' then c as int - '0' as int + 52
    else if c == '-' then 62
    else 63
  }

  lemma {:induction false} PlaceIsNumber(c: char, k: nat)
    requires InAlphabet(c) && k <= Number(c)
    ensures Place(c, k) == Number(c) < 64
    decreases 64 - k
  {
    AlphabetInOrder(k);
    if CharAt(k) != c {
      PlaceIsNumber(c, k + 1);
    }
  }

  lemma LowerHalf(k: nat)
    requires k < 32
    ensures InAlphabet(CharAt(k)) && Number(CharAt(k)) == k
  {
  }

  lemma UpperHalf(k: nat)
    requires 32 <= k < 64
    ensures InAlphabet(CharAt(k)) && Number(CharAt(k)) == k
  {
  }

  lemma AlphabetInOrder(k: nat)
    requires k < 64
    ensures InAlphabet(CharAt(k)) && Number(CharAt(k)) == k
  {
    hide CharAt, Number, InAlphabet;
    if k < 32 {
      LowerHalf(k);
    } else {
      UpperHalf(k);
    }
  }

  /** The three two-bit digits of a number below 64, and back. */
  function SextetOf(n: nat): Sextet
    requires n < 64
  {
    var x := if n < 16 then 0 else if n < 32 then 1 else if n < 48 then 2 else 3;
    var low := n - 16 * x;
    var y := if low < 4 then 0 else if low < 8 then 1 else if low < 12 then 2 else 3;
    Sextet(x, y, low - 4 * y)
  }

  function Weight(v: Sextet): (n: nat)
    ensures n < 64
  {
    16 * v.x + 4 * v.y + v.z
  }

  lemma WeightOfParts(n: nat)
    requires n < 64
    ensures Weight(SextetOf(n)) == n
  {
  }

  lemma PartsOfWeight(v: Sextet)
    ensures SextetOf(Weight(v)) == v
  {
  }

  /** What a character stands for: its place in the alphabet. */
  function Value(c: char): Sextet
    requires InAlphabet(c)
  {
    PlaceIsNumber(c, 0);
    SextetOf(Place(c, 0))
  }

  function Digit(v: Sextet): char {
    CharAt(Weight(v))
  }

  lemma NumberInjective(c: char, d: char)
    requires InAlphabet(c) && InAlphabet(d) && Number(c) == Number(d)
    ensures c == d
  {
  }

  lemma DigitValue(c: char)
    requires InAlphabet(c)
    ensures Digit(Value(c)) == c
  {
    PlaceIsNumber(c, 0);
    WeightOfParts(Place(c, 0));
    AlphabetInOrder(Place(c, 0));
    NumberInjective(c, CharAt(Place(c, 0)));
  }

  lemma ValueDigit(v: Sextet)
    ensures InAlphabet(Digit(v)) && Value(Digit(v)) == v
  {
    PartsOfWeight(v);
    AlphabetInOrder(Weight(v));
    PlaceIsNumber(Digit(v), 0);
  }

  /** The sextets a text spells, and the text that spells given sextets. */
  function Values(s: string): (v: seq<Sextet>)
    requires forall c | c in s :: InAlphabet(c)
    ensures |v| == |s|
  {
    seq(|s|, i requires 0 <= i < |s| => Value(s[i]))
  }

  function Digits(v: seq<Sextet>): (s: string)
    ensures |s| == |v|
  {
    seq(|v|, i requires 0 <= i < |v| => Digit(v[i]))
  }

  lemma DigitsValues(s: string)
    requires forall c | c in s :: InAlphabet(c)
    ensures Digits(Values(s)) == s
  {
    forall i | 0 <= i < |s| ensures Digit(Value(s[i])) == s[i] {
      DigitValue(s[i]);
    }
  }

  lemma ValuesDigits(v: seq<Sextet>)
    ensures forall c | c in Digits(v) :: InAlphabet(c)
    ensures Values(Digits(v)) == v
  {
    forall i | 0 <= i < |v| ensures InAlphabet(Digit(v[i])) && Value(Digit(v[i])) == v[i] {
      ValueDigit(v[i]);
    }
  }

  // The four sextets of a group of three bytes, and the three bytes of a group of four sextets.
  function Sextet0(a: Byte): Sextet { Sextet(a.p, a.q, a.r) }
  function Sextet1(a: Byte, b: Byte): Sextet { Sextet(a.s, b.p, b.q) }
  function Sextet2(b: Byte, c: Byte): Sextet { Sextet(b.r, b.s, c.p) }
  function Sextet3(c: Byte): Sextet { Sextet(c.q, c.r, c.s) }
  function Byte0(v: Sextet, w: Sextet): Byte { Byte(v.x, v.y, v.z, w.x) }
  function Byte1(w: Sextet, x: Sextet): Byte { Byte(w.y, w.z, x.x, x.y) }
  function Byte2(x: Sextet, y: Sextet): Byte { Byte(x.z, y.x, y.y, y.z) }

  const ZERO := Byte(0, 0, 0, 0)

  /** Three bytes make four sextets; a last group of one or two bytes makes two or three, without padding. */
  function Split(bytes: seq<Byte>): (v: seq<Sextet>) {
    if |bytes| == 0 then []
    else if |bytes| == 1 then [Sextet0(bytes[0]), Sextet1(bytes[0], ZERO)]
    else if |bytes| == 2 then [Sextet0(bytes[0]), Sextet1(bytes[0], bytes[1]), Sextet2(bytes[1], ZERO)]
    else
      [Sextet0(bytes[0]), Sextet1(bytes[0], bytes[1]), Sextet2(bytes[1], bytes[2]), Sextet3(bytes[2])]
      + Split(bytes[3..])
  }

  lemma {:induction false} SplitLength(bytes: seq<Byte>)
    ensures |Split(bytes)| * 3 <= |bytes| * 4 + 2
  {
    if |bytes| >= 3 {
      SplitLength(bytes[3..]);
    }
  }

  /** Puts sextets together again. It is not strict: trailing bits of the last group are dropped. */
  function Join(v: seq<Sextet>): Option<seq<Byte>> {
    if |v| == 0 then Some([])
    else if |v| == 1 then None
    else if |v| == 2 then Some([Byte0(v[0], v[1])])
    else if |v| == 3 then Some([Byte0(v[0], v[1]), Byte1(v[1], v[2])])
    else
      match Join(v[4..])
      case None => None
      case Some(rest) => Some([Byte0(v[0], v[1]), Byte1(v[1], v[2]), Byte2(v[2], v[3])] + rest)
  }

  function Encode(bytes: seq<Byte>): string {
    Digits(Split(bytes))
  }

  /** Go's decoder skips carriage returns and line feeds anywhere in its input. */
  function SkipLineBreaks(s: string): string {
    if s == "" then ""
    else if s[0] == '\r' || s[0] == '\n' then SkipLineBreaks(s[1..])
    else [s[0]] + SkipLineBreaks(s[1..])
  }

  lemma {:induction false} SkippedShape(s: string)
    ensures |SkipLineBreaks(s)| <= |s|
    ensures |SkipLineBreaks(s)| == |s| ==> SkipLineBreaks(s) == s
  {
    if s != "" {
      assert s == [s[0]] + s[1..];
      SkippedShape(s[1..]);
    }
  }

  /** Anything can be put together except a lone last sextet. */
  lemma {:induction false} JoinLength(v: seq<Sextet>)
    ensures Join(v).Some? <==> |v| % 4 != 1
    ensures Join(v).Some? ==> |Join(v).value| == |v| * 3 / 4
  {
    if |v| >= 4 {
      JoinLength(v[4..]);
    }
  }

  function Decode(s: string): Option<seq<Byte>> {
    var kept := SkipLineBreaks(s);
    if forall c | c in kept :: InAlphabet(c) then Join(Values(kept)) else None
  }

  /** Go's test: at most 128 bytes long, decodes to at least 16 bytes, and is its own canonical encoding. */
  predicate GoToken(s: string) {
    && |s| <= MAX_TOKEN_LENGTH
    && var raw := Decode(s);
    raw.Some? && |raw.value| >= MIN_TOKEN_BYTES && Encode(raw.value) == s
  }

  /** Lua's test: 22 to 128 URL-safe characters, and a last character that leaves no stray trailing bits. */
  predicate LuaToken(s: string) {
    && 22 <= |s| <= MAX_TOKEN_LENGTH
    && (forall c | c in s :: InAlphabet(c))
    && (if |s| % 4 == 1 then false
        else if |s| % 4 == 2 then s[|s| - 1] in "AQgw"
        else if |s| % 4 == 3 then s[|s| - 1] in "AEIMQUYcgkosw048"
        else true)
  }

  lemma {:induction false} KeepAll(s: string)
    requires '\r' !in s && '\n' !in s
    ensures SkipLineBreaks(s) == s
  {
    if s != "" {
      assert s == [s[0]] + s[1..];
      KeepAll(s[1..]);
    }
  }

  /** No bits of the last sextet lie beyond the last whole byte. */
  predicate NoStrayBits(v: seq<Sextet>) {
    && (|v| % 4 == 2 ==> v[|v| - 1].y == 0 && v[|v| - 1].z == 0)
    && (|v| % 4 == 3 ==> v[|v| - 1].z == 0)
  }

  /** Splitting what was joined gives the sextets back exactly when no stray bits were dropped. */
  lemma {:induction false} SplitJoin(v: seq<Sextet>)
    requires Join(v).Some?
    ensures Split(Join(v).value) == v <==> NoStrayBits(v)
  {
    if |v| >= 4 {
      SplitJoin(v[4..]);
      SplitJoinGroup(v);
      DropGroup(v, Split(Join(v[4..]).value));
    } else if |v| == 3 {
      assert v == [v[0], v[1], v[2]];
      assert Split(Join(v).value) == [v[0], v[1], Sextet(v[2].x, v[2].y, 0)];
    } else if |v| == 2 {
      assert v == [v[0], v[1]];
      assert Split(Join(v).value) == [v[0], Sextet(v[1].x, 0, 0)];
    } else {
      assert v == [];
    }
  }

  lemma DropGroup(v: seq<Sextet>, rest: seq<Sextet>)
    requires |v| >= 4
    ensures v[..4] + rest == v <==> rest == v[4..]
    ensures NoStrayBits(v) <==> NoStrayBits(v[4..])
  {
    assert v == v[..4] + v[4..];
    assert (v[..4] + rest)[4..] == rest;
    assert |v| > 4 ==> v[|v| - 1] == v[4..][|v| - 5];
  }

  lemma SplitJoinGroup(v: seq<Sextet>)
    requires |v| >= 4 && Join(v).Some?
    ensures Split(Join(v).value) == v[..4] + Split(Join(v[4..]).value)
  {
    var bytes := Join(v).value;
    assert bytes[3..] == Join(v[4..]).value;
    assert v[..4] == [v[0], v[1], v[2], v[3]];
  }

  lemma {:induction false} JoinSplit(bytes: seq<Byte>)
    ensures Join(Split(bytes)) == Some(bytes)
  {
    if |bytes| >= 3 {
      JoinSplit(bytes[3..]);
      assert Split(bytes)[4..] == Split(bytes[3..]);
      assert bytes == [bytes[0], bytes[1], bytes[2]] + bytes[3..];
    } else if |bytes| == 2 {
      assert bytes == [bytes[0], bytes[1]];
    } else if |bytes| == 1 {
      assert bytes == [bytes[0]];
    } else {
      assert bytes == [];
    }
  }

  /** Decoding inverts encoding: text that spells the sextets of some bytes is their encoding and decodes to them. */
  lemma SpellingDecodes(bytes: seq<Byte>, s: string)
    requires (forall c | c in s :: InAlphabet(c)) && Values(s) == Split(bytes)
    ensures Decode(s) == Some(bytes) && Encode(bytes) == s
  {
    hide Split, Join, Value, Digit;
    KeepAll(s);
    JoinSplit(bytes);
    DigitsValues(s);
  }

  lemma LastFour(c: char)
    requires InAlphabet(c)
    ensures Number(c) % 16 == 0 <==> c in "AQgw"
  {
  }

  lemma LastTwo(c: char)
    requires InAlphabet(c)
    ensures Number(c) % 4 == 0 <==> c in "AEIMQUYcgkosw048"
  {
    if 'A' <= c <= 'Z' {
    } else if 'a' <= c <= 'z' {
    } else {
    }
  }

  lemma LowParts(n: nat)
    requires n < 64
    ensures SextetOf(n).y == 0 && SextetOf(n).z == 0 <==> n % 16 == 0
    ensures SextetOf(n).z == 0 <==> n % 4 == 0
  {
  }

  lemma LastCharacter(c: char)
    requires InAlphabet(c)
    ensures Value(c).y == 0 && Value(c).z == 0 <==> c in "AQgw"
    ensures Value(c).z == 0 <==> c in "AEIMQUYcgkosw048"
  {
    LastFour(c);
    LastTwo(c);
    PlaceIsNumber(c, 0);
    hide Number, InAlphabet, Place, SextetOf;
    LowParts(Place(c, 0));
  }

  /** The Lua test accepts exactly the tokens the Go test accepts. */
  lemma LuaTokenIsGoToken(s: string)
    ensures LuaToken(s) <==> GoToken(s)
  {
    hide Value, Digit, Split, Join, SkipLineBreaks;
    if forall c | c in s :: InAlphabet(c) {
      KeepAll(s);
      JoinLength(Values(s));
      if |s| % 4 != 1 {
        SplitJoin(Values(s));
        DigitsValues(s);
        ValuesDigits(Split(Join(Values(s)).value));
        if |s| > 0 {
          LastCharacter(s[|s| - 1]);
        }
      }
    } else if GoToken(s) {
      ValuesDigits(Split(Decode(s).value));
      assert false;
    }
  }

  /** A token is accepted exactly when it is the canonical encoding of 16 to 96 bytes. */
  lemma GoTokenMeaning(s: string)
    ensures GoToken(s) <==> exists raw: seq<Byte> :: 16 <= |raw| <= 96 && Encode(raw) == s
  {
    if GoToken(s) {
      var raw, kept := Decode(s).value, SkipLineBreaks(s);
      SkippedShape(s);
      JoinLength(Values(kept));
      assert |raw| <= 96 && Encode(raw) == s;
    }
    if raw: seq<Byte> :| 16 <= |raw| <= 96 && Encode(raw) == s {
      ValuesDigits(Split(raw));
      SpellingDecodes(raw, s);
      SplitLength(raw);
    }
  }
}
