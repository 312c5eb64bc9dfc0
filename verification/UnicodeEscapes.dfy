/**
 The scan that refuses lone UTF-16 surrogates before JSON is decoded (section 7 of RFC 8259): a reader would replace
 such an escape silently, and the text of a stored message would change.
 */
module UnicodeEscapes {
  import opened Wrappers
  import opened Identifiers

  /** A byte standing for itself, a two-byte escape, or a UTF-16 code unit written as \u and four hexadecimal digits. */
  datatype Token = Plain(c: char) | Short(c: char) | Unit(n: nat)

  function HexValue(c: char): nat
    requires IsHex(c)
  {
    if '0' <= c <= '9' then c as int - '0' as int
    else if 'a' <= c <= 'f' then c as int - 'a' as int + 10
    else c as int - 'A' as int + 10
  }

  /** Exactly four hexadecimal digits. */
  function ParseHex(s: string): Option<nat>
    requires |s| == 4
  {
    if IsHex(s[0]) && IsHex(s[1]) && IsHex(s[2]) && IsHex(s[3]) then
      Some(((HexValue(s[0]) * 16 + HexValue(s[1])) * 16 + HexValue(s[2])) * 16 + HexValue(s[3]))
    else None
  }

  /** The text cut into tokens, each code unit by itself; nothing if an escape is incomplete or not hexadecimal. */
  function Tokens(s: string): Option<seq<Token>> {
    if s == "" then Some([])
    else if s[0] != '\\' then Then(Plain(s[0]), Tokens(s[1..]))
    else if |s| < 2 then None
    else if s[1] != 'u' then Then(Short(s[1]), Tokens(s[2..]))
    else if |s| < 6 || ParseHex(s[2..6]).None? then None
    else Then(Unit(ParseHex(s[2..6]).value), Tokens(s[6..]))
  }

  function Then(t: Token, rest: Option<seq<Token>>): Option<seq<Token>> {
    if rest.Some? then Some([t] + rest.value) else None
  }

  predicate High(t: Token) {
    t.Unit? && 0xd800 <= t.n <= 0xdbff
  }

  predicate Low(t: Token) {
    t.Unit? && 0xdc00 <= t.n <= 0xdfff
  }

  /** Every high surrogate has a low one right after it, every low surrogate a high one right before it. */
  predicate Paired(ts: seq<Token>) {
    && (forall i | 0 <= i < |ts| && High(ts[i]) :: i + 1 < |ts| && Low(ts[i + 1]))
    && (forall i | 0 <= i < |ts| && Low(ts[i]) :: 0 < i && High(ts[i - 1]))
  }

  /** The text loses nothing when its escapes are read. */
  predicate Faithful(s: string) {
    Tokens(s).Some? && Paired(Tokens(s).value)
  }

  lemma PairedAfterOther(t: Token, ts: seq<Token>)
    requires !High(t) && !Low(t)
    ensures Paired([t] + ts) <==> Paired(ts)
  {
    var all := [t] + ts;
    assert forall i | 0 <= i < |ts| :: all[i + 1] == ts[i];
    if Paired(all) {
      forall i | 0 <= i < |ts| && High(ts[i]) ensures i + 1 < |ts| && Low(ts[i + 1]) {
        assert High(all[i + 1]);
      }
      forall i | 0 <= i < |ts| && Low(ts[i]) ensures 0 < i && High(ts[i - 1]) {
        assert Low(all[i + 1]) && High(all[i]) && all[0] == t;
        assert all[i] == ts[i - 1];
      }
    }
  }

  lemma PairedAfterPair(h: Token, l: Token, ts: seq<Token>)
    requires High(h) && Low(l)
    ensures Paired([h] + ([l] + ts)) <==> Paired(ts)
  {
    var all := [h] + ([l] + ts);
    assert forall i | 0 <= i < |ts| :: all[i + 2] == ts[i];
    if Paired(all) {
      forall i | 0 <= i < |ts| && High(ts[i]) ensures i + 1 < |ts| && Low(ts[i + 1]) {
        assert High(all[i + 2]);
      }
      forall i | 0 <= i < |ts| && Low(ts[i]) ensures 0 < i && High(ts[i - 1]) {
        assert Low(all[i + 2]) && High(all[i + 1]) && all[1] == l;
        assert all[i + 1] == ts[i - 1];
      }
    }
  }

  lemma UnpairedHead(t: Token, ts: seq<Token>)
    requires Low(t) || (High(t) && (ts == [] || !Low(ts[0])))
    ensures !Paired([t] + ts)
  {
    var all := [t] + ts;
    assert all[0] == t && (ts != [] ==> all[1] == ts[0]);
  }

  lemma OtherHead(t: Token, s: string, rest: string)
    requires Tokens(s) == Then(t, Tokens(rest)) && !High(t) && !Low(t)
    ensures Faithful(s) <==> Faithful(rest)
  {
    hide Tokens;
    if Tokens(rest).Some? {
      PairedAfterOther(t, Tokens(rest).value);
    }
  }

  /** A code unit at the head: whether the text is faithful depends on what follows only. */
  lemma UnitHead(s: string)
    requires |s| >= 6 && s[0] == '\\' && s[1] == 'u' && ParseHex(s[2..6]).Some?
    ensures var t, rest := Unit(ParseHex(s[2..6]).value), s[6..];
            && (Low(t) ==> !Faithful(s))
            && (!High(t) && !Low(t) ==> (Faithful(s) <==> Faithful(rest)))
            && (High(t) ==>
                  (Faithful(s) <==> |rest| >= 6 && rest[0] == '\\' && rest[1] == 'u' && ParseHex(rest[2..6]).Some?
                                    && Low(Unit(ParseHex(rest[2..6]).value)) && Faithful(rest[6..])))
  {
    hide ParseHex;
    var t, rest := Unit(ParseHex(s[2..6]).value), s[6..];
    assert Tokens(s) == Then(t, Tokens(rest));
    if !High(t) && !Low(t) {
      OtherHead(t, s, rest);
    } else if Low(t) {
      if Tokens(rest).Some? {
        UnpairedHead(t, Tokens(rest).value);
      }
    } else if Tokens(rest).Some? {
      HighHead(t, rest);
    }
  }

  lemma HighHead(t: Token, rest: string)
    requires High(t) && Tokens(rest).Some?
    ensures Paired([t] + Tokens(rest).value)
       <==> |rest| >= 6 && rest[0] == '\\' && rest[1] == 'u' && ParseHex(rest[2..6]).Some?
            && Low(Unit(ParseHex(rest[2..6]).value)) && Faithful(rest[6..])
  {
    hide ParseHex;
    var ts := Tokens(rest).value;
    if |rest| >= 6 && rest[0] == '\\' && rest[1] == 'u' && ParseHex(rest[2..6]).Some?
        && Low(Unit(ParseHex(rest[2..6]).value)) {
      PairedAfterPair(t, Unit(ParseHex(rest[2..6]).value), Tokens(rest[6..]).value);
    } else {
      UnpairedHead(t, ts);
    }
  }

  /** The scan, with `i` jumping over each escape: it accepts exactly the faithful texts. */
  method ValidUnicodeEscapes(raw: string) returns (ok: bool)
    ensures ok <==> Faithful(raw)
  {
    hide Faithful, ParseHex;
    assert raw[0..] == raw;
    var i := 0;
    while i < |raw|
      invariant 0 <= i <= |raw|
      invariant Faithful(raw) <==> Faithful(raw[i..])
    {
      ghost var s := raw[i..];
      if raw[i] != '\\' {
        OtherHead(Plain(s[0]), s, s[1..]);
        assert s[1..] == raw[i + 1..];
        i := i + 1;
        continue;
      }
      i := i + 1;
      if i >= |raw| {
        NotFaithful(s);
        return false;
      }
      if raw[i] != 'u' {
        OtherHead(Short(s[1]), s, s[2..]);
        assert s[2..] == raw[i + 1..];
        i := i + 1;
        continue;
      }
      if i + 4 >= |raw| {
        NotFaithful(s);
        return false;
      }
      assert s[2..6] == raw[i + 1..i + 5] && s[6..] == raw[i + 5..];
      var n := ParseHex(raw[i + 1..i + 5]);
      if n.None? {
        NotFaithful(s);
        return false;
      }
      UnitHead(s);
      i := i + 4;
      if 0xdc00 <= n.value <= 0xdfff {
        return false;
      }
      if 0xd800 <= n.value <= 0xdbff {
        if i + 6 >= |raw| || raw[i + 1] != '\\' || raw[i + 2] != 'u' {
          return false;
        }
        assert s[6..][2..6] == raw[i + 3..i + 7] && s[6..][6..] == raw[i + 7..];
        var low := ParseHex(raw[i + 3..i + 7]);
        if low.None? || low.value < 0xdc00 || low.value > 0xdfff {
          return false;
        }
        i := i + 6;
      }
      i := i + 1;
    }
    assert raw[i..] == "";
    EmptyFaithful();
    ok := true;
  }

  lemma NotFaithful(s: string)
    requires s != "" && s[0] == '\\'
    requires |s| < 2 || (s[1] == 'u' && (|s| < 6 || ParseHex(s[2..6]).None?))
    ensures !Faithful(s)
  {
  }

  lemma EmptyFaithful()
    ensures Faithful("")
  {
  }
}
