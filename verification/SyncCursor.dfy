/**
 Conversation names and synchronisation cursors. A cursor is the base64url text of a small JSON object; it is accepted
 only if writing it again gives the same text, so that a position has exactly one spelling for each conversation.
 */
module SyncCursor {
  import opened Wrappers
  import opened Identifiers
  import opened Decimal
  import opened RouteToken
  import opened Paging

  datatype Conversation = Conversation(id: string, group: bool)

  function NameOf(c: Conversation): string {
    (if c.group then "group:" else "direct:") + c.id
  }

  predicate ValidConversation(c: Conversation) {
    ValidId(c.id, if c.group then 'G' else 'S')
  }

  /** A known prefix, then an id of the matching kind. */
  function ParseConversation(s: string): Option<Conversation> {
    if "direct:" <= s && ValidId(s[7..], 'S') then Some(Conversation(s[7..], false))
    else if "group:" <= s && ValidId(s[6..], 'G') then Some(Conversation(s[6..], true))
    else None
  }

  /** A name is accepted exactly if it is the name of a valid conversation, and leads back to that one. */
  lemma ParseConversationMeaning(s: string, c: Conversation)
    ensures ParseConversation(s) == Some(c) <==> ValidConversation(c) && NameOf(c) == s
  {
    hide ValidId;
    if ValidConversation(c) && NameOf(c) == s {
      assert s[if c.group then 6 else 7..] == c.id;
      if c.group {
        assert s[0] == 'g';
      }
    }
    if "direct:" <= s {
      assert s == "direct:" + s[7..] && s[0] == 'd';
    }
    if "group:" <= s {
      assert s == "group:" + s[6..] && s[0] == 'g';
    }
  }

  // ----- cursors -----

  /** What a JSON reader finds in a cursor's bytes. */
  datatype Fields = Fields(version: int, conversation: string, after: string)

  function ByteOf(c: char): (b: Byte)
    ensures 64 * b.p + 16 * b.q + 4 * b.r + b.s == c as int % 256
  {
    var n := c as int % 256;
    var p := n / 64;
    var q := (n - 64 * p) / 16;
    var r := (n - 64 * p - 16 * q) / 4;
    Byte(p, q, r, n - 64 * p - 16 * q - 4 * r)
  }

  function Bytes(s: string): seq<Byte> {
    seq(|s|, i requires 0 <= i < |s| => ByteOf(s[i]))
  }

  const BEFORE_NAME := "{\"v\":1,\"conversation_id\":\""
  const AFTER_NAME := "\",\"after_position\":\""

  /** The object as Go's encoder writes it; neither text holds a character that would be escaped. */
  function Render(conversation: string, after: string): string {
    BEFORE_NAME + conversation + AFTER_NAME + after + "\"}"
  }

  function EncodeCursor(c: Conversation, after: int): string
    requires ValidConversation(c) && after >= 0
  {
    Encode(Bytes(Render(NameOf(c), Format(after))))
  }

  /** The JSON reader is a parameter. It may be as lenient as it likes, but it reads back what the encoder wrote. */
  ghost predicate ReadsBack(parse: seq<Byte> -> Option<Fields>) {
    forall c: Conversation, after: int | ValidConversation(c) && after >= 0 ::
      parse(Bytes(Render(NameOf(c), Format(after)))) == Some(Fields(1, NameOf(c), Format(after)))
  }

  /** The position a cursor stands for; no cursor stands for the beginning. */
  function DecodeCursor(parse: seq<Byte> -> Option<Fields>, c: Conversation, cursor: string): Option<nat>
    requires ValidConversation(c)
  {
    if cursor == "" then Some(0)
    else
      var raw := Decode(cursor);
      if raw.None? then None
      else
        var fields := parse(raw.value);
        if fields.None? || fields.value.version != 1 || fields.value.conversation != NameOf(c) then None
        else
          var after := ParseInt(fields.value.after);
          if after.None? || after.value <= 0 || Format(after.value) != fields.value.after
              || EncodeCursor(c, after.value) != cursor
          then None
          else Some(after.value)
  }

  /** Two names differ when their conversations do. */
  lemma NameInjective(a: Conversation, b: Conversation)
    requires NameOf(a) == NameOf(b)
    ensures a == b
  {
    assert NameOf(a)[0] == (if a.group then 'g' else 'd') && NameOf(b)[0] == (if b.group then 'g' else 'd');
    assert NameOf(a)[if a.group then 6 else 7..] == a.id && NameOf(b)[if b.group then 6 else 7..] == b.id;
  }

  lemma EmptyDecodes()
    ensures Decode("") == Some([])
  {
  }

  lemma DecodeOwnCursor(parse: seq<Byte> -> Option<Fields>, c: Conversation, after: int)
    requires ReadsBack(parse) && ValidConversation(c) && 0 < after <= MAX_INT64
    ensures EncodeCursor(c, after) != "" && DecodeCursor(parse, c, EncodeCursor(c, after)) == Some(after)
  {
    hide ValidConversation;
    var raw := Bytes(Render(NameOf(c), Format(after)));
    ValuesDigits(Split(raw));
    SpellingDecodes(raw, Encode(raw));
    assert Decode("") == Some([]) && raw != [] by {
      EmptyDecodes();
    }
    ParseFormat(after);
    assert parse(raw) == Some(Fields(1, NameOf(c), Format(after)));
  }

  /**
   Decoding inverts encoding and accepts nothing else: a text stands for a position exactly if it is empty and the
   position is the beginning, or it is that position's own encoding for this very conversation.
   */
  lemma DecodeCursorMeaning(parse: seq<Byte> -> Option<Fields>, c: Conversation, cursor: string, p: nat)
    requires ReadsBack(parse) && ValidConversation(c)
    ensures DecodeCursor(parse, c, cursor) == Some(p)
       <==> (cursor == "" && p == 0) || (0 < p <= MAX_INT64 && cursor == EncodeCursor(c, p))
  {
    hide ValidConversation, ReadsBack;
    if 0 < p <= MAX_INT64 && cursor == EncodeCursor(c, p) {
      DecodeOwnCursor(parse, c, p);
    }
  }

  /** No cursor of one conversation is accepted for another, and no two positions share a cursor. */
  lemma ForeignCursorRejected(parse: seq<Byte> -> Option<Fields>, c: Conversation, d: Conversation, after: int)
    requires ReadsBack(parse) && ValidConversation(c) && ValidConversation(d) && c != d && 0 < after <= MAX_INT64
    ensures DecodeCursor(parse, d, EncodeCursor(c, after)) == None
  {
    hide ValidConversation;
    var raw := Bytes(Render(NameOf(c), Format(after)));
    ValuesDigits(Split(raw));
    SpellingDecodes(raw, Encode(raw));
    DecodeOwnCursor(parse, c, after);
    assert parse(raw) == Some(Fields(1, NameOf(c), Format(after)));
    if NameOf(c) == NameOf(d) {
      NameInjective(c, d);
    }
  }

  /** The cursor sent with a page: the last row's, or the one the request came with. */
  function NextCursor(c: Conversation, cursor: string, page: Page): string
    requires ValidConversation(c)
  {
    if page.rows == [] then cursor else EncodeCursor(c, page.rows[|page.rows| - 1].id)
  }

  /** So a client that sends back the cursors it is given asks for exactly the positions the pages ended at. */
  lemma NextCursorIsPosition(parse: seq<Byte> -> Option<Fields>, c: Conversation, cursor: string, table: map<nat, Row>,
                             after: nat, top: nat, limit: nat)
    requires ReadsBack(parse) && ValidConversation(c) && Keyed(table) && limit > 0 && top <= MAX_INT64
    requires DecodeCursor(parse, c, cursor) == Some(after)
    ensures var page := ReadPage(table, c.id, after, top, limit);
            DecodeCursor(parse, c, NextCursor(c, cursor, page)) == Some(page.position)
  {
    hide ValidConversation, ReadsBack, DecodeCursor, EncodeCursor;
    var page := ReadPage(table, c.id, after, top, limit);
    PageIsRange(table, c.id, after, top, limit);
    CollectSound(table, c.id, after, top);
    if page.rows != [] {
      var found := Collect(table, c.id, after, top);
      assert Belongs(found[|page.rows| - 1], table, c.id, after, top);
      DecodeOwnCursor(parse, c, page.position);
    }
  }

  // ----- such a reader exists -----

  predicate ByteText(s: string) {
    forall i | 0 <= i < |s| :: s[i] as int < 256
  }

  lemma NameIsByteText(c: Conversation)
    requires ValidConversation(c)
    ensures ByteText(NameOf(c)) && |NameOf(c)| == if c.group then 43 else 44
  {
    var name, k := NameOf(c), if c.group then 6 else 7;
    forall i | 0 <= i < |name| ensures name[i] as int < 256 {
      if i > k {
        assert name[i] == c.id[1..][i - k - 1];
      }
    }
  }

  lemma ByteOfInjective(c: char, d: char)
    requires c as int < 256 && d as int < 256 && ByteOf(c) == ByteOf(d)
    ensures c == d
  {
  }

  lemma BytesInjective(s: string, t: string)
    requires ByteText(s) && ByteText(t) && Bytes(s) == Bytes(t)
    ensures s == t
  {
    forall i | 0 <= i < |s| ensures s[i] == t[i] {
      assert Bytes(s)[i] == Bytes(t)[i];
      ByteOfInjective(s[i], t[i]);
    }
  }

  lemma BytesConcat(s: string, t: string)
    ensures Bytes(s + t) == Bytes(s) + Bytes(t)
  {
  }

  /** The parts of two equal concatenations whose middle parts start alike. */
  lemma SameParts(pre: seq<Byte>, a: seq<Byte>, mid: seq<Byte>, m: seq<Byte>, b: seq<Byte>, n: seq<Byte>,
                  post: seq<Byte>)
    requires pre + a + mid + m + post == pre + b + mid + n + post && |a| == |b|
    ensures a == b && m == n
  {
    var s, t := pre + a + mid + m + post, pre + b + mid + n + post;
    var end := |pre| + |a|;
    assert s[|pre|..end] == a && t[|pre|..end] == b;
    var from := end + |mid|;
    assert s[from..|s| - |post|] == m && t[from..|t| - |post|] == n;
  }

  /** A name takes 43 or 44 bytes according to its first letter, so the two texts can be told apart. */
  lemma RenderInjective(c: Conversation, m: string, d: Conversation, n: string)
    requires ValidConversation(c) && ValidConversation(d) && ByteText(m) && ByteText(n)
    requires Bytes(Render(NameOf(c), m)) == Bytes(Render(NameOf(d), n))
    ensures c == d && m == n
  {
    NameIsByteText(c);
    NameIsByteText(d);
    RenderBytes(c, m);
    RenderBytes(d, n);
    hide ValidConversation, Render;
    FirstLetter(c);
    FirstLetter(d);
    var start := |BEFORE_NAME|;
    assert Bytes(Render(NameOf(c), m))[start] == Bytes(NameOf(c))[0]
        && Bytes(Render(NameOf(d), n))[start] == Bytes(NameOf(d))[0];
    hide NameOf, Bytes;
    SameParts(Bytes(BEFORE_NAME), Bytes(NameOf(c)), Bytes(AFTER_NAME), Bytes(m), Bytes(NameOf(d)), Bytes(n),
              Bytes("\"}"));
    BytesInjective(NameOf(c), NameOf(d));
    NameInjective(c, d);
    BytesInjective(m, n);
  }

  lemma FirstLetter(c: Conversation)
    ensures NameOf(c) != "" && Bytes(NameOf(c))[0] == ByteOf(if c.group then 'g' else 'd')
    ensures ByteOf('g') != ByteOf('d')
  {
    if ByteOf('g') == ByteOf('d') {
      ByteOfInjective('g', 'd');
    }
  }

  lemma RenderBytes(c: Conversation, m: string)
    ensures Bytes(Render(NameOf(c), m)) == Bytes(BEFORE_NAME) + Bytes(NameOf(c)) + Bytes(AFTER_NAME) + Bytes(m)
              + Bytes("\"}")
  {
    BytesConcat(BEFORE_NAME, NameOf(c));
    BytesConcat(BEFORE_NAME + NameOf(c), AFTER_NAME);
    BytesConcat(BEFORE_NAME + NameOf(c) + AFTER_NAME, m);
    BytesConcat(BEFORE_NAME + NameOf(c) + AFTER_NAME + m, "\"}");
  }

  lemma FormatIsByteText(n: nat)
    ensures ByteText(Format(n))
  {
    ParseFormatNat(n);
    forall i | 0 <= i < |Format(n)| ensures Format(n)[i] as int < 256 {
      assert Format(n)[i] in FormatNat(n);
    }
  }

  ghost predicate Spells(raw: seq<Byte>, c: Conversation, n: nat) {
    ValidConversation(c) && raw == Bytes(Render(NameOf(c), Format(n)))
  }

  ghost function ReadCanonical(raw: seq<Byte>): Option<Fields> {
    if c: Conversation, n: nat :| Spells(raw, c, n) then Some(Fields(1, NameOf(c), Format(n))) else None
  }

  /** Only one conversation and number spell the same bytes. */
  lemma SpellsOnce(raw: seq<Byte>, c: Conversation, m: nat, d: Conversation, n: nat)
    requires Spells(raw, c, m) && Spells(raw, d, n)
    ensures c == d && Format(m) == Format(n)
  {
    hide ValidConversation, Render, NameOf, Bytes, Format, ByteText;
    FormatIsByteText(m);
    FormatIsByteText(n);
    RenderInjective(c, Format(m), d, Format(n));
  }

  lemma ReadsOne(c: Conversation, after: nat)
    requires ValidConversation(c)
    ensures ReadCanonical(Bytes(Render(NameOf(c), Format(after)))) == Some(Fields(1, NameOf(c), Format(after)))
  {
    hide ValidConversation, Render, NameOf, Bytes, Format;
    var raw := Bytes(Render(NameOf(c), Format(after)));
    assert Spells(raw, c, after);
    hide Spells;
    var d: Conversation, n: nat :| Spells(raw, d, n) && ReadCanonical(raw) == Some(Fields(1, NameOf(d), Format(n)));
    SpellsOnce(raw, c, after, d, n);
  }

  /** The requirement on the reader can be met: what the encoder writes determines what was written. */
  lemma ReaderExists()
    ensures exists parse: seq<Byte> -> Option<Fields> :: ReadsBack(parse)
  {
    hide ValidConversation, Render, NameOf, Bytes, Format, ReadCanonical;
    ghost var parse: seq<Byte> -> Option<Fields> := raw => ReadCanonical(raw);
    forall c: Conversation, after: int | ValidConversation(c) && after >= 0
      ensures parse(Bytes(Render(NameOf(c), Format(after)))) == Some(Fields(1, NameOf(c), Format(after)))
    {
      ReadsOne(c, after);
    }
    assert ReadsBack(parse);
  }
}
