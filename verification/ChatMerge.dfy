/**
 The browser's view of one conversation: live messages, synchronisation pages and send receipts merged in whatever
 order they arrive. While a synchronisation runs, live messages wait in a buffer that is emptied when it gets long.
 */
module ChatMerge {
  import opened Wrappers
  import opened Decimal
  import opened ByteOrder
  import P = PushTasks

  const FLUSH_AT := 1000

  /** A saved message and what the last receipt said about its dispatch. */
  datatype Saved = Saved(message: P.Message, delivery: Option<string>)

  datatype Chat = Chat(
    id: string, receiveId: string, receiveType: string, saved: map<string, Saved>, buffer: map<string, P.Message>,
    cursor: string, syncing: bool)

  datatype Page = Page(conversation: string, messages: seq<P.Message>, next: string, hasMore: bool)

  predicate PositionText(s: string) {
    1 <= |s| <= 19 && s[0] != '0' && (forall c | c in s :: IsDigit(c)) && ParseDigits(s) <= MAX_INT64
  }

  predicate StartsWith(s: string, c: char) {
    s != "" && s[0] == c
  }

  predicate ValidMessage(m: P.Message) {
    && m.messageId != "" && m.sessionId != "" && m.sendId != "" && m.receiveId != "" && m.conversationId != ""
    && 0 < |m.content| <= P.MAX_CONTENT && PositionText(m.position)
    && m.kind == "text" && (m.origin == "user" || m.origin == "ai")
    && if m.receiveType == "user" then
         m.conversationId == "direct:" + m.sessionId && StartsWith(m.sessionId, 'S') && StartsWith(m.receiveId, 'U')
       else
         && m.receiveType == "group" && m.conversationId == "group:" + m.sessionId
         && StartsWith(m.sessionId, 'G') && m.receiveId == m.sessionId
  }

  // ----- merging, on values -----

  function DeliveryOf(saved: map<string, Saved>, id: string): Option<string> {
    if id in saved then saved[id].delivery else None
  }

  /** A message replaces its earlier copy but keeps what a receipt said about it. */
  function Merge(saved: map<string, Saved>, m: P.Message): map<string, Saved> {
    saved[m.messageId := Saved(m, DeliveryOf(saved, m.messageId))]
  }

  function MergeAll(saved: map<string, Saved>, messages: seq<P.Message>): map<string, Saved> {
    if messages == [] then saved else Merge(MergeAll(saved, messages[..|messages| - 1]), messages[|messages| - 1])
  }

  /** The buffered messages merged; each has its own id, so their order does not matter. */
  function Flush(saved: map<string, Saved>, buffer: map<string, P.Message>): map<string, Saved> {
    map id | id in saved.Keys + buffer.Keys ::
      if id in buffer then Saved(buffer[id], DeliveryOf(saved, id)) else saved[id]
  }

  function Flushed(chat: Chat): Chat {
    chat.(saved := Flush(chat.saved, chat.buffer), buffer := map[])
  }

  /** A page is merged only if it is for this chat, sound throughout, and moves the cursor as a page should. */
  predicate PageAccepted(chat: Chat, page: Page) {
    && page.conversation == chat.id
    && (if page.messages == [] then page.next == chat.cursor else page.next != "")
    && (page.hasMore ==> page.messages != [] && page.next != chat.cursor)
    && forall m | m in page.messages :: ValidMessage(m) && m.conversationId == chat.id
  }

  function AfterPage(chat: Chat, page: Page): Chat {
    if PageAccepted(chat, page) then chat.(saved := MergeAll(chat.saved, page.messages), cursor := page.next) else chat
  }

  function AfterLive(chat: Chat, m: P.Message): Chat {
    if !chat.syncing then chat.(saved := Merge(chat.saved, m))
    else
      var buffered := chat.(buffer := chat.buffer[m.messageId := m]);
      if |buffered.buffer| >= FLUSH_AT then Flushed(buffered) else buffered
  }

  function AfterReceipt(chat: Chat, m: P.Message, dispatch: string): Chat {
    chat.(saved := chat.saved[m.messageId := Saved(m, Some(dispatch))])
  }

  // ----- what a chat knows -----

  /** Something accepted: a message, possibly with a receipt. */
  datatype Fact = Fact(message: P.Message, receipt: Option<string>)

  predicate Known(facts: seq<Fact>, id: string) {
    exists k :: 0 <= k < |facts| && facts[k].message.messageId == id
  }

  function LastReceipt(facts: seq<Fact>, id: string): Option<string> {
    if facts == [] then None
    else
      var last := facts[|facts| - 1];
      if last.message.messageId == id && last.receipt.Some? then last.receipt else LastReceipt(facts[..|facts| - 1], id)
  }

  /** Equal ids carry equal messages: what the server stores once, it shows the same to everybody. */
  predicate Consistent(facts: seq<Fact>) {
    forall j, k | 0 <= j < |facts| && 0 <= k < |facts| && facts[j].message.messageId == facts[k].message.messageId ::
      facts[j].message == facts[k].message
  }

  predicate Keyed(chat: Chat) {
    && (forall id | id in chat.saved :: chat.saved[id].message.messageId == id)
    && (forall id | id in chat.buffer :: chat.buffer[id].messageId == id)
  }

  predicate Holds(chat: Chat, id: string) {
    id in chat.saved || id in chat.buffer
  }

  predicate Shows(chat: Chat, m: P.Message) {
    && (m.messageId in chat.saved ==> chat.saved[m.messageId].message == m)
    && (m.messageId in chat.buffer ==> chat.buffer[m.messageId] == m)
  }

  /**
   The chat holds the accepted messages and nothing else, each with its last receipt; the buffer is for syncing only.
   */
  ghost predicate Explained(chat: Chat, facts: seq<Fact>) {
    && Keyed(chat) && |chat.buffer| < FLUSH_AT && (!chat.syncing ==> chat.buffer == map[])
    && (forall id :: Holds(chat, id) <==> Known(facts, id))
    && (forall id :: DeliveryOf(chat.saved, id) == LastReceipt(facts, id))
    && (Consistent(facts) ==> forall k | 0 <= k < |facts| :: Shows(chat, facts[k].message))
  }

  lemma KnownMore(facts: seq<Fact>, f: Fact)
    ensures forall id :: Known(facts + [f], id) <==> Known(facts, id) || id == f.message.messageId
    ensures forall id :: LastReceipt(facts + [f], id)
                      == if id == f.message.messageId && f.receipt.Some? then f.receipt else LastReceipt(facts, id)
    ensures Consistent(facts + [f]) ==> Consistent(facts)
    ensures Consistent(facts + [f]) ==>
              forall k | 0 <= k < |facts| && facts[k].message.messageId == f.message.messageId ::
                  facts[k].message == f.message
  {
    var more := facts + [f];
    assert more[|facts|] == f && more[..|facts|] == facts;
    forall id ensures Known(more, id) <==> Known(facts, id) || id == f.message.messageId {
      if Known(facts, id) {
        var k :| 0 <= k < |facts| && facts[k].message.messageId == id;
        assert more[k].message.messageId == id;
      }
    }
    assert forall k | 0 <= k < |facts| :: more[k] == facts[k];
  }

  /** A message known before is shown as it arrives again. */
  lemma AlreadyShown(chat: Chat, facts: seq<Fact>, f: Fact)
    requires Explained(chat, facts) && Consistent(facts + [f])
    ensures Shows(chat, f.message)
  {
    KnownMore(facts, f);
    var id := f.message.messageId;
    if Holds(chat, id) {
      assert Known(facts, id);
      var k :| 0 <= k < |facts| && facts[k].message.messageId == id;
      assert Shows(chat, facts[k].message);
    }
  }

  lemma MergeExplained(chat: Chat, facts: seq<Fact>, m: P.Message)
    requires Explained(chat, facts)
    ensures Explained(chat.(saved := Merge(chat.saved, m)), facts + [Fact(m, None)])
  {
    var f := Fact(m, None);
    KnownMore(facts, f);
    if Consistent(facts + [f]) {
      AlreadyShown(chat, facts, f);
    }
    hide Known, LastReceipt, Consistent;
  }

  lemma ReceiptExplained(chat: Chat, facts: seq<Fact>, m: P.Message, dispatch: string)
    requires Explained(chat, facts)
    ensures Explained(AfterReceipt(chat, m, dispatch), facts + [Fact(m, Some(dispatch))])
  {
    var f := Fact(m, Some(dispatch));
    KnownMore(facts, f);
    if Consistent(facts + [f]) {
      AlreadyShown(chat, facts, f);
    }
    hide Known, LastReceipt, Consistent;
  }

  /** Putting a message into the buffer of a chat that has room for it. */
  lemma BufferExplained(chat: Chat, facts: seq<Fact>, m: P.Message)
    requires Explained(chat, facts) && chat.syncing && |chat.buffer[m.messageId := m]| < FLUSH_AT
    ensures Explained(chat.(buffer := chat.buffer[m.messageId := m]), facts + [Fact(m, None)])
  {
    var f := Fact(m, None);
    KnownMore(facts, f);
    if Consistent(facts + [f]) {
      AlreadyShown(chat, facts, f);
    }
    hide Known, LastReceipt, Consistent;
  }

  lemma FlushKeeps(chat: Chat, id: string)
    ensures Holds(Flushed(chat), id) <==> Holds(chat, id)
    ensures DeliveryOf(Flushed(chat).saved, id) == DeliveryOf(chat.saved, id)
  {
  }

  lemma FlushShows(chat: Chat, m: P.Message)
    requires Shows(chat, m)
    ensures Shows(Flushed(chat), m)
  {
  }

  lemma FlushExplained(chat: Chat, facts: seq<Fact>)
    requires Explained(chat, facts)
    ensures Explained(Flushed(chat), facts)
  {
    hide Known, LastReceipt, Consistent, Shows, Holds, DeliveryOf;
    var n := Flushed(chat);
    forall id ensures (Holds(n, id) <==> Known(facts, id)) && DeliveryOf(n.saved, id) == LastReceipt(facts, id) {
      FlushKeeps(chat, id);
    }
    if Consistent(facts) {
      forall k | 0 <= k < |facts| ensures Shows(n, facts[k].message) {
        FlushShows(chat, facts[k].message);
      }
    }
  }

  /** Buffering the message that fills the buffer comes to the same as flushing, then merging it. */
  lemma FillIsFlushAndMerge(chat: Chat, m: P.Message)
    ensures Flushed(chat.(buffer := chat.buffer[m.messageId := m]))
         == Flushed(chat).(saved := Merge(Flush(chat.saved, chat.buffer), m))
  {
  }

  lemma LiveExplained(chat: Chat, facts: seq<Fact>, m: P.Message)
    requires Explained(chat, facts)
    ensures Explained(AfterLive(chat, m), facts + [Fact(m, None)])
  {
    hide Known, LastReceipt, Consistent, Merge, Flush;
    if !chat.syncing {
      MergeExplained(chat, facts, m);
    } else if |chat.buffer[m.messageId := m]| >= FLUSH_AT {
      FlushExplained(chat, facts);
      MergeExplained(Flushed(chat), facts, m);
      FillIsFlushAndMerge(chat, m);
    } else {
      BufferExplained(chat, facts, m);
    }
  }

  function PageFacts(messages: seq<P.Message>): (facts: seq<Fact>)
    ensures |facts| == |messages|
  {
    seq(|messages|, i requires 0 <= i < |messages| => Fact(messages[i], None))
  }

  lemma {:induction false} MergeAllExplained(chat: Chat, facts: seq<Fact>, messages: seq<P.Message>)
    requires Explained(chat, facts)
    ensures Explained(chat.(saved := MergeAll(chat.saved, messages)), facts + PageFacts(messages))
    decreases |messages|
  {
    hide Explained;
    if messages == [] {
      assert facts + PageFacts(messages) == facts;
    } else {
      var front, last := messages[..|messages| - 1], messages[|messages| - 1];
      MergeAllExplained(chat, facts, front);
      MergeExplained(chat.(saved := MergeAll(chat.saved, front)), facts + PageFacts(front), last);
      assert facts + PageFacts(front) + [Fact(last, None)] == facts + PageFacts(messages);
    }
  }

  /** An accepted page is merged entirely; a refused one changes nothing. */
  lemma PageExplained(chat: Chat, facts: seq<Fact>, page: Page)
    requires Explained(chat, facts)
    ensures Explained(AfterPage(chat, page),
                      if PageAccepted(chat, page) then facts + PageFacts(page.messages) else facts)
  {
    hide Known, LastReceipt, Consistent;
    MergeAllExplained(chat, facts, page.messages);
  }

  lemma {:induction false} MergeAllHolds(saved: map<string, Saved>, messages: seq<P.Message>)
    ensures forall m | m in messages :: m.messageId in MergeAll(saved, messages)
    decreases |messages|
  {
    if messages != [] {
      MergeAllHolds(saved, messages[..|messages| - 1]);
    }
  }

  // ----- convergence -----

  predicate Has(facts: seq<Fact>, m: P.Message) {
    exists k :: 0 <= k < |facts| && facts[k].message == m
  }

  /** Both logs hold the same messages, and for each id the same last receipt. */
  ghost predicate SameAccepted(a: seq<Fact>, b: seq<Fact>) {
    && (forall k | 0 <= k < |a| :: Has(b, a[k].message))
    && (forall k | 0 <= k < |b| :: Has(a, b[k].message))
    && (forall id :: LastReceipt(a, id) == LastReceipt(b, id))
  }

  /**
   However the accepted messages, pages and receipts were interleaved, flushes included, two chats that are not in a
   synchronisation and accepted the same have the same saved messages with the same delivery states.
   */
  lemma Convergence(a: Chat, b: Chat, f: seq<Fact>, g: seq<Fact>)
    requires Explained(a, f) && Explained(b, g) && !a.syncing && !b.syncing
    requires Consistent(f) && Consistent(g) && SameAccepted(f, g)
    ensures a.saved == b.saved
  {
    hide LastReceipt, Consistent;
    forall id ensures id in a.saved <==> id in b.saved {
      SameKnown(f, g, id);
      assert Holds(a, id) <==> Known(f, id);
      assert Holds(b, id) <==> Known(g, id);
    }
    forall id | id in a.saved ensures a.saved[id] == b.saved[id] {
      assert Holds(a, id) && DeliveryOf(a.saved, id) == LastReceipt(f, id)
             && DeliveryOf(b.saved, id) == LastReceipt(g, id);
      var k :| 0 <= k < |f| && f[k].message.messageId == id;
      assert Shows(a, f[k].message) && Has(g, f[k].message);
      var l :| 0 <= l < |g| && g[l].message == f[k].message;
      assert Shows(b, g[l].message);
    }
  }

  lemma SameKnown(f: seq<Fact>, g: seq<Fact>, id: string)
    requires SameAccepted(f, g)
    ensures Known(f, id) <==> Known(g, id)
  {
    if Known(f, id) {
      KnownThere(f, g, id);
    }
    if Known(g, id) {
      KnownThere(g, f, id);
    }
  }

  lemma KnownThere(f: seq<Fact>, g: seq<Fact>, id: string)
    requires Known(f, id) && forall k | 0 <= k < |f| :: Has(g, f[k].message)
    ensures Known(g, id)
  {
    var k :| 0 <= k < |f| && f[k].message.messageId == id;
    assert Has(g, f[k].message);
    var l :| 0 <= l < |g| && g[l].message == f[k].message;
  }

  // ----- the snapshot shown -----

  function PositionOf(m: P.Message): nat {
    if forall c | c in m.position :: IsDigit(c) then ParseDigits(m.position) else 0
  }

  /** By position, then by id; ids are compared byte by byte. */
  predicate Before(a: P.Message, b: P.Message) {
    PositionOf(a) < PositionOf(b) || (PositionOf(a) == PositionOf(b) && Less(a.messageId, b.messageId))
  }

  lemma BeforeIsStrict(a: P.Message, b: P.Message)
    ensures !(Before(a, b) && Before(b, a))
    ensures Before(a, b) || Before(b, a) || a.messageId == b.messageId
  {
    LessIsStrict(a.messageId, b.messageId);
  }

  lemma BeforeTransitive(a: P.Message, b: P.Message, c: P.Message)
    requires Before(a, b) && Before(b, c)
    ensures Before(a, c)
  {
    if PositionOf(a) == PositionOf(b) == PositionOf(c) {
      LessTransitive(a.messageId, b.messageId, c.messageId);
    }
  }

  predicate Ordered(s: seq<Saved>) {
    forall i, j | 0 <= i < j < |s| :: Before(s[i].message, s[j].message)
  }

  /** Every saved message once, in order. */
  ghost predicate IsSnapshot(saved: map<string, Saved>, s: seq<Saved>) {
    Ordered(s) && forall e :: e in s <==> exists id :: id in saved && saved[id] == e
  }

  /** Puts a message where it belongs. */
  function Insert(s: seq<Saved>, e: Saved): (r: seq<Saved>)
    ensures forall x :: x in r <==> x in s || x == e
  {
    if s == [] then [e]
    else
      var last := |s| - 1;
      if Before(s[last].message, e.message) then s + [e]
      else
        assert s == s[..last] + [s[last]];
        Insert(s[..last], e) + [s[last]]
  }

  lemma {:induction false} InsertOrdered(s: seq<Saved>, e: Saved)
    requires Ordered(s) && forall x | x in s :: x.message.messageId != e.message.messageId
    ensures Ordered(Insert(s, e))
  {
    hide Before;
    if s != [] {
      var last := |s| - 1;
      if Before(s[last].message, e.message) {
        forall i | 0 <= i < last ensures Before(s[i].message, e.message) {
          BeforeTransitive(s[i].message, s[last].message, e.message);
        }
      } else {
        InsertOrdered(s[..last], e);
        assert s[last] in s;
        BeforeIsStrict(s[last].message, e.message);
        var front := Insert(s[..last], e);
        forall i | 0 <= i < |front| ensures Before(front[i].message, s[last].message) {
          assert front[i] in front;
          if front[i] != e {
            var j :| 0 <= j < last && s[..last][j] == front[i];
          }
        }
      }
    }
  }

  /** No message id appears twice. */
  lemma SnapshotHasNoRepeats(saved: map<string, Saved>, s: seq<Saved>, i: nat, j: nat)
    requires IsSnapshot(saved, s) && (forall id | id in saved :: saved[id].message.messageId == id) && i < j < |s|
    ensures s[i].message.messageId != s[j].message.messageId
  {
    assert s[i] in s && s[j] in s;
    BeforeIsStrict(s[i].message, s[j].message);
  }

  method Snapshot(saved: map<string, Saved>) returns (s: seq<Saved>)
    requires forall id | id in saved :: saved[id].message.messageId == id
    ensures IsSnapshot(saved, s)
    ensures forall i, j | 0 <= i < j < |s| :: s[i].message.messageId != s[j].message.messageId
  {
    hide Before, Ordered;
    s := [];
    assert Ordered([]) by {
      EmptyOrdered();
    }
    var rest := saved.Keys;
    while rest != {}
      invariant rest <= saved.Keys && Ordered(s)
      invariant forall e :: e in s <==> exists id :: id in saved && id !in rest && saved[id] == e
      decreases rest
    {
      var id :| id in rest;
      InsertOrdered(s, saved[id]);
      s := Insert(s, saved[id]);
      rest := rest - {id};
    }
    forall i, j | 0 <= i < j < |s| ensures s[i].message.messageId != s[j].message.messageId {
      SnapshotHasNoRepeats(saved, s, i, j);
    }
  }

  lemma EmptyOrdered()
    ensures Ordered([])
  {
  }

  ghost predicate SameMembers(s: seq<Saved>, t: seq<Saved>) {
    forall e :: e in s <==> e in t
  }

  lemma NoMembers(s: seq<Saved>, t: seq<Saved>)
    requires SameMembers(s, t) || SameMembers(t, s)
    ensures s == [] ==> t == []
  {
    if t != [] {
      assert t[0] in t;
    }
  }

  lemma LastsInside(s: seq<Saved>, t: seq<Saved>)
    requires SameMembers(s, t) && s != [] && t != []
    ensures s[|s| - 1] in t && t[|t| - 1] in s
  {
  }

  /** There is only one snapshot of the same saved messages. */
  lemma {:induction false} SnapshotUnique(s: seq<Saved>, t: seq<Saved>)
    requires Ordered(s) && Ordered(t) && SameMembers(s, t)
    ensures s == t
    decreases |s|
  {
    hide Ordered, Before, SameMembers;
    if s == [] {
      NoMembers(s, t);
    } else {
      NoMembers(t, s);
      LastsInside(s, t);
      LastIsSame(s, t);
      FrontsAgree(s, t);
      SnapshotUnique(s[..|s| - 1], t[..|t| - 1]);
      assert s == s[..|s| - 1] + [s[|s| - 1]] && t == t[..|t| - 1] + [t[|t| - 1]];
    }
  }

  lemma FrontsAgree(s: seq<Saved>, t: seq<Saved>)
    requires Ordered(s) && Ordered(t) && SameMembers(s, t) && s != [] && t != [] && s[|s| - 1] == t[|t| - 1]
    ensures var s0, t0 := s[..|s| - 1], t[..|t| - 1];
            SameMembers(s0, t0) && Ordered(s0) && Ordered(t0)
  {
    hide Before;
    var s0, t0 := s[..|s| - 1], t[..|t| - 1];
    forall e ensures e in s0 <==> e in t0 {
      assert e in s <==> e in t;
      LastOnce(s, e);
      LastOnce(t, e);
    }
  }

  lemma LastOnce(s: seq<Saved>, e: Saved)
    requires Ordered(s) && s != []
    ensures e in s[..|s| - 1] <==> e in s && e != s[|s| - 1]
  {
    if e in s[..|s| - 1] {
      var i :| 0 <= i < |s| - 1 && s[i] == e;
      BeforeIsStrict(s[i].message, s[|s| - 1].message);
    }
  }

  lemma LastIsSame(s: seq<Saved>, t: seq<Saved>)
    requires Ordered(s) && Ordered(t) && s != [] && t != []
    requires s[|s| - 1] in t && t[|t| - 1] in s
    ensures s[|s| - 1] == t[|t| - 1]
  {
    var i :| 0 <= i < |t| && t[i] == s[|s| - 1];
    var j :| 0 <= j < |s| && s[j] == t[|t| - 1];
    BeforeIsStrict(s[|s| - 1].message, t[|t| - 1].message);
  }

  /** Two browsers that accepted the same show the same, in the same order. */
  lemma SameView(a: Chat, b: Chat, f: seq<Fact>, g: seq<Fact>, s: seq<Saved>, t: seq<Saved>)
    requires Explained(a, f) && Explained(b, g) && !a.syncing && !b.syncing
    requires Consistent(f) && Consistent(g) && SameAccepted(f, g)
    requires IsSnapshot(a.saved, s) && IsSnapshot(b.saved, t)
    ensures s == t
  {
    Convergence(a, b, f, g);
    hide Before, Ordered, Explained;
    assert SameMembers(s, t);
    SnapshotUnique(s, t);
  }

  // ----- the state of all chats -----

  /** A message sent from here whose result is still open. */
  datatype Pending = Pending(
    conversation: string, receiveId: string, receiveType: string, content: string, status: string, retryable: bool,
    error: Option<string>)

  datatype SendOutcome =
    | Refused(code: string, retry: string)
    | Stored(clientId: string, message: P.Message, dispatch: string)

  const DISPATCHES := {"queued", "not_queued", "unknown"}
  const RETRIES := {"do_not_retry", "same_request", "reconnect", "reauthenticate", "refresh_route"}
  const ERRORS := {"invalid_argument", "idempotency_conflict", "unauthenticated", "permission_denied", "superseded",
    "lease_expired", "instance_not_registered", "dependency_unavailable", "resource_exhausted", "draining",
    "result_unknown"}

  predicate ValidResult(clientId: string, outcome: SendOutcome) {
    && clientId != ""
    && match outcome
       case Refused(code, retry) => code in ERRORS && retry in RETRIES
       case Stored(id, message, dispatch) => id == clientId && dispatch in DISPATCHES && ValidMessage(message)
  }

  /** The stored message is the one that was sent. */
  predicate IsOwn(item: Pending, user: string, m: P.Message) {
    && m.conversationId == item.conversation && m.sendId == user && m.content == item.content
    && m.receiveId == item.receiveId && m.receiveType == item.receiveType && m.origin == "user"
  }

  lemma EmptyExplained(id: string, receiveId: string, receiveType: string)
    ensures Explained(Chat(id, receiveId, receiveType, map[], map[], "", false), [])
  {
  }

  lemma SyncingExplained(chat: Chat, facts: seq<Fact>, syncing: bool)
    requires Explained(chat, facts) && (!syncing ==> chat.buffer == map[])
    ensures Explained(chat.(syncing := syncing), facts + [])
  {
    hide Known, LastReceipt, Consistent;
    assert facts + [] == facts;
    var n := chat.(syncing := syncing);
    assert forall id :: Holds(n, id) <==> Holds(chat, id);
    assert forall k | 0 <= k < |facts| :: Shows(chat, facts[k].message) ==> Shows(n, facts[k].message);
  }

  function Without(buffer: map<string, P.Message>, rest: set<string>): map<string, P.Message> {
    map b | b in buffer && b !in rest :: buffer[b]
  }

  lemma FlushOneMore(saved: map<string, Saved>, buffer: map<string, P.Message>, rest: set<string>, id: string)
    requires id in rest && rest <= buffer.Keys
    ensures var before := Flush(saved, Without(buffer, rest));
            Flush(saved, Without(buffer, rest - {id})) == before[id := Saved(buffer[id], DeliveryOf(before, id))]
  {
  }

  /** A new empty chat leaves every chat explained. */
  lemma NewChatKept(chats: map<string, Chat>, log: map<string, seq<Fact>>, chat: Chat)
    requires chats.Keys == log.Keys && forall id | id in chats :: chats[id].id == id && Explained(chats[id], log[id])
    requires chat == Chat(chat.id, chat.receiveId, chat.receiveType, map[], map[], "", false)
    ensures var more, longer := chats[chat.id := chat], log[chat.id := []];
            && more.Keys == longer.Keys
            && forall id | id in more :: more[id].id == id && Explained(more[id], longer[id])
  {
    EmptyExplained(chat.id, chat.receiveId, chat.receiveType);
    hide Explained;
  }

  class ChatState {
    const user: string
    const maxPending: nat
    var chats: map<string, Chat>
    /** The pending items of all chats; a client id is pending in one chat only. */
    var pending: map<string, Pending>
    /** What each chat has accepted so far. */
    ghost var log: map<string, seq<Fact>>

    ghost predicate Valid()
      reads this
    {
      && chats.Keys == log.Keys
      && (forall id | id in chats :: chats[id].id == id && Explained(chats[id], log[id]))
      && (forall c | c in pending :: pending[c].conversation in chats)
      && |pending| <= maxPending
    }

    /** Chat `id` became `chat` and accepted `more`; nothing else changed. */
    twostate predicate Became(id: string, chat: Chat, more: seq<Fact>)
      reads this
    {
      && id in old(chats) && id in old(log)
      && chats == old(chats)[id := chat] && log == old(log)[id := old(log[id]) + more]
    }

    twostate predicate Same()
      reads this
    {
      chats == old(chats) && log == old(log)
    }

    constructor (user: string, maxPending: nat)
      ensures Valid() && chats == map[] && pending == map[]
    {
      this.user, this.maxPending := user, maxPending;
      chats, pending, log := map[], map[], map[];
    }

    /** The chat object changes, and what made it change is remembered. */
    method Put(id: string, chat: Chat, ghost more: seq<Fact>)
      requires Valid() && id in chats && chat.id == id && Explained(chat, log[id] + more)
      modifies this`chats, this`log
      ensures Valid() && Became(id, chat, more)
    {
      hide Explained;
      chats := chats[id := chat];
      log := log[id := log[id] + more];
    }

    method Select(id: string, receiveId: string, receiveType: string)
      requires Valid()
      modifies this`chats, this`log
      ensures Valid()
      ensures if id in old(chats) then Same()
              else && chats == old(chats)[id := Chat(id, receiveId, receiveType, map[], map[], "", false)]
                   && log == old(log)[id := []]
    {
      hide Explained;
      if id !in chats {
        var chat := Chat(id, receiveId, receiveType, map[], map[], "", false);
        NewChatKept(chats, log, chat);
        chats := chats[id := chat];
        log := log[id := []];
      }
    }

    method BeginSync(id: string) returns (cursor: string)
      requires Valid() && id in chats
      modifies this`chats, this`log
      ensures Valid() && cursor == old(chats[id]).cursor
      ensures Became(id, old(chats[id]).(syncing := true), [])
    {
      hide Explained;
      SyncingExplained(chats[id], log[id], true);
      Put(id, chats[id].(syncing := true), []);
      cursor := chats[id].cursor;
    }

    /** Merges the messages one by one, after all have been checked; the cursor moves last. */
    method MergePage(id: string, page: Page) returns (ok: bool)
      requires Valid()
      modifies this`chats, this`log
      ensures Valid()
      ensures ok <==> id in old(chats) && PageAccepted(old(chats[id]), page)
      ensures if ok then Became(id, AfterPage(old(chats[id]), page), PageFacts(page.messages)) else Same()
    {
      hide Explained, PageAccepted;
      if id !in chats || !PageAccepted(chats[id], page) {
        return false;
      }
      PageExplained(chats[id], log[id], page);
      var chat := chats[id];
      for i := 0 to |page.messages|
        invariant chat == old(chats[id]).(saved := MergeAll(old(chats[id]).saved, page.messages[..i]))
      {
        assert page.messages[..i + 1][..i] == page.messages[..i];
        chat := chat.(saved := Merge(chat.saved, page.messages[i]));
      }
      assert page.messages[..|page.messages|] == page.messages;
      Put(id, chat.(cursor := page.next), PageFacts(page.messages));
      ok := true;
    }

    /** Merges the buffered messages, in whatever order. */
    method FlushBuffer(chat: Chat) returns (r: Chat)
      ensures r == Flushed(chat)
    {
      var saved, rest := chat.saved, chat.buffer.Keys;
      while rest != {}
        invariant rest <= chat.buffer.Keys
        invariant saved == Flush(chat.saved, Without(chat.buffer, rest))
        decreases rest
      {
        var id :| id in rest;
        FlushOneMore(chat.saved, chat.buffer, rest, id);
        saved := saved[id := Saved(chat.buffer[id], DeliveryOf(saved, id))];
        rest := rest - {id};
      }
      assert Without(chat.buffer, {}) == chat.buffer;
      r := chat.(saved := saved, buffer := map[]);
    }

    method FinishSync(id: string)
      requires Valid()
      modifies this`chats, this`log
      ensures Valid()
      ensures if id in old(chats) then Became(id, Flushed(old(chats[id])).(syncing := false), []) else Same()
    {
      hide Explained, Flush;
      if id !in chats {
        return;
      }
      FlushExplained(chats[id], log[id]);
      SyncingExplained(Flushed(chats[id]), log[id], false);
      var chat := FlushBuffer(chats[id]);
      Put(id, chat.(syncing := false), []);
    }

    method Receive(m: P.Message) returns (ok: bool)
      requires Valid()
      modifies this`chats, this`log
      ensures Valid()
      ensures ok <==> ValidMessage(m) && m.conversationId in old(chats)
      ensures if ok then Became(m.conversationId, AfterLive(old(chats[m.conversationId]), m), [Fact(m, None)])
                else Same()
    {
      hide Explained, Merge, Flush, ValidMessage;
      var id := m.conversationId;
      if !ValidMessage(m) || id !in chats {
        return false;
      }
      var chat := chats[id];
      LiveExplained(chat, log[id], m);
      if chat.syncing {
        chat := chat.(buffer := chat.buffer[m.messageId := m]);
        if |chat.buffer| >= FLUSH_AT {
          chat := FlushBuffer(chat);
        }
      } else {
        chat := chat.(saved := Merge(chat.saved, m));
      }
      Put(id, chat, [Fact(m, None)]);
      ok := true;
    }

    /** An item is created only under a client id that is not pending anywhere, and within the limit. */
    method CreatePending(id: string, content: string, clientId: string) returns (ok: bool)
      requires Valid()
      modifies this`pending
      ensures Valid()
      ensures ok <==>
                && id in chats && 0 < |content| <= P.MAX_CONTENT
                && clientId !in old(pending) && |old(pending)| < maxPending
      ensures pending ==
                if ok
                then
                  old(pending)[clientId :=
                    Pending(id, chats[id].receiveId, chats[id].receiveType, content, "pending", true, None)]
                         else old(pending)
    {
      hide Explained;
      if id !in chats || content == "" || |content| > P.MAX_CONTENT || clientId in pending || |pending| >= maxPending {
        return false;
      }
      pending := pending[clientId :=
        Pending(id, chats[id].receiveId, chats[id].receiveType, content, "pending", true, None)];
      ok := true;
    }

    /** The very same request may be sent again unless it is under way or must not be repeated. */
    method Retry(clientId: string) returns (ok: bool)
      requires Valid()
      modifies this`pending
      ensures Valid()
      ensures ok <==>
                && clientId in old(pending)
                && old(pending[clientId]).retryable && old(pending[clientId]).status != "pending"
      ensures pending ==
                if ok then old(pending)[clientId := old(pending[clientId]).(status := "pending", error := None)]
                else old(pending)
    {
      hide Explained;
      if clientId !in pending || !pending[clientId].retryable || pending[clientId].status == "pending" {
        return false;
      }
      var again := pending[clientId].(status := "pending", error := None);
      SameSize(pending, clientId, again);
      pending := pending[clientId := again];
      ok := true;
    }

    method Uncertain(clientId: string)
      requires Valid()
      modifies this`pending
      ensures Valid()
      ensures pending == if clientId in old(pending)
                then old(pending)[clientId := old(pending[clientId]).(status := "uncertain")]
                         else old(pending)
    {
      hide Explained;
      if clientId in pending {
        var open := pending[clientId].(status := "uncertain");
        SameSize(pending, clientId, open);
        pending := pending[clientId := open];
      }
    }

    /** Replaces any earlier receipt for the message by this one. */
    method Settle(id: string, message: P.Message, dispatch: string)
      requires Valid() && id in chats
      modifies this`chats, this`log
      ensures Valid() && Became(id, AfterReceipt(old(chats[id]), message, dispatch), [Fact(message, Some(dispatch))])
    {
      hide Explained;
      ReceiptExplained(chats[id], log[id], message, dispatch);
      var saved := Merge(chats[id].saved, message);
      saved := saved[message.messageId := saved[message.messageId].(delivery := Some(dispatch))];
      assert saved == chats[id].saved[message.messageId := Saved(message, Some(dispatch))];
      Put(id, chats[id].(saved := saved), [Fact(message, Some(dispatch))]);
    }

    /** A send result: an error leaves the item open, a receipt for the very message sent replaces it. */
    method Result(clientId: string, outcome: SendOutcome) returns (ok: bool)
      requires Valid()
      modifies this`chats, this`pending, this`log
      ensures Valid()
      ensures ok <==> && ValidResult(clientId, outcome) && clientId in old(pending)
                      && (outcome.Stored? ==> IsOwn(old(pending[clientId]), user, outcome.message))
      ensures if ok && outcome.Stored?
              then && Became(old(pending[clientId]).conversation,
                             AfterReceipt(old(chats[pending[clientId].conversation]), outcome.message,
                                          outcome.dispatch),
                             [Fact(outcome.message, Some(outcome.dispatch))])
                   && pending == old(pending) - {clientId}
              else Same()
      ensures !ok ==> pending == old(pending)
      ensures ok && outcome.Refused? ==>
                pending == old(pending)[clientId := old(pending[clientId]).(
                  status := "uncertain", error := Some(outcome.code),
                  retryable := outcome.retry !in {"do_not_retry", "reauthenticate"})]
    {
      hide Explained, ValidMessage;
      if !ValidResult(clientId, outcome) || clientId !in pending {
        return false;
      }
      var item := pending[clientId];
      match outcome
      case Refused(code, retry) =>
        var open := item.(status := "uncertain", error := Some(code),
                          retryable := retry !in {"do_not_retry", "reauthenticate"});
        SameSize(pending, clientId, open);
        pending := pending[clientId := open];
        ok := true;
      case Stored(_, message, dispatch) =>
        if !IsOwn(item, user, message) {
          return false;
        }
        Settle(item.conversation, message, dispatch);
        pending := pending - {clientId};
        ok := true;
    }
  }

  lemma SameSize(pending: map<string, Pending>, clientId: string, item: Pending)
    requires clientId in pending
    ensures |pending[clientId := item]| == |pending|
  {
    assert pending[clientId := item].Keys == pending.Keys;
  }

  /** The cursor moves only with a page that was accepted, whose every message is then saved. */
  lemma CursorMovesWithPage(chat: Chat, page: Page)
    requires AfterPage(chat, page).cursor != chat.cursor
    ensures var n := AfterPage(chat, page);
            && n.cursor == page.next && page.conversation == chat.id
            && forall m | m in page.messages :: m.messageId in n.saved && m.conversationId == chat.id
  {
    MergeAllHolds(chat.saved, page.messages);
  }
}
