/**
 The push task Logic publishes and Job consumes, and the checks Job's decoder makes. JSON itself is a lossless codec:
 a payload is its size, its spelling and what a strict reader finds in it.
 */
module PushTasks {
  import opened Wrappers
  import opened Identifiers
  import opened Decimal
  import opened ByteOrder
  import opened RouteToken
  import L = LeaseScript

  const MAX_PAYLOAD := 256 * 1024
  const MAX_CONTENT := 16 * 1024
  const MAX_RECIPIENTS := 100

  type Uint32 = n: int | 0 <= n < 0x1_0000_0000

  /** An instant in microseconds of the Unix epoch, with the zone offset its text gave. */
  datatype Time = Time(micros: int, zone: int)

  const ZERO_TIME := -62135596800_000_000
  const LAST_TIME := 253402300799_999_999

  datatype Message = Message(
    messageId: string, conversationId: string, sessionId: string, sendId: string, receiveId: string,
    receiveType: string, kind: string, content: string, origin: string, createdAt: Time, position: string)

  datatype PushTask = PushTask(
    version: Uint32, kind: string, taskId: string, message: Message, recipients: seq<string>, targets: seq<L.Tuple>,
    chunkIndex: Uint32, chunkCount: Uint32, requestId: string, pending: Option<seq<string>>, replayRunId: string)

  /** An optional JSON field: left out, spelled `null`, or given. */
  datatype Field<+T> = Unset | Null | Given(value: T)

  /** A well-formed JSON object with every required field present and no unknown or repeated ones. */
  datatype Document = Document(
    version: Uint32, kind: string, taskId: string, message: Message, recipients: seq<string>, targets: seq<L.Tuple>,
    chunkIndex: Uint32, chunkCount: Uint32, requestId: Field<string>, pending: Field<seq<string>>,
    replayRunId: Field<string>)

  /** Raw bytes: how many, which of the spellings of their content, and the object they spell, if any. */
  datatype Payload = Payload(size: nat, spelling: nat, reading: Option<Document>)

  function TaskId(messageId: string, chunk: nat): string {
    "push:v1:" + messageId + ":" + FormatNat(chunk)
  }

  predicate ValidPosition(s: string) {
    var n := ParseInt(s);
    n.Some? && n.value > 0 && Format(n.value) == s
  }

  predicate ValidDestination(m: Message) {
    if m.receiveType == "user" then
      && ValidId(m.sessionId, 'S') && ValidId(m.receiveId, 'U') && m.sendId != m.receiveId
      && m.conversationId == "direct:" + m.sessionId
    else
      && m.receiveType == "group"
      && ValidId(m.sessionId, 'G') && m.sessionId == m.receiveId
      && m.conversationId == "group:" + m.sessionId
  }

  predicate ValidMessage(m: Message) {
    && ValidId(m.messageId, 'M') && ValidId(m.sendId, 'U') && ValidPosition(m.position)
    && ZERO_TIME < m.createdAt.micros <= LAST_TIME && m.createdAt.zone == 0
    && m.kind == "text" && 0 < |m.content| <= MAX_CONTENT
    && (m.origin == "user" || m.origin == "ai")
    && ValidDestination(m)
  }

  predicate ValidIdentity(d: Document) {
    && d.version == 1 && d.kind == "message_push" && d.chunkCount != 0 && d.chunkIndex < d.chunkCount
    && d.taskId == TaskId(d.message.messageId, d.chunkIndex)
  }

  predicate ValidRecipient(m: Message, id: string) {
    ValidId(id, 'U') && (m.receiveType == "user" ==> id == m.sendId || id == m.receiveId)
  }

  predicate ValidRecipients(m: Message, recipients: seq<string>) {
    && 1 <= |recipients| <= MAX_RECIPIENTS
    && Ascending(recipients)
    && forall id | id in recipients :: ValidRecipient(m, id)
  }

  /** At most one hint for each recipient, each a well-formed connection. */
  predicate ValidTargets(recipients: seq<string>, targets: seq<L.Tuple>) {
    && (forall h | h in targets :: h.user in recipients && L.ValidConnection(h))
    && (forall i, j | 0 <= i < j < |targets| :: targets[i].user != targets[j].user)
  }

  predicate Subset(ids: seq<string>, recipients: seq<string>) {
    (forall id | id in ids :: id in recipients) && L.Distinct(ids)
  }

  /** A replay names the users it is limited to and its own run; neither may come without the other. */
  predicate ValidReplay(d: Document) {
    && d.pending.Unset? == d.replayRunId.Unset?
    && (!d.pending.Unset? ==>
          && d.pending.Given? && d.pending.value != [] && Subset(d.pending.value, d.recipients)
          && d.replayRunId.Given? && Printable(d.replayRunId.value, 128))
  }

  predicate ValidRequestId(d: Document) {
    d.requestId.Unset? || (d.requestId.Given? && Printable(d.requestId.value, 128))
  }

  predicate ValidDocument(d: Document) {
    && ValidIdentity(d)
    && ValidMessage(d.message)
    && ValidRecipients(d.message, d.recipients)
    && ValidTargets(d.recipients, d.targets)
    && ValidRequestId(d)
    && ValidReplay(d)
  }

  /** The task a document spells: absent and null text read as empty, an absent or null list as nil. */
  function Read(d: Document): PushTask {
    PushTask(d.version, d.kind, d.taskId, d.message, d.recipients, d.targets, d.chunkIndex, d.chunkCount,
             if d.requestId.Given? then d.requestId.value else "",
             if d.pending.Given? then Some(d.pending.value) else None,
             if d.replayRunId.Given? then d.replayRunId.value else "")
  }

  /** What the decoder accepts, and as what. */
  function Decode(raw: Payload): Option<PushTask> {
    if raw.size <= MAX_PAYLOAD && raw.reading.Some? && ValidDocument(raw.reading.value)
    then Some(Read(raw.reading.value))
    else None
  }

  /** The users a task is to reach now: its replay subset if it has one, otherwise all its recipients. */
  function Scope(task: PushTask): seq<string> {
    if task.pending.Some? then task.pending.value else task.recipients
  }

  // ----- the decoder's loops -----

  method CheckRecipients(m: Message, recipients: seq<string>) returns (ok: bool, known: set<string>)
    ensures ok <==> Ascending(recipients) && forall id | id in recipients :: ValidRecipient(m, id)
    ensures ok ==> known == set id | id in recipients
  {
    hide ValidId, Less;
    known := {};
    for i := 0 to |recipients|
      invariant Ascending(recipients[..i])
      invariant forall k | 0 <= k < i :: ValidRecipient(m, recipients[k])
      invariant known == set k | 0 <= k < i :: recipients[k]
    {
      var id := recipients[i];
      assert id in recipients;
      if !ValidId(id, 'U') || (i > 0 && !Less(recipients[i - 1], id)) {
        return false, known;
      }
      if m.receiveType == "user" && id != m.sendId && id != m.receiveId {
        return false, known;
      }
      known := known + {id};
      assert recipients[..i + 1] == recipients[..i] + [id];
    }
    assert recipients[..|recipients|] == recipients;
    ok := true;
  }

  method CheckTargets(recipients: seq<string>, known: set<string>, targets: seq<L.Tuple>) returns (ok: bool)
    requires known == set id | id in recipients
    ensures ok <==> ValidTargets(recipients, targets)
  {
    hide L.ValidConnection;
    var seen: set<string> := {};
    for i := 0 to |targets|
      invariant forall k | 0 <= k < i :: targets[k].user in recipients && L.ValidConnection(targets[k])
      invariant forall j, k | 0 <= j < k < i :: targets[j].user != targets[k].user
      invariant seen == set k | 0 <= k < i :: targets[k].user
    {
      var h := targets[i];
      if h.user !in known || h.user in seen || !L.ValidConnection(h) {
        assert h in targets;
        return false;
      }
      seen := seen + {h.user};
    }
    ok := true;
  }

  method CheckSubset(recipients: seq<string>, known: set<string>, ids: seq<string>) returns (ok: bool)
    requires known == set id | id in recipients
    ensures ok <==> Subset(ids, recipients)
  {
    var seen: set<string> := {};
    for i := 0 to |ids|
      invariant forall k | 0 <= k < i :: ids[k] in recipients
      invariant forall j, k | 0 <= j < k < i :: ids[j] != ids[k]
      invariant seen == set k | 0 <= k < i :: ids[k]
    {
      var id := ids[i];
      if id !in known || id in seen {
        assert id in ids;
        return false;
      }
      seen := seen + {id};
    }
    ok := true;
  }

  /** The decoder, check by check in the source's order. */
  method DecodeTask(raw: Payload) returns (r: Option<PushTask>)
    ensures r == Decode(raw)
  {
    hide L.ValidConnection, ValidId, ValidMessage, ValidIdentity, ValidRecipient, Ascending;
    if raw.size > MAX_PAYLOAD || raw.reading.None? {
      return None;
    }
    var d := raw.reading.value;
    if !ValidIdentity(d) || !ValidMessage(d.message) {
      return None;
    }
    if |d.recipients| < 1 || |d.recipients| > MAX_RECIPIENTS {
      return None;
    }
    var ok, known := CheckRecipients(d.message, d.recipients);
    if !ok {
      return None;
    }
    ok := CheckTargets(d.recipients, known, d.targets);
    if !ok {
      return None;
    }
    if d.requestId.Null? || (d.requestId.Given? && !Printable(d.requestId.value, 128)) {
      return None;
    }
    var subset, run := !d.pending.Unset?, !d.replayRunId.Unset?;
    var pending := if d.pending.Given? then d.pending.value else [];
    var runId := if d.replayRunId.Given? then d.replayRunId.value else "";
    if subset != run || (subset && (pending == [] || !Printable(runId, 128))) {
      return None;
    }
    ok := CheckSubset(d.recipients, known, pending);
    if !ok {
      return None;
    }
    r := Some(Read(d));
  }

  // ----- writing a task -----

  /** JSON leaves empty optional fields out. */
  function Write(task: PushTask): Document {
    Document(task.version, task.kind, task.taskId, task.message, task.recipients, task.targets,
             task.chunkIndex, task.chunkCount,
             if task.requestId == "" then Unset else Given(task.requestId),
             if task.pending.None? || task.pending.value == [] then Unset else Given(task.pending.value),
             if task.replayRunId == "" then Unset else Given(task.replayRunId))
  }

  function Marshal(task: PushTask): Payload {
    Payload(EncodedSize(task), 0, Some(Write(task)))
  }

  /** Bytes a character takes inside JSON text as Go's encoder writes it: HTML-sensitive characters are escaped. */
  function Width(c: char): nat {
    if c == '"' || c == '\\' || c == '\n' || c == '\r' || c == '\t' then 2
    else if c < ' ' || c == '<' || c == '>' || c == '&' then 6
    else 1
  }

  /** The two Unicode line separators, three bytes each, are escaped as well. */
  predicate StartsWithSeparator(s: string) {
    |s| >= 3 && s[0] == '\U{e2}' && s[1] == '\U{80}' && (s[2] == '\U{a8}' || s[2] == '\U{a9}')
  }

  function EscapedSize(s: string): nat {
    if s == "" then 0
    else if StartsWithSeparator(s) then 6 + EscapedSize(s[3..])
    else Width(s[0]) + EscapedSize(s[1..])
  }

  function TextSize(s: string): nat {
    2 + EscapedSize(s)
  }

  /** A field's name with quotes and colon, and the brace or comma before it. */
  function KeySize(name: string): nat {
    |name| + 4
  }

  function ElementsSize(ss: seq<string>): nat {
    if ss == [] then 0 else ElementsSize(ss[..|ss| - 1]) + TextSize(ss[|ss| - 1]) + 1
  }

  function ListSize(ss: seq<string>): nat {
    1 + if ss == [] then 1 else ElementsSize(ss)
  }

  function TupleSize(h: L.Tuple): nat {
    KeySize("user_id") + TextSize(h.user) + KeySize("instance_id") + TextSize(h.instance)
    + KeySize("connection_id") + TextSize(h.connection) + KeySize("route_token") + TextSize(h.token) + 1
  }

  function TargetsSize(hs: seq<L.Tuple>): nat {
    if hs == [] then 2 else TargetsSize(hs[..|hs| - 1]) + TupleSize(hs[|hs| - 1]) + 1
  }

  const TIME_SIZE := 32  // the longest UTC time text, with nanoseconds and quotes

  function MessageSize(m: Message): nat {
    KeySize("message_id") + TextSize(m.messageId) + KeySize("conversation_id") + TextSize(m.conversationId)
    + KeySize("session_id") + TextSize(m.sessionId) + KeySize("send_id") + TextSize(m.sendId)
    + KeySize("receive_id") + TextSize(m.receiveId) + KeySize("receive_type") + TextSize(m.receiveType)
    + KeySize("type") + TextSize(m.kind) + KeySize("content") + TextSize(m.content)
    + KeySize("origin") + TextSize(m.origin) + KeySize("created_at") + TIME_SIZE
    + KeySize("position") + TextSize(m.position) + 1
  }

  function EncodedSize(t: PushTask): nat {
    KeySize("schema_version") + |FormatNat(t.version)| + KeySize("kind") + TextSize(t.kind)
    + KeySize("task_id") + TextSize(t.taskId) + KeySize("message") + MessageSize(t.message)
    + KeySize("recipients") + ListSize(t.recipients) + KeySize("targets") + TargetsSize(t.targets)
    + KeySize("chunk_index") + |FormatNat(t.chunkIndex)| + KeySize("chunk_count") + |FormatNat(t.chunkCount)|
    + (if t.requestId == "" then 0 else KeySize("request_id") + TextSize(t.requestId))
    + (if t.pending.None? || t.pending.value == [] then 0
       else KeySize("pending_recipients") + ListSize(t.pending.value))
    + (if t.replayRunId == "" then 0 else KeySize("replay_run_id") + TextSize(t.replayRunId)) + 1
  }

  // ----- the size limit never bites on a valid task -----

  lemma {:induction false} EscapedAtMostSixfold(s: string)
    ensures EscapedSize(s) <= 6 * |s|
  {
    if s != "" {
      if StartsWithSeparator(s) {
        EscapedAtMostSixfold(s[3..]);
      } else {
        EscapedAtMostSixfold(s[1..]);
      }
    }
  }

  predicate PlainChar(c: char) {
    'a' <= c <= 'z' || 'A' <= c <= 'Z' || '0' <= c <= '9' || c == '-' || c == '_' || c == ':'
  }

  lemma {:induction false} PlainKeepsSize(s: string)
    requires forall c | c in s :: PlainChar(c)
    ensures EscapedSize(s) == |s|
  {
    if s != "" {
      assert PlainChar(s[0]);
      PlainKeepsSize(s[1..]);
    }
  }

  lemma UuidSize(s: string)
    requires ValidUuid(s)
    ensures TextSize(s) == 38
  {
    forall c | c in s ensures PlainChar(c) {
      var i :| 0 <= i < |s| && s[i] == c;
      assert if IsDashPosition(i) then s[i] == '-' else IsHex(s[i]);
    }
    PlainKeepsSize(s);
  }

  lemma IdSize(s: string, prefix: char)
    requires ValidId(s, prefix) && prefix in "MUSG"
    ensures TextSize(s) == 39
  {
    UuidSize(s[1..]);
    forall c | c in s ensures PlainChar(c) {
      var i :| 0 <= i < |s| && s[i] == c;
      if i > 0 {
        var j := i - 1;
        assert s[1..][j] == c;
        assert if IsDashPosition(j) then s[1..][j] == '-' else IsHex(s[1..][j]);
      }
    }
    PlainKeepsSize(s);
  }

  lemma TupleFits(h: L.Tuple)
    requires L.ValidConnection(h)
    ensures TupleSize(h) <= 400
  {
    hide ValidUuid;
    IdSize(h.user, 'U');
    UuidSize(h.connection);
    hide LuaToken;
    assert forall c | c in h.instance :: IsInstanceChar(c) ==> PlainChar(c);
    PlainKeepsSize(h.instance);
    TokenPlain(h.token);
    assert |h.connection| == 36 by {
      UuidLength(h.connection);
    }
    assert |h.token| <= 128 by {
      TokenLength(h.token);
    }
    assert TextSize(h.token) <= 130 && TextSize(h.instance) <= 66;
    assert KeySize("user_id") == 11 && KeySize("instance_id") == 15 && KeySize("connection_id") == 17
        && KeySize("route_token") == 15;
  }

  lemma UuidLength(s: string)
    requires ValidUuid(s)
    ensures |s| == 36
  {
  }

  lemma TokenLength(s: string)
    requires LuaToken(s)
    ensures |s| <= 128
  {
  }

  lemma TokenPlain(s: string)
    requires LuaToken(s)
    ensures EscapedSize(s) == |s|
  {
    forall c | c in s ensures PlainChar(c) {
      assert InAlphabet(c);
    }
    PlainKeepsSize(s);
  }

  lemma {:induction false} TargetsFit(hs: seq<L.Tuple>)
    requires forall h | h in hs :: L.ValidConnection(h)
    ensures TargetsSize(hs) <= 2 + 401 * |hs|
  {
    hide L.ValidConnection, TupleSize;
    if hs != [] {
      TargetsFit(hs[..|hs| - 1]);
      TupleFits(hs[|hs| - 1]);
    }
  }

  lemma {:induction false} ListFits(ss: seq<string>)
    requires forall s | s in ss :: ValidId(s, 'U')
    ensures ElementsSize(ss) <= 40 * |ss|
  {
    hide ValidId, TextSize;
    if ss != [] {
      ListFits(ss[..|ss| - 1]);
      IdSize(ss[|ss| - 1], 'U');
    }
  }

  lemma {:induction false} DistinctSubsetBound(ids: seq<string>, recipients: seq<string>)
    requires Subset(ids, recipients)
    ensures |ids| <= |recipients|
  {
    var a := set id | id in ids;
    var b := set id | id in recipients;
    DistinctCardinality(ids);
    AtMostLength(recipients);
    CardinalityMonotone(a, b);
  }

  lemma {:induction false} DistinctCardinality(ids: seq<string>)
    requires L.Distinct(ids)
    ensures |set id | id in ids| == |ids|
  {
    if ids != [] {
      var front, last := ids[..|ids| - 1], ids[|ids| - 1];
      DistinctCardinality(front);
      assert ids == front + [last];
      assert (set id | id in ids) == (set id | id in front) + {last};
    }
  }

  lemma {:induction false} AtMostLength(ids: seq<string>)
    ensures |set id | id in ids| <= |ids|
  {
    if ids != [] {
      var front, last := ids[..|ids| - 1], ids[|ids| - 1];
      AtMostLength(front);
      assert ids == front + [last];
      assert (set id | id in ids) == (set id | id in front) + {last};
    }
  }

  lemma {:induction false} CardinalityMonotone(a: set<string>, b: set<string>)
    requires a <= b
    ensures |a| <= |b|
    decreases a
  {
    if x :| x in a {
      CardinalityMonotone(a - {x}, b - {x});
    }
  }

  lemma MessageFits(m: Message)
    requires ValidMessage(m)
    ensures MessageSize(m) <= 100_000
  {
    hide ValidUuid, IsHex;
    IdSize(m.messageId, 'M');
    IdSize(m.sendId, 'U');
    EscapedAtMostSixfold(m.content);
    EscapedAtMostSixfold(m.conversationId);
    EscapedAtMostSixfold(m.sessionId);
    EscapedAtMostSixfold(m.receiveId);
    EscapedAtMostSixfold(m.receiveType);
    EscapedAtMostSixfold(m.kind);
    EscapedAtMostSixfold(m.origin);
    EscapedAtMostSixfold(m.position);
    PositionLength(m.position);
    assert KeySize("message_id") + KeySize("conversation_id") + KeySize("session_id") + KeySize("send_id")
        + KeySize("receive_id") + KeySize("receive_type") + KeySize("type") + KeySize("content") + KeySize("origin")
        + KeySize("created_at") + KeySize("position") == 143;
  }

  lemma PositionLength(s: string)
    requires ValidPosition(s)
    ensures |s| <= 19
  {
    var n := ParseInt(s).value;
    assert Power10(19) == 10_000_000_000_000_000_000 by {
      assert Power10(4) == 10_000;
      assert Power10(8) == 100_000_000;
      assert Power10(12) == 1_000_000_000_000;
      assert Power10(16) == 10_000_000_000_000_000;
    }
    FormatLength(n, 19, Power10(19));
  }

  lemma Uint32Length(n: Uint32)
    ensures |FormatNat(n)| <= 10
  {
    assert Power10(10) == 10_000_000_000 by {
      assert Power10(4) == 10_000;
      assert Power10(8) == 100_000_000;
    }
    FormatLength(n, 10, Power10(10));
  }

  lemma TargetCount(recipients: seq<string>, targets: seq<L.Tuple>)
    requires ValidTargets(recipients, targets)
    ensures |targets| <= |recipients|
  {
    hide L.ValidConnection;
    var users := seq(|targets|, i requires 0 <= i < |targets| => targets[i].user);
    assert forall id | id in users :: id in recipients;
    DistinctSubsetBound(users, recipients);
  }

  lemma ReplayFits(task: PushTask)
    requires ValidRecipients(task.message, task.recipients) && ValidReplay(Write(task))
    ensures task.pending.Some? && task.pending.value != [] ==> ListSize(task.pending.value) <= 4001
    ensures TextSize(task.replayRunId) <= 770
    ensures ListSize(task.recipients) <= 4001
  {
    hide ValidMessage, ValidId, Ascending, EscapedSize, ElementsSize;
    ListFits(task.recipients);
    if task.pending.Some? && task.pending.value != [] {
      DistinctSubsetBound(task.pending.value, task.recipients);
      ListFits(task.pending.value);
    }
    EscapedAtMostSixfold(task.replayRunId);
  }

  lemma HeaderFits(task: PushTask)
    requires ValidIdentity(Write(task)) && ValidMessage(task.message) && ValidRequestId(Write(task))
    ensures TextSize(task.kind) <= 80 && TextSize(task.taskId) <= 602 && TextSize(task.requestId) <= 770
  {
    hide ValidMessage, EscapedSize, TaskId;
    EscapedAtMostSixfold(task.requestId);
    EscapedAtMostSixfold(task.kind);
    EscapedAtMostSixfold(task.taskId);
    TaskIdLength(task.message, task.chunkIndex);
  }

  /** Every valid task fits the payload limit, whatever its text needs in escapes. */
  lemma ValidTaskFits(task: PushTask)
    requires ValidDocument(Write(task))
    ensures EncodedSize(task) <= MAX_PAYLOAD
  {
    MessageFits(task.message);
    assert ValidTargets(task.recipients, task.targets);
    TargetCount(task.recipients, task.targets);
    TargetsFit(task.targets);
    ReplayFits(task);
    HeaderFits(task);
    Uint32Length(task.version);
    Uint32Length(task.chunkIndex);
    Uint32Length(task.chunkCount);
    hide ValidDocument, MessageSize, TextSize, ListSize, TargetsSize, FormatNat;
    assert KeySize("schema_version") + KeySize("kind") + KeySize("task_id") + KeySize("message") + KeySize("recipients")
        + KeySize("targets") + KeySize("chunk_index") + KeySize("chunk_count") + KeySize("request_id")
        + KeySize("pending_recipients") + KeySize("replay_run_id") <= 200;
  }

  lemma TaskIdLength(m: Message, chunk: Uint32)
    requires ValidMessage(m)
    ensures |TaskId(m.messageId, chunk)| <= 100
  {
    Uint32Length(chunk);
  }

  /** A decoded task can be written and decoded again without change. */
  lemma DecodeMarshal(raw: Payload)
    requires Decode(raw).Some?
    ensures Decode(Marshal(Decode(raw).value)) == Decode(raw)
  {
    hide ValidMessage, ValidIdentity, ValidRecipients, ValidTargets, EncodedSize;
    var task := Decode(raw).value;
    assert Write(task) == raw.reading.value;
    ValidTaskFits(task);
  }
}
