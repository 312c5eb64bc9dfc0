/** Dead letters and their replay: what a consumer writes when users stay unresolved, and what may be sent again. */
module Replay {
  import opened Wrappers
  import opened Identifiers
  import opened Decimal
  import opened ByteOrder
  import opened PushTasks
  import opened DeliveryEngine
  import opened DeliveryRun
  import L = LeaseScript

  /** A base64 field of a dead letter: left blank, not base64 at all, or the bytes it stands for. */
  datatype Encoded = Blank | Undecodable | Bytes(payload: Payload)

  datatype DeadLetter = DeadLetter(
    sourceTopic: string, sourcePartition: int, sourceOffset: string, reason: string, task: Option<PushTask>,
    pending: seq<string>, raw: Encoded, original: Encoded, firstAttempt: int, lastAttempt: int)

  /** SHA-256 of the immutable fields, taken to be injective: hints, tracing and replay scope do not take part. */
  datatype Digest = Digest(
    version: Uint32, kind: string, taskId: string, message: Message, recipients: seq<string>,
    chunkIndex: Uint32, chunkCount: Uint32)

  function ImmutableDigest(task: PushTask): Digest {
    Digest(task.version, task.kind, task.taskId, task.message, task.recipients, task.chunkIndex, task.chunkCount)
  }

  const TOPIC := "fable.push.v1"
  const TOPIC_PREFIX := "fable.push.v1."

  predicate PushTopic(topic: string) {
    topic == TOPIC || (TOPIC_PREFIX <= topic && |topic| > |TOPIC_PREFIX|)
  }

  predicate CanonicalOffset(s: string) {
    var n := ParseInt(s);
    n.Some? && n.value >= 0 && Format(n.value) == s
  }

  /** The envelope's own fields are those of an unresolved record from a push topic. */
  predicate ReplayableEnvelope(r: DeadLetter, runId: string) {
    && Printable(runId, 128) && r.task.Some? && r.raw.Blank? && r.reason == "unresolved" && r.pending != []
    && r.sourcePartition >= 0 && CanonicalOffset(r.sourceOffset) && PushTopic(r.sourceTopic)
    && r.firstAttempt != ZERO_TIME && r.firstAttempt <= r.lastAttempt
  }

  /** A user may be replayed if every subset named before, by the task or by the source, still holds the user. */
  predicate Allowed(task: PushTask, source: PushTask, id: string) {
    && id in task.recipients
    && (task.pending.Some? ==> id in task.pending.value)
    && (source.pending.Some? ==> id in source.pending.value)
  }

  predicate Narrows(task: PushTask, source: PushTask, pending: seq<string>) {
    (forall id | id in pending :: Allowed(task, source, id)) && L.Distinct(pending)
  }

  function Narrowed(task: PushTask, pending: seq<string>, runId: string): PushTask {
    task.(pending := Some(pending), replayRunId := runId, targets := [])
  }

  /** The task a dead letter may be replayed as, if it may. */
  function Replayed(r: DeadLetter, runId: string): Option<PushTask> {
    if !ReplayableEnvelope(r, runId) then None
    else
      var task := Decode(Marshal(r.task.value));
      if task.None? || !r.original.Bytes? || r.original.payload.size == 0 then None
      else
        var source := Decode(r.original.payload);
        if source.None? || ImmutableDigest(source.value) != ImmutableDigest(task.value) then None
        else if Narrows(task.value, source.value, r.pending) then Some(Narrowed(task.value, r.pending, runId))
        else None
  }

  /** Keeps of `allowed` only what an earlier subset also names. */
  method Intersect(allowed: map<string, bool>, subset: seq<string>) returns (narrowed: map<string, bool>)
    ensures narrowed.Keys == allowed.Keys
    ensures forall id | id in allowed :: narrowed[id] == (allowed[id] && id in subset)
  {
    var names: set<string> := {};
    for k := 0 to |subset|
      invariant names == set j | 0 <= j < k :: subset[j]
    {
      names := names + {subset[k]};
    }
    narrowed := allowed;
    var rest := allowed.Keys;
    while rest != {}
      invariant rest <= allowed.Keys == narrowed.Keys
      invariant forall id | id in allowed ::
                  narrowed[id] == if id in rest then allowed[id] else allowed[id] && id in subset
    {
      var id :| id in rest;
      narrowed := narrowed[id := narrowed[id] && id in names];
      rest := rest - {id};
    }
  }

  method ReplayTask(r: DeadLetter, runId: string) returns (replay: Option<PushTask>)
    ensures replay == Replayed(r, runId)
  {
    hide Decode, Marshal, CanonicalOffset, PushTopic, Printable;
    if !ReplayableEnvelope(r, runId) {
      return None;
    }
    var decoded := DecodeTask(Marshal(r.task.value));
    if decoded.None? || !r.original.Bytes? || r.original.payload.size == 0 {
      return None;
    }
    var task := decoded.value;
    var source := DecodeTask(r.original.payload);
    if source.None? || ImmutableDigest(source.value) != ImmutableDigest(task) {
      return None;
    }
    var allowed: map<string, bool> := map id | id in task.recipients :: true;
    if task.pending.Some? {
      allowed := Intersect(allowed, task.pending.value);
    }
    if source.value.pending.Some? {
      allowed := Intersect(allowed, source.value.pending.value);
    }
    assert forall id :: id in allowed && allowed[id] <==> Allowed(task, source.value, id);
    var seen: set<string> := {};
    for k := 0 to |r.pending|
      invariant forall j | 0 <= j < k :: Allowed(task, source.value, r.pending[j])
      invariant forall i, j | 0 <= i < j < k :: r.pending[i] != r.pending[j]
      invariant seen == set j | 0 <= j < k :: r.pending[j]
    {
      var id := r.pending[k];
      assert id in r.pending;
      if id !in allowed || !allowed[id] || id in seen {
        return None;
      }
      seen := seen + {id};
    }
    task := task.(pending := Some(r.pending));
    task := task.(replayRunId := runId);
    task := task.(targets := []);
    replay := Some(task);
  }

  // ----- the record a consumer writes -----

  datatype Record = Record(topic: string, partition: int, offset: int, value: Payload)

  /** The dead letter of a valid task with unresolved users. */
  function UnresolvedLetter(m: Record, task: PushTask, pending: seq<string>, first: int, last: int): DeadLetter {
    DeadLetter(m.topic, m.partition, Format(m.offset), "unresolved", Some(task), pending, Blank, Bytes(m.value), first,
               last)
  }

  /** The dead letter of bytes that are not a task, or that contradict a task seen before. */
  function RejectedLetter(m: Record, reason: string, first: int, last: int): DeadLetter {
    DeadLetter(m.topic, m.partition, Format(m.offset), reason, None, [], Bytes(m.value), Blank, first, last)
  }

  /** A record as a consumer of a push topic gets it. */
  predicate PushRecord(m: Record) {
    PushTopic(m.topic) && m.partition >= 0 && 0 <= m.offset <= MAX_INT64 && m.value.size > 0
  }

  lemma OffsetIsCanonical(offset: int)
    requires 0 <= offset <= MAX_INT64
    ensures CanonicalOffset(Format(offset))
  {
    ParseFormat(offset);
  }

  /**
   A dead letter for some unresolved users of a task is replayable exactly when the wall clock did not step back
   between the first attempt and the write.
   */
  lemma UnresolvedIsReplayable(m: Record, pending: seq<string>, first: int, last: int, runId: string)
    requires PushRecord(m) && Decode(m.value).Some? && Printable(runId, 128) && first != ZERO_TIME
    requires pending != [] && Subset(pending, Scope(Decode(m.value).value))
    ensures var task := Decode(m.value).value;
            Replayed(UnresolvedLetter(m, task, pending, first, last), runId)
              == if first <= last then Some(Narrowed(task, pending, runId)) else None
  {
    hide ValidMessage, ValidIdentity, ValidRecipient, ValidTargets, Marshal, PushTopic, CanonicalOffset, Format,
      Ascending;
    DecodeMarshal(m.value);
    OffsetIsCanonical(m.offset);
    var task := Decode(m.value).value;
    forall id | id in pending ensures Allowed(task, task, id) {
    }
  }

  lemma NarrowedIsValid(d: Document, pending: seq<string>, runId: string)
    requires ValidDocument(d) && Printable(runId, 128) && pending != [] && Subset(pending, d.recipients)
    ensures var replay := Narrowed(Read(d), pending, runId);
            ValidDocument(Write(replay)) && Read(Write(replay)) == replay
  {
    hide ValidMessage, ValidRecipients;
  }

  /**
   What a replay publishes: it decodes to itself, is the same immutable task, and covers exactly the pending users.
   */
  lemma ReplayDecodes(r: DeadLetter, runId: string)
    requires Replayed(r, runId).Some?
    ensures var replay := Replayed(r, runId).value;
            && Decode(Marshal(replay)) == Some(replay)
            && ImmutableDigest(replay) == ImmutableDigest(r.task.value)
            && Scope(replay) == r.pending
            && replay.targets == []
  {
    hide ValidDocument, EncodedSize, ReplayableEnvelope, Read, Write;
    EnvelopeParts(r, runId);
    var d := Write(r.task.value);
    assert d.recipients == Read(d).recipients by {
      SameRecipients(d);
    }
    NarrowedIsValid(d, r.pending, runId);
    ValidTaskFits(Replayed(r, runId).value);
    SameDigest(r.task.value);
  }

  lemma SameRecipients(d: Document)
    ensures d.recipients == Read(d).recipients
  {
  }

  lemma SameDigest(task: PushTask)
    ensures ImmutableDigest(Read(Write(task))) == ImmutableDigest(task)
  {
  }

  lemma EnvelopeParts(r: DeadLetter, runId: string)
    requires ReplayableEnvelope(r, runId)
    ensures Printable(runId, 128) && r.pending != [] && r.task.Some?
  {
  }

  /** Every replay's scope lies within the scope of the bytes the dead letter kept. */
  lemma ReplayNarrows(r: DeadLetter, runId: string)
    requires Replayed(r, runId).Some?
    ensures r.original.Bytes? && Decode(r.original.payload).Some?
    ensures var source := Decode(r.original.payload).value;
            && Subset(r.pending, Scope(source))
            && ImmutableDigest(Replayed(r, runId).value) == ImmutableDigest(source)
  {
    hide Decode, Marshal, ReplayableEnvelope;
    EnvelopeParts(r, runId);
    var source := Decode(r.original.payload).value;
    var task := Decode(Marshal(r.task.value)).value;
    assert task.recipients == source.recipients;
  }

  // ----- chains of replays -----

  /** One pass: a payload was processed to `results`, dead-lettered, and replayed as run `runId`. */
  datatype Pass = Pass(record: Record, results: seq<RecipientResult>, first: int, last: int, runId: string)

  /** The payload was a task, and its results have one entry for each user in scope, in order. */
  predicate Processed(p: Pass) {
    && Decode(p.record.value).Some?
    && var scope := Scope(Decode(p.record.value).value);
    && |p.results| == |scope|
    && forall i | 0 <= i < |scope| :: p.results[i].userId == scope[i]
  }

  function LetterOf(p: Pass): DeadLetter
    requires Processed(p)
  {
    UnresolvedLetter(p.record, Decode(p.record.value).value, PendingRecipients(p.results), p.first, p.last)
  }

  /** The next pass processes what the replay of this one published. */
  predicate Follows(p: Pass, next: Pass)
    requires Processed(p)
  {
    && Replayed(LetterOf(p), p.runId).Some?
    && next.record.value == Marshal(Replayed(LetterOf(p), p.runId).value)
  }

  predicate Chain(passes: seq<Pass>) {
    && (forall k | 0 <= k < |passes| :: Processed(passes[k]))
    && (forall k, n | 0 <= k < |passes| && n == k + 1 < |passes| :: Follows(passes[k], passes[n]))
  }

  /** The pass left `u` unresolved. */
  predicate LeftUnresolved(p: Pass, u: string) {
    exists i :: 0 <= i < |p.results| && p.results[i].userId == u && p.results[i].outcome == Unresolved
  }

  function TaskAt(passes: seq<Pass>, k: nat): PushTask
    requires Chain(passes) && k < |passes|
  {
    Decode(passes[k].record.value).value
  }

  lemma ChainStep(passes: seq<Pass>, k: nat)
    requires Chain(passes) && 0 < k < |passes|
    ensures Scope(TaskAt(passes, k)) == PendingRecipients(passes[k - 1].results)
    ensures ImmutableDigest(TaskAt(passes, k)) == ImmutableDigest(TaskAt(passes, k - 1))
  {
    assert Follows(passes[k - 1], passes[k]);
    hide Replayed, Decode, Marshal;
    var r := LetterOf(passes[k - 1]);
    ReplayDecodes(r, passes[k - 1].runId);
    ReplayNarrows(r, passes[k - 1].runId);
  }

  lemma InScopeMeansUnresolved(passes: seq<Pass>, k: nat)
    requires Chain(passes) && 0 < k < |passes|
    ensures forall u | u in Scope(TaskAt(passes, k)) ::
              LeftUnresolved(passes[k - 1], u) && u in Scope(TaskAt(passes, k - 1))
  {
    hide Follows, Decode;
    ChainStep(passes, k);
    PendingIsUnresolved(passes[k - 1].results);
    forall u | u in Scope(TaskAt(passes, k)) ensures u in Scope(TaskAt(passes, k - 1)) {
      var i :| 0 <= i < |passes[k - 1].results| && passes[k - 1].results[i].userId == u;
      assert u == Scope(TaskAt(passes, k - 1))[i];
    }
  }

  /**
   Along a chain the task stays the same and its scope only shrinks: whoever is in scope at pass `k` was left
   unresolved by every earlier pass, so nobody who was delivered to or found offline ever comes back.
   */
  lemma {:induction false} ChainsOnlyShrink(passes: seq<Pass>, j: nat, k: nat)
    requires Chain(passes) && j < k < |passes|
    ensures ImmutableDigest(TaskAt(passes, k)) == ImmutableDigest(TaskAt(passes, j))
    ensures forall u | u in Scope(TaskAt(passes, k)) :: LeftUnresolved(passes[j], u)
    ensures forall i | 0 <= i < |passes[j].results| && passes[j].results[i].outcome != Unresolved ::
              passes[j].results[i].userId !in Scope(TaskAt(passes, k))
    decreases k
  {
    hide Follows, Decode, ImmutableDigest, LeftUnresolved, Scope, Processed;
    ChainStep(passes, k);
    InScopeMeansUnresolved(passes, k);
    if j + 1 < k {
      ChainsOnlyShrink(passes, j, k - 1);
    }
    forall i | 0 <= i < |passes[j].results| && passes[j].results[i].outcome != Unresolved
      ensures passes[j].results[i].userId !in Scope(TaskAt(passes, k))
    {
      SettledNotUnresolved(passes[j], i);
    }
  }

  lemma SettledNotUnresolved(p: Pass, i: nat)
    requires Processed(p) && i < |p.results| && p.results[i].outcome != Unresolved
    ensures !LeftUnresolved(p, p.results[i].userId)
  {
    ScopeDistinct(p.record.value);
  }
}
