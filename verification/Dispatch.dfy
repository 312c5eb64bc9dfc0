/**
 Handing a saved message to the push queue: its recipients in chunks of at most a hundred, each with whatever route
 hints a lookup gives, published one after the other until one is not acknowledged.
 */
module Dispatch {
  import opened Wrappers
  import opened Identifiers
  import opened ByteOrder
  import opened PushTasks
  import E = LeaseEffects
  import L = LeaseScript
  import MessageRuns

  const CHUNK := 100
  const UINT32 := 0x1_0000_0000

  datatype DispatchState = Queued | NotQueued | Unknown

  /** Acknowledged, certainly not handed to the broker, or any other failure. */
  datatype PublishAnswer = Acked | NotPublished | Uncertain

  /** One call of the publisher. */
  datatype Attempt = Attempt(targets: seq<L.Tuple>, raw: Payload, answer: PublishAnswer)

  function ChunkCount(n: nat): nat {
    (n + 99) / 100
  }

  function Chunk(recipients: seq<string>, index: nat): seq<string>
    requires index < ChunkCount(|recipients|)
  {
    recipients[index * CHUNK..if (index + 1) * CHUNK < |recipients| then (index + 1) * CHUNK else |recipients|]
  }

  /** The first `k` chunks put together again. */
  function Joined(recipients: seq<string>, k: nat): seq<string>
    requires k <= ChunkCount(|recipients|)
  {
    if k == 0 then [] else Joined(recipients, k - 1) + Chunk(recipients, k - 1)
  }

  /** The chunks are the recipients cut into pieces, none empty and none longer than a hundred. */
  lemma {:induction false} ChunksPartition(recipients: seq<string>, k: nat)
    requires k <= ChunkCount(|recipients|)
    ensures Joined(recipients, k) == recipients[..if k * CHUNK < |recipients| then k * CHUNK else |recipients|]
    ensures forall i | 0 <= i < k :: 1 <= |Chunk(recipients, i)| <= CHUNK
    decreases k
  {
    if k > 0 {
      ChunksPartition(recipients, k - 1);
    }
  }

  /** Go's conversion to 32 bits drops the higher ones. */
  function ToUint32(n: nat): Uint32 {
    n % UINT32
  }

  function TaskFor(message: Message, recipients: seq<string>, index: nat, targets: seq<L.Tuple>,
                   requestId: string): PushTask
    requires index < ChunkCount(|recipients|)
  {
    PushTask(1, "message_push", TaskId(message.messageId, index), message, Chunk(recipients, index), targets,
             ToUint32(index), ToUint32(ChunkCount(|recipients|)), requestId, None, "")
  }

  predicate ValidRequestId(s: string) {
    s == "" || Printable(s, 128)
  }

  /** What is known of a message that was saved and of the request that saved it. */
  predicate Dispatchable(message: Message, recipients: seq<string>, requestId: string) {
    MessageRuns.Deliverable(message, recipients) && ValidRequestId(requestId)
  }

  lemma ChunkIsSound(message: Message, recipients: seq<string>, index: nat)
    requires MessageRuns.Deliverable(message, recipients) && index < ChunkCount(|recipients|)
    ensures ValidRecipients(message, Chunk(recipients, index))
    ensures L.ValidCommand(L.Lookup(Chunk(recipients, index)))
  {
    hide ValidMessage, ValidId, Less;
    var ids := Chunk(recipients, index);
    assert forall id | id in ids :: id in recipients;
    AscendingSlice(recipients, index * CHUNK, index * CHUNK + |ids|);
    AscendingDistinct(ids);
  }

  /** Every task of a message passes the decoder exactly when the number of chunks can be written in 32 bits. */
  lemma TasksDecodeIff(message: Message, recipients: seq<string>, requestId: string)
    requires Dispatchable(message, recipients, requestId)
    ensures (forall index, targets | 0 <= index < ChunkCount(|recipients|)
              && ValidTargets(Chunk(recipients, index), targets) ::
               var task := TaskFor(message, recipients, index, targets, requestId);
               Decode(Marshal(task)) == Some(task))
       <==> ChunkCount(|recipients|) < UINT32
  {
    hide ValidTargets, Marshal, Decode, ChunkCount, TaskFor, MessageRuns.Deliverable;
    var count := ChunkCount(|recipients|);
    if count < UINT32 {
      forall index, targets | 0 <= index < count && ValidTargets(Chunk(recipients, index), targets)
        ensures var task := TaskFor(message, recipients, index, targets, requestId); Decode(Marshal(task)) == Some(task)
      {
        TaskDecodes(message, recipients, index, targets, requestId);
      }
    } else {
      WrappedChunkFails(message, recipients, requestId);
      assert ValidTargets(Chunk(recipients, count % UINT32), []);
    }
  }

  lemma TaskDecodes(message: Message, recipients: seq<string>, index: nat, targets: seq<L.Tuple>, requestId: string)
    requires Dispatchable(message, recipients, requestId)
    requires index < ChunkCount(|recipients|) < UINT32 && ValidTargets(Chunk(recipients, index), targets)
    ensures var task := TaskFor(message, recipients, index, targets, requestId);
            EncodedSize(task) <= MAX_PAYLOAD && Decode(Marshal(task)) == Some(task)
  {
    hide ValidMessage, ValidRecipients, ValidTargets, EncodedSize, Printable, L.ValidCommand, Chunk, ChunkCount, TaskId;
    ChunkIsSound(message, recipients, index);
    var task := TaskFor(message, recipients, index, targets, requestId);
    assert ValidDocument(Write(task));
    ValidTaskFits(task);
  }

  /** With more chunks than that, the chunk whose number equals the truncated count is refused. */
  lemma WrappedChunkFails(message: Message, recipients: seq<string>, requestId: string)
    requires ChunkCount(|recipients|) >= UINT32
    ensures var index := ChunkCount(|recipients|) % UINT32;
            && index < ChunkCount(|recipients|)
            && ValidTargets(Chunk(recipients, index), [])
            && Decode(Marshal(TaskFor(message, recipients, index, [], requestId))) == None
  {
    hide ValidMessage, ValidRecipients, EncodedSize;
  }

  // ----- the loop -----

  /**
   The outside, whatever it is, chunk by chunk: what the routing store holds when the lookup reaches it and the time
   there, if it is reached at all, and what the publisher answers.
   */
  datatype Outside = Outside(ttl: L.Ttl, stores: nat -> Option<(L.Store, int)>, answers: nat -> PublishAnswer)

  /** The lookup's results for a chunk, if it answers. */
  function Looked(o: Outside, index: nat, ids: seq<string>): Option<seq<L.LookupResult>> {
    match o.stores(index)
    case None => None
    case Some((store, now)) =>
      match L.Execute(store, o.ttl, now, L.Lookup(ids)).1
      case Routes(routes) => Some(routes)
      case _ => None
  }

  /** A lookup's results answer the ids in order, each with that user's own connection if any. */
  predicate Answers(ids: seq<string>, results: seq<L.LookupResult>) {
    && |results| == |ids|
    && forall k | 0 <= k < |ids| && results[k].Online? ::
         results[k].route.id.user == ids[k] && L.ValidConnection(results[k].route.id)
  }

  lemma LookupAnswers(o: Outside, index: nat, ids: seq<string>)
    requires L.ValidCommand(L.Lookup(ids))
    ensures Looked(o, index, ids).Some? ==> Answers(ids, Looked(o, index, ids).value)
  {
    hide L.ValidConnection, L.ValidCommand, L.Execute, L.Intact;
    if o.stores(index).Some? {
      var (store, now) := o.stores(index).value;
      L.LookupAnswersItsUsers(store, o.ttl, now, ids);
    }
  }

  /** The connections of the users a lookup found online; none without an answer. */
  predicate IsHint(results: Option<seq<L.LookupResult>>, h: L.Tuple) {
    results.Some? && exists k :: 0 <= k < |results.value| && results.value[k].Online? && results.value[k].route.id == h
  }

  /**
   On a store the script left, the hints are exactly the chunk's users whose route and authentication are live and whose
   accepting boot still holds the live lease of its instance.
   */
  lemma HintsAreLive(o: Outside, index: nat, ids: seq<string>, h: L.Tuple)
    requires L.ValidCommand(L.Lookup(ids)) && o.stores(index).Some?
    requires E.Working(o.stores(index).value.0, o.ttl, o.stores(index).value.1)
    ensures var (store, now) := o.stores(index).value;
            IsHint(Looked(o, index, ids), h) <==>
              h.user in ids && E.LiveUser(store, h.user, now) && E.Accepted(store, h.user, now)
              && store.routes[h.user].id == h
  {
    var (store, now) := o.stores(index).value;
    E.LookupEffect(store, o.ttl, now, ids);
    LookupAnswers(o, index, ids);
    hide L.Execute, L.ValidCommand, E.Working, E.Accepted, L.ValidConnection;
    var rs := Looked(o, index, ids).value;
    if h.user in ids {
      var k :| 0 <= k < |ids| && ids[k] == h.user;
      assert E.LookedUp(store, now, ids[k], rs[k]);
    }
    if IsHint(Some(rs), h) {
      var k :| 0 <= k < |rs| && rs[k].Online? && rs[k].route.id == h;
      assert E.LookedUp(store, now, ids[k], rs[k]);
    }
  }

  /** Users found offline get no hint; they stay recipients all the same. */
  method HintsOf(ids: seq<string>, results: seq<L.LookupResult>) returns (targets: seq<L.Tuple>)
    requires Answers(ids, results) && Ascending(ids)
    ensures ValidTargets(ids, targets)
    ensures forall h :: h in targets <==> IsHint(Some(results), h)
  {
    hide L.ValidConnection, Ascending;
    AscendingDistinct(ids);
    targets := [];
    for k := 0 to |results|
      invariant forall i | 0 <= i < |targets| :: L.ValidConnection(targets[i]) && targets[i].user in ids[..k]
      invariant forall i, j | 0 <= i < j < |targets| :: targets[i].user != targets[j].user
      invariant forall h :: h in targets <==> exists j :: 0 <= j < k && results[j].Online? && results[j].route.id == h
    {
      assert ids[..k + 1] == ids[..k] + [ids[k]];
      assert ids[k] !in ids[..k];
      if results[k].Online? {
        targets := targets + [results[k].route.id];
      }
    }
    assert ids[..|results|] == ids;
  }

  predicate AllAcked(attempts: seq<Attempt>) {
    forall i | 0 <= i < |attempts| :: attempts[i].answer == Acked
  }

  /** Certainly nothing reached the broker. */
  predicate NothingHanded(attempts: seq<Attempt>) {
    forall i | 0 <= i < |attempts| :: attempts[i].answer == NotPublished
  }

  /** The attempt carries the chunk's task with exactly the hints the lookup gave, and has the publisher's answer. */
  ghost predicate Carries(o: Outside, message: Message, recipients: seq<string>, requestId: string, index: nat,
                          a: Attempt)
    requires index < ChunkCount(|recipients|)
  {
    && ValidTargets(Chunk(recipients, index), a.targets)
    && (forall h :: h in a.targets <==> IsHint(Looked(o, index, Chunk(recipients, index)), h))
    && a.raw == Marshal(TaskFor(message, recipients, index, a.targets, requestId))
    && a.answer == o.answers(index)
  }

  /** The attempts carry the first chunks in order, and none follows a failure. */
  ghost predicate InOrder(o: Outside, message: Message, recipients: seq<string>, requestId: string,
                          attempts: seq<Attempt>) {
    && |attempts| <= ChunkCount(|recipients|)
    && (forall i | 0 <= i < |attempts| :: Carries(o, message, recipients, requestId, i, attempts[i]))
    && (forall i | 0 <= i < |attempts| - 1 :: attempts[i].answer == Acked)
  }

  /** One chunk: hints if the lookup answers, the size check, and the publisher's answer. */
  method PublishChunk(o: Outside, message: Message, recipients: seq<string>, index: nat, requestId: string)
      returns (attempt: Option<Attempt>)
    requires Dispatchable(message, recipients, requestId) && index < ChunkCount(|recipients|)
    ensures attempt.Some? ==> Carries(o, message, recipients, requestId, index, attempt.value)
    ensures ChunkCount(|recipients|) < UINT32 ==> attempt.Some?
  {
    hide Dispatchable, Marshal, Decode, ValidTargets, L.ValidCommand, ValidRecipients, Chunk, TaskFor, Looked, Answers,
      IsHint, EncodedSize, ChunkCount;
    var ids := Chunk(recipients, index);
    SoundChunk(message, recipients, requestId, index);
    var targets: seq<L.Tuple> := [];
    NoHints(ids);
    LookupAnswers(o, index, ids);
    var results := Looked(o, index, ids);
    if results.Some? {
      targets := HintsOf(ids, results.value);
    }
    var task := TaskFor(message, recipients, index, targets, requestId);
    var raw := Marshal(task);
    if ChunkCount(|recipients|) < UINT32 {
      TaskDecodes(message, recipients, index, targets, requestId);
      MarshalSize(task);
    }
    if raw.size > MAX_PAYLOAD {
      return None;
    }
    attempt := Some(Attempt(targets, raw, o.answers(index)));
  }

  lemma SoundChunk(message: Message, recipients: seq<string>, requestId: string, index: nat)
    requires Dispatchable(message, recipients, requestId) && index < ChunkCount(|recipients|)
    ensures var ids := Chunk(recipients, index); Ascending(ids) && L.ValidCommand(L.Lookup(ids))
  {
    hide MessageRuns.Deliverable, L.ValidCommand;
    ChunkIsSound(message, recipients, index);
  }

  /**
   The state reported is exact: queued if every chunk was acknowledged, not queued if no chunk can have reached the
   broker, unknown in every other case. Chunks follow each other until one is not acknowledged.
   */
  method Dispatch(o: Outside, message: Message, recipients: seq<string>, requestId: string)
      returns (state: DispatchState, attempts: seq<Attempt>)
    requires Dispatchable(message, recipients, requestId)
    ensures InOrder(o, message, recipients, requestId, attempts)
    ensures state == Queued <==> |attempts| == ChunkCount(|recipients|) && AllAcked(attempts)
    ensures state == NotQueued <==> NothingHanded(attempts)
    ensures ChunkCount(|recipients|) < UINT32 ==>
              && attempts != []
              && (state == Queued <==> forall i: nat | i < ChunkCount(|recipients|) :: o.answers(i) == Acked)
              && (state == NotQueued <==> o.answers(0) == NotPublished)
  {
    hide Dispatchable, Carries, InOrder, AllAcked, NothingHanded, ChunkCount;
    RecipientsGiven(message, recipients, requestId);
    NoneYet(o, message, recipients, requestId);
    var count := ChunkCount(|recipients|);
    var published := 0;
    attempts := [];
    for index := 0 to count
      invariant published == index == |attempts|
      invariant AllAcked(attempts)
      invariant InOrder(o, message, recipients, requestId, attempts)
      invariant forall i: nat | i < published :: o.answers(i) == Acked
    {
      var attempt := PublishChunk(o, message, recipients, index, requestId);
      if attempt.None? {
        state := if published == 0 then NotQueued else Unknown;
        if published > 0 {
          SomethingHanded(attempts);
        }
        return;
      }
      OneMore(o, message, recipients, requestId, attempts, attempt.value);
      attempts := attempts + [attempt.value];
      if attempt.value.answer != Acked {
        state := Unknown;
        if published == 0 && attempt.value.answer == NotPublished {
          state := NotQueued;
        }
        return;
      }
      published := published + 1;
    }
    state := Queued;
    SomethingHanded(attempts);
  }

  lemma RecipientsGiven(message: Message, recipients: seq<string>, requestId: string)
    requires Dispatchable(message, recipients, requestId)
    ensures ChunkCount(|recipients|) > 0
  {
    hide ValidMessage, Ascending, ValidRecipient;
  }

  lemma NoneYet(o: Outside, message: Message, recipients: seq<string>, requestId: string)
    ensures InOrder(o, message, recipients, requestId, []) && AllAcked([]) && NothingHanded([])
  {
  }

  lemma SomethingHanded(attempts: seq<Attempt>)
    requires AllAcked(attempts) && attempts != []
    ensures !NothingHanded(attempts)
  {
    assert attempts[0].answer == Acked;
  }

  lemma OneMore(o: Outside, message: Message, recipients: seq<string>, requestId: string, attempts: seq<Attempt>,
                a: Attempt)
    requires InOrder(o, message, recipients, requestId, attempts) && AllAcked(attempts)
    requires |attempts| < ChunkCount(|recipients|) && Carries(o, message, recipients, requestId, |attempts|, a)
    ensures InOrder(o, message, recipients, requestId, attempts + [a]) && a.answer == o.answers(|attempts|)
    ensures AllAcked(attempts + [a]) <==> a.answer == Acked
    ensures NothingHanded(attempts + [a]) <==> attempts == [] && a.answer == NotPublished
  {
    hide ChunkCount, ValidTargets, Marshal, TaskFor, Chunk, IsHint, Looked;
    var more := attempts + [a];
    assert more[|attempts|] == a;
    if attempts != [] {
      assert more[0] == attempts[0] && attempts[0].answer == Acked;
    }
  }

  lemma NoHints(ids: seq<string>)
    ensures ValidTargets(ids, []) && forall h :: !IsHint(None, h)
  {
  }

  lemma MarshalSize(task: PushTask)
    ensures Marshal(task).size == EncodedSize(task)
  {
  }

  // ----- what Job receives -----

  /** The users the first `k` handed tasks are for, as Job reads them. */
  function Reached(attempts: seq<Attempt>, k: nat): seq<string>
    requires k <= |attempts|
  {
    if k == 0 then []
    else Reached(attempts, k - 1) + match Decode(attempts[k - 1].raw) case Some(task) => Scope(task) case None => []
  }

  /** Read by Job, the tasks of a queued message together reach every recipient exactly once, in order. */
  lemma {:induction false} TasksReachRecipients(o: Outside, message: Message, recipients: seq<string>,
                                                requestId: string, attempts: seq<Attempt>, k: nat)
    requires Dispatchable(message, recipients, requestId) && ChunkCount(|recipients|) < UINT32
    requires InOrder(o, message, recipients, requestId, attempts) && k <= |attempts|
    ensures Reached(attempts, k) == Joined(recipients, k)
    ensures k == ChunkCount(|recipients|) ==> Reached(attempts, k) == recipients
    decreases k
  {
    hide Decode, Marshal, Dispatchable, ValidTargets, TaskFor, Chunk, ChunkCount, Scope;
    if k > 0 {
      TasksReachRecipients(o, message, recipients, requestId, attempts, k - 1);
      TaskReachesChunk(o, message, recipients, requestId, k - 1, attempts[k - 1]);
    }
    AllJoined(recipients, k);
  }

  lemma TaskReachesChunk(o: Outside, message: Message, recipients: seq<string>, requestId: string, index: nat,
                         a: Attempt)
    requires Dispatchable(message, recipients, requestId) && index < ChunkCount(|recipients|) < UINT32
    requires Carries(o, message, recipients, requestId, index, a)
    ensures Decode(a.raw).Some? && Scope(Decode(a.raw).value) == Chunk(recipients, index)
  {
    hide Decode, Marshal, Dispatchable, ValidTargets, Chunk;
    TaskDecodes(message, recipients, index, a.targets, requestId);
  }

  lemma AllJoined(recipients: seq<string>, k: nat)
    requires k <= ChunkCount(|recipients|)
    ensures k == ChunkCount(|recipients|) ==> Joined(recipients, k) == recipients
  {
    ChunksPartition(recipients, k);
  }
}
