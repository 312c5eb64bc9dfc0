/**
 One partition's consumer: fetch, process, dead-letter what is unresolved, commit, and only then fetch again.
 Fetching, processing, writing and committing may all fail at any time; every outcome is arbitrary.
 */
module PartitionConsumer {
  import opened Wrappers
  import opened Identifiers
  import opened PushTasks
  import opened DeliveryEngine
  import opened DeliveryRun
  import opened Replay
  import L = LeaseScript

  // ----- the identity cache as a first-in-first-out window -----

  datatype Entry = Entry(id: string, digest: Digest)

  predicate Known(window: seq<Entry>, id: string) {
    exists k :: 0 <= k < |window| && window[k].id == id
  }

  predicate DistinctIds(window: seq<Entry>) {
    forall i, j | 0 <= i < j < |window| :: window[i].id != window[j].id
  }

  predicate Contradicts(window: seq<Entry>, e: Entry) {
    exists k :: 0 <= k < |window| && window[k].id == e.id && window[k].digest != e.digest
  }

  /** The window after seeing `e`: a known id changes nothing, a new one pushes the oldest out when it is full. */
  function Observe(window: seq<Entry>, capacity: nat, e: Entry): seq<Entry>
    requires capacity > 0
  {
    if Known(window, e.id) then window
    else (if |window| < capacity then window else window[1..]) + [e]
  }

  function WindowAfter(history: seq<Entry>, capacity: nat): seq<Entry>
    requires capacity > 0
  {
    if history == [] then []
    else Observe(WindowAfter(history[..|history| - 1], capacity), capacity, history[|history| - 1])
  }

  /** The entries that were new when they came. */
  function NewlySeen(history: seq<Entry>, capacity: nat): seq<Entry>
    requires capacity > 0
  {
    if history == [] then []
    else
      var front, e := history[..|history| - 1], history[|history| - 1];
      NewlySeen(front, capacity) + (if Known(WindowAfter(front, capacity), e.id) then [] else [e])
  }

  /** The last `capacity` entries seen, oldest first and without repetition. */
  predicate LastSeen(window: seq<Entry>, seen: seq<Entry>, capacity: nat) {
    && DistinctIds(window)
    && |window| == (if |seen| < capacity then |seen| else capacity)
    && window == seen[|seen| - |window|..]
  }

  lemma DistinctAppend(window: seq<Entry>, e: Entry)
    requires DistinctIds(window) && !Known(window, e.id)
    ensures DistinctIds(window + [e])
  {
  }

  lemma TailDistinct(window: seq<Entry>, id: string)
    requires DistinctIds(window) && window != [] && !Known(window, id)
    ensures DistinctIds(window[1..]) && !Known(window[1..], id)
  {
    forall k | 0 <= k < |window| - 1 ensures window[1..][k] == window[k + 1] && window[k + 1].id != id {
    }
  }

  lemma SuffixAppend(window: seq<Entry>, seen: seq<Entry>, e: Entry)
    requires |window| <= |seen| && window == seen[|seen| - |window|..]
    ensures window + [e] == (seen + [e])[|seen| - |window|..]
    ensures window != [] ==> window[1..] + [e] == (seen + [e])[|seen| - |window| + 1..]
  {
  }

  lemma ObserveSlides(window: seq<Entry>, seen: seq<Entry>, capacity: nat, e: Entry)
    requires capacity > 0 && LastSeen(window, seen, capacity) && !Known(window, e.id)
    ensures LastSeen(Observe(window, capacity, e), seen + [e], capacity)
  {
    SuffixAppend(window, seen, e);
    if |window| < capacity {
      DistinctAppend(window, e);
    } else {
      TailDistinct(window, e.id);
      DistinctAppend(window[1..], e);
    }
    hide DistinctIds;
  }

  /** The cache holds exactly the last `capacity` newly seen ids, oldest first and without repetition. */
  lemma {:induction false} WindowIsLastNewlySeen(history: seq<Entry>, capacity: nat)
    requires capacity > 0
    ensures LastSeen(WindowAfter(history, capacity), NewlySeen(history, capacity), capacity)
  {
    if history != [] {
      var front, e := history[..|history| - 1], history[|history| - 1];
      WindowIsLastNewlySeen(front, capacity);
      hide LastSeen, Known;
      if !Known(WindowAfter(front, capacity), e.id) {
        ObserveSlides(WindowAfter(front, capacity), NewlySeen(front, capacity), capacity, e);
      } else {
        assert NewlySeen(history, capacity) == NewlySeen(front, capacity);
      }
    }
  }

  /** A conflict needs an earlier task of the same id and another digest; equal digests never conflict. */
  lemma {:induction false} ConflictNeedsDifference(history: seq<Entry>, capacity: nat, e: Entry)
    requires capacity > 0
    requires forall k | 0 <= k < |history| && history[k].id == e.id :: history[k].digest == e.digest
    ensures !Contradicts(WindowAfter(history, capacity), e)
  {
    if history != [] {
      ConflictNeedsDifference(history[..|history| - 1], capacity, e);
    }
  }

  // ----- the protocol at the acknowledgement boundary -----

  datatype ProcessAnswer = ProcessAnswer(results: seq<RecipientResult>, attempts: nat, failed: bool)

  /** The wall clock when a record is fetched, and when a dead letter for it is about to be written. */
  datatype Stamps = Stamps(first: int, last: int)

  datatype Event =
    | Fetched(m: Record, at: Stamps)
    | Refused(m: Record, reason: string)
    | Processed(m: Record, answer: ProcessAnswer)
    | Wrote(letter: DeadLetter, ok: bool)
    | CommitTried(m: Record, ok: bool)

  /** Where a partition stands: what it fetched, whether it owes a dead letter for it, whether it may commit. */
  datatype Ledger =
    | Idle
    | Opened(m: Record, at: Stamps)
    | OwesRaw(m: Record, at: Stamps, reason: string)
    | OwesUnresolved(m: Record, at: Stamps, task: PushTask, pending: seq<string>)
    | MayCommit(m: Record)
    | Broken

  /** Whom a dead letter must name: the unresolved users, or everybody in scope if an error named nobody. */
  function Pending(task: PushTask, answer: ProcessAnswer): seq<string> {
    if PendingRecipients(answer.results) == [] then Scope(task) else PendingRecipients(answer.results)
  }

  predicate Clean(answer: ProcessAnswer) {
    !answer.failed && PendingRecipients(answer.results) == []
  }

  predicate RawLetterFor(m: Record, at: Stamps, reason: string, letter: DeadLetter) {
    letter == RejectedLetter(m, reason, at.first, at.last)
  }

  predicate UnresolvedLetterFor(m: Record, at: Stamps, task: PushTask, pending: seq<string>, letter: DeadLetter) {
    letter == UnresolvedLetter(m, task, pending, at.first, at.last)
  }

  function Advance(l: Ledger, e: Event): Ledger {
    match e
    case Fetched(m, at) => if l == Idle then Opened(m, at) else Broken
    case Refused(m, reason) =>
      if l.Opened? && l.m == m
         && (if Decode(m.value).None? then reason == "invalid_task" else reason == "immutable_task_conflict")
      then OwesRaw(m, l.at, reason) else Broken
    case Processed(m, answer) =>
      if !l.Opened? || l.m != m || Decode(m.value).None? then Broken
      else if Clean(answer) then MayCommit(m)
      else OwesUnresolved(m, l.at, Decode(m.value).value, Pending(Decode(m.value).value, answer))
    case Wrote(letter, ok) =>
      if (l.OwesRaw? && RawLetterFor(l.m, l.at, l.reason, letter))
         || (l.OwesUnresolved? && UnresolvedLetterFor(l.m, l.at, l.task, l.pending, letter))
      then (if ok then MayCommit(l.m) else l) else Broken
    case CommitTried(m, ok) =>
      if l == MayCommit(m) then (if ok then Idle else l) else Broken
  }

  function Scan(trace: seq<Event>): Ledger {
    if trace == [] then Idle else Advance(Scan(trace[..|trace| - 1]), trace[|trace| - 1])
  }

  predicate Accounted(trace: seq<Event>) {
    !Scan(trace).Broken?
  }

  lemma {:induction false} PrefixAccounted(trace: seq<Event>, k: nat)
    requires Accounted(trace) && k <= |trace|
    ensures Accounted(trace[..k])
    decreases |trace| - k
  {
    if k < |trace| {
      PrefixAccounted(trace, k + 1);
      assert trace[..k + 1][..k] == trace[..k];
    } else {
      assert trace[..k] == trace;
    }
  }

  lemma ScanStep(trace: seq<Event>, k: nat)
    requires k < |trace|
    ensures Scan(trace[..k + 1]) == Advance(Scan(trace[..k]), trace[k])
  {
    assert trace[..k + 1][..k] == trace[..k];
  }

  /** Record `m` is open since its fetch at `f`, and nothing was fetched after it. */
  predicate OpenSince(trace: seq<Event>, k: nat, f: nat, m: Record)
    requires k <= |trace|
  {
    && f < k && trace[f].Fetched? && trace[f].m == m
    && (forall g | f < g < k :: !trace[g].Fetched?)
    && (forall g | f < g < k :: !(trace[g].CommitTried? && trace[g].ok))
  }

  /** Why `m`, fetched at `f`, may be committed by position `k`. */
  predicate Justification(trace: seq<Event>, k: nat, f: nat, m: Record)
    requires f < k <= |trace| && trace[f].Fetched?
  {
    || (exists p :: f < p < k && trace[p].Processed? && trace[p].m == m && Clean(trace[p].answer))
    || (exists p, w :: f < p < w < k && trace[w].Wrote? && trace[w].ok
                       && LetterOwed(trace[p], m, trace[f].at, trace[w].letter))
  }

  /** The letter carries the refused bytes, or the valid task with exactly the users its processing left pending. */
  predicate LetterOwed(e: Event, m: Record, at: Stamps, letter: DeadLetter) {
    || (e.Refused? && e.m == m && RawLetterFor(m, at, e.reason, letter))
    || (e.Processed? && e.m == m && !Clean(e.answer) && Decode(m.value).Some?
        && UnresolvedLetterFor(m, at, Decode(m.value).value, Pending(Decode(m.value).value, e.answer), letter))
  }

  /** The processing that left users pending. */
  predicate OwedAfter(e: Event, l: Ledger)
    requires l.OwesUnresolved?
  {
    && e.Processed? && e.m == l.m && !Clean(e.answer)
    && Decode(l.m.value) == Some(l.task) && l.pending == Pending(l.task, e.answer)
  }

  /** What ledger `l` remembers at position `k` is really in the trace since the fetch at `f`. */
  ghost predicate Meant(trace: seq<Event>, k: nat, f: nat, l: Ledger)
    requires k <= |trace|
  {
    && !l.Idle? && !l.Broken? && OpenSince(trace, k, f, l.m) && (l.MayCommit? || l.at == trace[f].at)
    && (l.OwesRaw? ==> exists p :: f < p < k && trace[p] == Refused(l.m, l.reason))
    && (l.OwesUnresolved? ==> exists p :: f < p < k && OwedAfter(trace[p], l))
    && (l.MayCommit? ==> Justification(trace, k, f, l.m))
  }

  lemma MeantStep(trace: seq<Event>, k: nat, f: nat, before: Ledger, l: Ledger)
    requires k < |trace| && Meant(trace, k, f, before) && l == Advance(before, trace[k]) && !l.Idle? && !l.Broken?
    ensures Meant(trace, k + 1, f, l)
  {
    hide Decode, Pending, Clean, RejectedLetter, UnresolvedLetter;
    match trace[k]
    case Wrote(letter, ok) =>
      if ok {
        var p :| f < p < k && LetterOwed(trace[p], before.m, trace[f].at, letter);
        assert trace[k].Wrote? && trace[k].ok;
      }
    case Processed(m, answer) => assert trace[k].Processed?;
    case Refused(_, _) =>
    case Fetched(_, _) =>
    case CommitTried(_, _) => JustificationLater(trace, k, f, before.m);
  }

  lemma {:induction false} LedgerMeaning(trace: seq<Event>, k: nat) returns (f: nat)
    requires Accounted(trace) && k <= |trace| && Scan(trace[..k]) != Idle
    ensures Meant(trace, k, f, Scan(trace[..k]))
    decreases k
  {
    hide Decode, Pending, Clean, RejectedLetter, UnresolvedLetter, OwedAfter, Justification;
    PrefixAccounted(trace, k);
    assert Scan([]) == Idle;
    ScanStep(trace, k - 1);
    if trace[k - 1].Fetched? {
      f := k - 1;
    } else {
      f := LedgerMeaning(trace, k - 1);
      MeantStep(trace, k - 1, f, Scan(trace[..k - 1]), Scan(trace[..k]));
    }
  }

  lemma JustificationLater(trace: seq<Event>, k: nat, f: nat, m: Record)
    requires f < k < |trace| && trace[f].Fetched? && Justification(trace, k, f, m)
    ensures Justification(trace, k + 1, f, m)
  {
  }

  /** Every commit is of the record fetched last, and what justifies it happened since that fetch. */
  lemma CommitsAreJustified(trace: seq<Event>, c: nat) returns (f: nat)
    requires Accounted(trace) && c < |trace| && trace[c].CommitTried?
    ensures OpenSince(trace, c, f, trace[c].m) && Justification(trace, c, f, trace[c].m)
  {
    PrefixAccounted(trace, c + 1);
    ScanStep(trace, c);
    f := LedgerMeaning(trace, c);
  }

  /** Nothing is fetched before the record fetched earlier is committed. */
  lemma FetchWaitsForCommit(trace: seq<Event>, f: nat, g: nat)
    requires Accounted(trace) && f < g < |trace| && trace[f].Fetched? && trace[g].Fetched?
    ensures exists c :: f < c < g && trace[c] == CommitTried(trace[f].m, true)
    decreases g
  {
    PrefixAccounted(trace, g + 1);
    ScanStep(trace, g);
    IdleMeansCommitted(trace, f, g);
  }

  lemma {:induction false} IdleMeansCommitted(trace: seq<Event>, f: nat, k: nat)
    requires Accounted(trace) && f < k <= |trace| && trace[f].Fetched? && Scan(trace[..k]) == Idle
    ensures exists c :: f < c < k && trace[c] == CommitTried(trace[f].m, true)
    decreases k
  {
    hide Decode, Pending, Clean, RawLetterFor, UnresolvedLetterFor, Justification;
    PrefixAccounted(trace, k);
    ScanStep(trace, k - 1);
    var h := LedgerMeaning(trace, k - 1);
    if f < h {
      PrefixAccounted(trace, h + 1);
      ScanStep(trace, h);
      IdleMeansCommitted(trace, f, h);
    } else {
      assert f == h;
      assert trace[k - 1] == CommitTried(trace[f].m, true);
    }
  }

  /** A processing answer with one entry for each user in scope, in order, failing exactly when somebody is pending. */
  predicate FaithfulAnswer(m: Record, answer: ProcessAnswer) {
    && Decode(m.value).Some?
    && |answer.results| == |Scope(Decode(m.value).value)|
    && (forall i | 0 <= i < |answer.results| :: answer.results[i].userId == Scope(Decode(m.value).value)[i])
    && (answer.failed <==> PendingRecipients(answer.results) != [])
  }

  /** The letter replays to a task whose scope is the letter's pending users, unless the wall clock stepped back. */
  predicate NamedForReplay(m: Record, letter: DeadLetter, runId: string) {
    letter.firstAttempt != ZERO_TIME && letter.firstAttempt <= letter.lastAttempt ==>
      && Replayed(letter, runId).Some?
      && Scope(Replayed(letter, runId).value) == letter.pending
  }

  lemma LetterCarries(e: Event, m: Record, at: Stamps, letter: DeadLetter, runId: string)
    requires LetterOwed(e, m, at, letter) && PushRecord(m) && Printable(runId, 128)
    requires e.Processed? ==> FaithfulAnswer(e.m, e.answer)
    ensures e.m == m && (e.Refused? || e.Processed?)
    ensures letter.firstAttempt == at.first && letter.lastAttempt == at.last
    ensures e.Refused? ==> letter.raw == Bytes(m.value) && letter.reason == e.reason
    ensures e.Processed? ==>
              letter.pending == PendingRecipients(e.answer.results) && NamedForReplay(m, letter, runId)
  {
    if e.Processed? {
      var task := Decode(m.value).value;
      ScopeDistinct(m.value);
      PendingWithinScope(task, e.answer.results);
      hide Decode, PushRecord, Replayed, Printable, Scope;
      if letter.firstAttempt != ZERO_TIME && letter.firstAttempt <= letter.lastAttempt {
        UnresolvedIsReplayable(m, letter.pending, letter.firstAttempt, letter.lastAttempt, runId);
        ReplayDecodes(letter, runId);
      }
    }
  }

  /** Everybody in scope was enqueued, a duplicate or offline. */
  predicate AllSettled(e: Event, m: Record) {
    e.Processed? && e.m == m && forall r | r in e.answer.results :: r.outcome != Unresolved
  }

  /** An acknowledged letter with these times names exactly the users left over, and can be replayed for them. */
  predicate LeftForReplay(e: Event, w: Event, m: Record, at: Stamps, runId: string) {
    && e.Processed? && e.m == m && w.Wrote? && w.ok
    && w.letter.firstAttempt == at.first && w.letter.lastAttempt == at.last
    && w.letter.pending == PendingRecipients(e.answer.results) && NamedForReplay(m, w.letter, runId)
  }

  /** The record was refused, and an acknowledged letter with these times carries its bytes and the reason. */
  predicate BytesKept(e: Event, w: Event, m: Record, at: Stamps) {
    && e.Refused? && e.m == m && w.Wrote? && w.ok
    && w.letter.firstAttempt == at.first && w.letter.lastAttempt == at.last
    && w.letter.raw == Bytes(m.value) && w.letter.reason == e.reason
  }

  /**
   With a faithful processor nobody is lost. Since the fetch of the record that is committed, one of three things
   happened: everybody in scope was settled; an acknowledged dead letter names exactly the others and can be replayed
   for them; or the record was refused and an acknowledged dead letter carries its bytes.
   */
  lemma CommitLosesNobody(trace: seq<Event>, c: nat, runId: string) returns (f: nat)
    requires Accounted(trace) && c < |trace| && trace[c].CommitTried? && PushRecord(trace[c].m)
    requires forall p | 0 <= p < |trace| && trace[p].Processed? :: FaithfulAnswer(trace[p].m, trace[p].answer)
    requires Printable(runId, 128)
    ensures OpenSince(trace, c, f, trace[c].m)
    ensures var m := trace[c].m;
            || (exists p :: f < p < c && AllSettled(trace[p], m))
            || (exists p, w :: f < p < w < c && LeftForReplay(trace[p], trace[w], m, trace[f].at, runId))
            || (exists p, w :: f < p < w < c && BytesKept(trace[p], trace[w], m, trace[f].at))
  {
    hide Decode, RejectedLetter, UnresolvedLetter, FaithfulAnswer, NamedForReplay, LetterOwed;
    var m := trace[c].m;
    f := CommitsAreJustified(trace, c);
    if p :| f < p < c && trace[p].Processed? && trace[p].m == m && Clean(trace[p].answer) {
      NothingPending(trace[p].answer.results);
      assert AllSettled(trace[p], m);
    } else {
      var p, w :| f < p < w < c && trace[w].Wrote? && trace[w].ok
                  && LetterOwed(trace[p], m, trace[f].at, trace[w].letter);
      LetterCarries(trace[p], m, trace[f].at, trace[w].letter, runId);
      assert LeftForReplay(trace[p], trace[w], m, trace[f].at, runId) || BytesKept(trace[p], trace[w], m, trace[f].at);
    }
  }

  /** The engine is such a processor. */
  lemma EngineIsFaithful(m: Record, calls: seq<Call>, r: Result, failed: bool)
    requires Decode(m.value).Some? && FaithfulResult(Decode(m.value).value, calls, r)
    requires failed <==> PendingRecipients(r.recipients) != []
    ensures FaithfulAnswer(m, ProcessAnswer(r.recipients, r.attempts, failed))
  {
    hide Decode, Grounded;
  }

  // ----- the consumer -----

  /** Counters, one for each kind of event they count. */
  datatype Stats = Stats(
    processed: nat, committed: nat, deadLetters: nat, invalid: nat, conflicts: nat, writeErrors: nat, commitErrors: nat)

  function Counted(s: Stats, e: Event): Stats {
    match e
    case Fetched(_, _) => s
    case Refused(_, reason) =>
      s.(invalid := s.invalid + 1, conflicts := s.conflicts + (if reason == "immutable_task_conflict" then 1 else 0))
    case Processed(_, _) => s.(processed := s.processed + 1)
    case Wrote(_, ok) => if ok then s.(deadLetters := s.deadLetters + 1) else s.(writeErrors := s.writeErrors + 1)
    case CommitTried(_, ok) => if ok then s.(committed := s.committed + 1) else s.(commitErrors := s.commitErrors + 1)
  }

  function Tally(s: Stats, trace: seq<Event>): Stats {
    if trace == [] then s else Counted(Tally(s, trace[..|trace| - 1]), trace[|trace| - 1])
  }

  /** The records fetched, in order. */
  function FetchedRecords(trace: seq<Event>): seq<Record> {
    if trace == [] then []
    else
      var e := trace[|trace| - 1];
      FetchedRecords(trace[..|trace| - 1]) + (if e.Fetched? then [e.m] else [])
  }

  lemma TraceStep(trace: seq<Event>, e: Event)
    ensures Scan(trace + [e]) == Advance(Scan(trace), e)
    ensures forall s :: Tally(s, trace + [e]) == Counted(Tally(s, trace), e)
    ensures FetchedRecords(trace + [e]) == FetchedRecords(trace) + (if e.Fetched? then [e.m] else [])
  {
    assert (trace + [e])[..|trace|] == trace;
  }

  /** What is to be acknowledged: a dead letter or an offset. */
  datatype Boundary = WriteLetter(letter: DeadLetter) | CommitOffset(m: Record)

  function Attempted(b: Boundary, ok: bool): Event {
    if b.WriteLetter? then Wrote(b.letter, ok) else CommitTried(b.m, ok)
  }

  /** The ledger is ready for this acknowledgement. */
  predicate Due(l: Ledger, b: Boundary) {
    match b
    case WriteLetter(letter) =>
      || (l.OwesRaw? && RawLetterFor(l.m, l.at, l.reason, letter))
      || (l.OwesUnresolved? && UnresolvedLetterFor(l.m, l.at, l.task, l.pending, letter))
    case CommitOffset(m) => l == MayCommit(m)
  }

  /** After the decision the record may be committed, or its dead letter is due first. */
  predicate Ready(l: Ledger, m: Record, dead: Option<DeadLetter>) {
    if dead.None? then l == MayCommit(m)
    else (l.OwesRaw? || l.OwesUnresolved?) && l.m == m && Due(l, WriteLetter(dead.value))
  }

  // ----- refusals -----

  function EntryOf(task: PushTask): Entry {
    Entry(task.taskId, ImmutableDigest(task))
  }

  /** The window after all decodable tasks among the fetched records. */
  function Remember(w: seq<Entry>, capacity: nat, fetched: seq<Record>): seq<Entry>
    requires capacity > 0
  {
    if fetched == [] then w
    else
      var before, task := Remember(w, capacity, fetched[..|fetched| - 1]), Decode(fetched[|fetched| - 1].value);
      if task.None? then before else Observe(before, capacity, EntryOf(task.value))
  }

  /** Why the record fetched last is refused, if it is. */
  function RefusalOf(w: seq<Entry>, capacity: nat, fetched: seq<Record>): Option<string>
    requires capacity > 0 && fetched != []
  {
    var before, task := Remember(w, capacity, fetched[..|fetched| - 1]), Decode(fetched[|fetched| - 1].value);
    if task.None? then Some("invalid_task")
    else if Contradicts(before, EntryOf(task.value)) then Some("immutable_task_conflict") else None
  }

  lemma RememberStep(w: seq<Entry>, capacity: nat, fetched: seq<Record>)
    requires capacity > 0 && fetched != []
    ensures var before, task := Remember(w, capacity, fetched[..|fetched| - 1]), Decode(fetched[|fetched| - 1].value);
            Remember(w, capacity, fetched)
              == if task.None? then before else Observe(before, capacity, EntryOf(task.value))
  {
  }

  /** The tasks among the records, in order. */
  function TaskEntries(fetched: seq<Record>): seq<Entry> {
    if fetched == [] then []
    else
      var task := Decode(fetched[|fetched| - 1].value);
      TaskEntries(fetched[..|fetched| - 1]) + (if task.None? then [] else [EntryOf(task.value)])
  }

  lemma {:induction false} RememberIsWindow(capacity: nat, fetched: seq<Record>)
    requires capacity > 0
    ensures Remember([], capacity, fetched) == WindowAfter(TaskEntries(fetched), capacity)
  {
    hide Decode, Observe;
    if fetched != [] {
      var before, task := TaskEntries(fetched[..|fetched| - 1]), Decode(fetched[|fetched| - 1].value);
      RememberIsWindow(capacity, fetched[..|fetched| - 1]);
      if task.None? {
        assert TaskEntries(fetched) == before;
      } else {
        assert TaskEntries(fetched)[..|before|] == before;
      }
    }
  }

  /**
   From an empty cache, a record is refused as no task exactly if it does not decode, and as a conflict exactly if one
   of the last newly seen tasks, as many as the cache holds, has its id and another digest.
   */
  lemma RefusalMeaning(capacity: nat, fetched: seq<Record>)
    requires capacity > 0 && fetched != []
    ensures var refusal, task := RefusalOf([], capacity, fetched), Decode(fetched[|fetched| - 1].value);
            var seen := NewlySeen(TaskEntries(fetched[..|fetched| - 1]), capacity);
            && (refusal == Some("invalid_task") <==> task.None?)
            && (refusal == Some("immutable_task_conflict") <==>
                  task.Some? && exists k :: 0 <= k < |seen| && |seen| - capacity <= k && seen[k].id == task.value.taskId
                                            && seen[k].digest != ImmutableDigest(task.value))
            && (refusal.None? <==>
                  task.Some? && forall k | 0 <= k < |seen| && |seen| - capacity <= k ::
                    seen[k].id == task.value.taskId ==> seen[k].digest == ImmutableDigest(task.value))
  {
    hide Decode, ImmutableDigest, Observe, DistinctIds;
    var history := TaskEntries(fetched[..|fetched| - 1]);
    RememberIsWindow(capacity, fetched[..|fetched| - 1]);
    WindowIsLastNewlySeen(history, capacity);
    var window, seen := WindowAfter(history, capacity), NewlySeen(history, capacity);
    assert forall k | 0 <= k < |window| :: window[k] == seen[|seen| - |window| + k];
    assert forall k | |seen| - |window| <= k < |seen| :: seen[k] == window[k - (|seen| - |window|)];
  }

  /** A record is refused exactly for its reason, and processed exactly when there is none. */
  predicate ScreenedAt(w: seq<Entry>, capacity: nat, fetched: seq<Record>, e: Event)
    requires capacity > 0
  {
    (e.Refused? || e.Processed?) ==>
      && fetched != [] && fetched[|fetched| - 1] == e.m
      && RefusalOf(w, capacity, fetched) == if e.Refused? then Some(e.reason) else None
  }

  predicate Screened(w: seq<Entry>, capacity: nat, trace: seq<Event>)
    requires capacity > 0
  {
    forall k | 0 <= k < |trace| :: ScreenedAt(w, capacity, FetchedRecords(trace[..k]), trace[k])
  }

  lemma ScreenedStep(w: seq<Entry>, capacity: nat, trace: seq<Event>, e: Event)
    requires capacity > 0 && Screened(w, capacity, trace)
    requires ScreenedAt(w, capacity, FetchedRecords(trace), e)
    ensures Screened(w, capacity, trace + [e])
  {
    hide ScreenedAt;
    var longer := trace + [e];
    forall k | 0 <= k < |longer| ensures ScreenedAt(w, capacity, FetchedRecords(longer[..k]), longer[k]) {
      if k < |trace| {
        assert longer[..k] == trace[..k];
      } else {
        assert longer[..k] == trace;
      }
    }
  }

  /** From position `n` on there are only attempts at an acknowledgement. */
  predicate Attempts(trace: seq<Event>, n: nat) {
    forall k | n <= k < |trace| :: trace[k].Wrote? || trace[k].CommitTried?
  }

  lemma ScreenedByAck(w: seq<Entry>, capacity: nat, before: seq<Event>, after: seq<Event>)
    requires capacity > 0 && Screened(w, capacity, before) && before <= after
    requires Attempts(after, |before|)
    ensures Screened(w, capacity, after)
  {
    forall k | 0 <= k < |after| ensures ScreenedAt(w, capacity, FetchedRecords(after[..k]), after[k]) {
      if k < |before| {
        assert after[..k] == before[..k];
      }
    }
  }

  /** Refusing an open record owes a raw letter and is screened. */
  lemma RefuseStep(w: seq<Entry>, capacity: nat, trace: seq<Event>, m: Record, at: Stamps, reason: string)
    requires capacity > 0 && Screened(w, capacity, trace) && Scan(trace) == Opened(m, at)
    requires FetchedRecords(trace) != [] && FetchedRecords(trace)[|FetchedRecords(trace)| - 1] == m
    requires RefusalOf(w, capacity, FetchedRecords(trace)) == Some(reason)
    ensures Screened(w, capacity, trace + [Refused(m, reason)])
    ensures Advance(Scan(trace), Refused(m, reason)) == OwesRaw(m, at, reason)
  {
    hide Screened, Contradicts, Remember;
    ScreenedStep(w, capacity, trace, Refused(m, reason));
  }

  lemma ProcessStep(w: seq<Entry>, capacity: nat, trace: seq<Event>, m: Record, at: Stamps, answer: ProcessAnswer)
    requires capacity > 0 && Screened(w, capacity, trace) && Scan(trace) == Opened(m, at)
    requires FetchedRecords(trace) != [] && FetchedRecords(trace)[|FetchedRecords(trace)| - 1] == m
    requires RefusalOf(w, capacity, FetchedRecords(trace)) == None
    ensures Screened(w, capacity, trace + [Processed(m, answer)]) && Decode(m.value).Some?
    ensures Advance(Scan(trace), Processed(m, answer))
              == if Clean(answer) then MayCommit(m)
                 else OwesUnresolved(m, at, Decode(m.value).value, Pending(Decode(m.value).value, answer))
  {
    hide Screened, Contradicts, Remember;
    ScreenedStep(w, capacity, trace, Processed(m, answer));
  }

  lemma LetterDue(m: Record, at: Stamps, reason: string)
    ensures Due(OwesRaw(m, at, reason), WriteLetter(RejectedLetter(m, reason, at.first, at.last)))
  {
  }

  lemma UnresolvedDue(m: Record, at: Stamps, task: PushTask, answer: ProcessAnswer, pending: seq<string>)
    requires pending ==
               if PendingRecipients(answer.results) == [] then Scope(task) else PendingRecipients(answer.results)
    ensures Due(OwesUnresolved(m, at, task, Pending(task, answer)),
                WriteLetter(UnresolvedLetter(m, task, pending, at.first, at.last)))
  {
  }

  lemma FetchOpens(m: Record, at: Stamps)
    ensures Advance(Idle, Fetched(m, at)) == Opened(m, at)
  {
  }

  lemma NothingYet(s: Stats, w: seq<Entry>, capacity: nat)
    requires capacity > 0
    ensures Screened(w, capacity, []) && Remember(w, capacity, []) == w && Tally(s, []) == s
    ensures Scan([]) == Idle && FetchedRecords([]) == []
  {
  }

  // ----- the ring -----

  ghost function Entries(ids: seq<string>, identities: map<string, Digest>): (w: seq<Entry>)
    requires forall k | 0 <= k < |ids| :: ids[k] in identities
    ensures |w| == |ids|
    ensures forall k | 0 <= k < |ids| :: w[k] == Entry(ids[k], identities[ids[k]])
  {
    seq(|ids|, k requires 0 <= k < |ids| => Entry(ids[k], identities[ids[k]]))
  }

  predicate RingOf(order: seq<string>, next: nat, identities: map<string, Digest>) {
    next <= |order| && L.Distinct(order) && forall k | 0 <= k < |order| :: order[k] in identities
  }

  lemma ObserveKnown(window: seq<Entry>, capacity: nat, e: Entry)
    requires capacity > 0 && Known(window, e.id)
    ensures Observe(window, capacity, e) == window
  {
  }

  lemma ObserveNew(window: seq<Entry>, capacity: nat, e: Entry)
    requires capacity > 0 && !Known(window, e.id)
    ensures Observe(window, capacity, e) == (if |window| < capacity then window else window[1..]) + [e]
  {
  }

  lemma KnownEntry(ids: seq<string>, identities: map<string, Digest>, id: string, digest: Digest)
    requires (forall k | 0 <= k < |ids| :: ids[k] in identities) && L.Distinct(ids) && id in ids
    ensures Known(Entries(ids, identities), id)
    ensures Contradicts(Entries(ids, identities), Entry(id, digest)) <==> identities[id] != digest
  {
    var k :| 0 <= k < |ids| && ids[k] == id;
    assert Entries(ids, identities)[k].id == id;
  }

  lemma UnknownEntry(ids: seq<string>, identities: map<string, Digest>, id: string, digest: Digest)
    requires (forall k | 0 <= k < |ids| :: ids[k] in identities) && id !in ids
    ensures !Known(Entries(ids, identities), id)
    ensures !Contradicts(Entries(ids, identities), Entry(id, digest))
  {
    forall k | 0 <= k < |ids| ensures Entries(ids, identities)[k].id != id {
      assert ids[k] in ids;
    }
  }

  lemma Extended(ids: seq<string>, identities: map<string, Digest>, id: string, digest: Digest)
    requires (forall k | 0 <= k < |ids| :: ids[k] in identities) && id !in ids
    ensures Entries(ids + [id], identities[id := digest]) == Entries(ids, identities) + [Entry(id, digest)]
  {
    assert forall k | 0 <= k < |ids| :: ids[k] in ids;
  }

  lemma Shrunk(ids: seq<string>, identities: map<string, Digest>)
    requires (forall k | 0 <= k < |ids| :: ids[k] in identities) && ids != [] && L.Distinct(ids)
    ensures forall k | 0 <= k < |ids| - 1 :: ids[1..][k] in identities - {ids[0]}
    ensures Entries(ids[1..], identities - {ids[0]}) == Entries(ids, identities)[1..]
  {
  }

  lemma WindowIds(order: seq<string>, next: nat, id: string)
    requires next <= |order| && L.Distinct(order)
    ensures var ids := order[next..] + order[..next];
            && (id in ids <==> id in order)
            && L.Distinct(ids)
  {
    assert order == order[..next] + order[next..];
  }

  lemma Replaced(order: seq<string>, next: nat, id: string)
    requires next < |order| && L.Distinct(order) && id !in order
    ensures L.Distinct(order[next := id])
    ensures forall x :: x in order[next := id] <==> (x in order && x != order[next]) || x == id
  {
    var after := order[next := id];
    forall x ensures x in after <==> (x in order && x != order[next]) || x == id {
      if x in order && x != order[next] {
        var k :| 0 <= k < |order| && order[k] == x;
        assert after[k] == x;
      }
      assert after[next] == id;
    }
  }

  lemma Turned(order: seq<string>, next: nat, id: string)
    requires next < |order|
    ensures order[next := id][next + 1..] + order[next := id][..next + 1] == (order[next..] + order[..next])[1..] + [id]
  {
    var after := order[next := id];
    assert after[next + 1..] == order[next + 1..] && after[..next + 1] == order[..next] + [id];
    assert order[next..][1..] == order[next + 1..];
    assert (order[next..] + order[..next])[1..] == order[next + 1..] + order[..next];
  }

  /** The slot after `k` in a ring of `n` slots. */
  function NextSlot(k: nat, n: nat): (r: nat)
    requires k < n
    ensures r == if k + 1 == n then 0 else k + 1
  {
    (k + 1) % n
  }

  /** Overwriting the oldest slot of a full ring and stepping on drops the oldest and appends the newest. */
  lemma Rotated(order: seq<string>, next: nat, id: string)
    requires next < |order| && L.Distinct(order) && id !in order
    ensures var after, step := order[next := id], NextSlot(next, |order|);
            && after[step..] + after[..step] == (order[next..] + order[..next])[1..] + [id]
            && L.Distinct(after)
            && forall x :: x in after <==> (x in order && x != order[next]) || x == id
  {
    Replaced(order, next, id);
    Turned(order, next, id);
    hide L.Distinct;
    var after := order[next := id];
    if next + 1 == |order| {
      assert after[|order|..] + after[..|order|] == after == after[0..] + after[..0];
    }
  }

  /** A ring that is not full yet grows at its end. */
  lemma Appended(order: seq<string>, identities: map<string, Digest>, id: string, digest: Digest)
    requires RingOf(order, 0, identities) && id !in order
    ensures var after, known := order + [id], identities[id := digest];
            && RingOf(after, 0, known)
            && Entries(after[0..] + after[..0], known)
                 == Entries(order[0..] + order[..0], identities) + [Entry(id, digest)]
  {
    assert order[0..] + order[..0] == order && (order + [id])[0..] + (order + [id])[..0] == order + [id];
    Extended(order, identities, id, digest);
  }

  /** A full ring loses its oldest slot to the new id. */
  lemma Overwritten(order: seq<string>, next: nat, identities: map<string, Digest>, id: string, digest: Digest)
    requires next < |order| && RingOf(order, next, identities) && id !in order
    ensures var after, step, known := order[next := id], NextSlot(next, |order|),
              (identities - {order[next]})[id := digest];
            && step < |order| && RingOf(after, step, known)
            && (forall x :: x in after <==> (x in order && x != order[next]) || x == id)
            && Entries(after[step..] + after[..step], known)
                 == Entries(order[next..] + order[..next], identities)[1..] + [Entry(id, digest)]
  {
    var ids := order[next..] + order[..next];
    WindowIds(order, next, order[next]);
    Rotated(order, next, id);
    assert ids[0] == order[next];
    Shrunk(ids, identities);
    assert forall k | 0 <= k < |ids| :: ids[k] in order;
    Extended(ids[1..], identities - {order[next]}, id, digest);
    var after := order[next := id];
    forall k | 0 <= k < |after| ensures after[k] in (identities - {order[next]})[id := digest] {
      assert after[k] in after;
    }
  }

  // ----- the outside -----

  /**
   The outside, whatever it is, by the number of events so far: the wall clock around a record, what the processor
   answers, whether a write or a commit is acknowledged, and whether the consumer is told to stop.
   */
  datatype Outside = Outside(
    stamps: nat -> Stamps, answers: nat -> ProcessAnswer, acked: nat -> bool, stops: nat -> bool)

  /** What event `k` shows is the outside's doing, not the consumer's own. */
  predicate ToldAt(o: Outside, k: nat, e: Event) {
    match e
    case Fetched(_, at) => at == o.stamps(k)
    case Refused(_, _) => true
    case Processed(_, answer) => answer == o.answers(k)
    case Wrote(_, ok) => ok == o.acked(k)
    case CommitTried(_, ok) => ok == o.acked(k)
  }

  predicate Told(o: Outside, trace: seq<Event>) {
    forall k: nat | k < |trace| :: ToldAt(o, k, trace[k])
  }

  lemma ToldMore(o: Outside, trace: seq<Event>, e: Event)
    requires Told(o, trace) && ToldAt(o, |trace|, e)
    ensures Told(o, trace + [e])
  {
    hide ToldAt;
  }

  lemma AttemptTold(o: Outside, k: nat, b: Boundary)
    ensures ToldAt(o, k, Attempted(b, o.acked(k)))
  {
  }

  /** From position `n` on there are only refused acknowledgements. */
  predicate Failures(trace: seq<Event>, n: nat) {
    forall k | n <= k < |trace| :: (trace[k].Wrote? && !trace[k].ok) || (trace[k].CommitTried? && !trace[k].ok)
  }

  /** An acknowledgement was refused as often as it may be tried, and nothing happened since. */
  predicate GivenUp(trace: seq<Event>, attempts: nat) {
    attempts <= |trace| && Failures(trace, |trace| - attempts)
  }

  /** Why the partition stopped before its records were through. */
  ghost predicate Blocked(o: Outside, trace: seq<Event>, attempts: nat) {
    (exists k: nat :: k <= |trace| && o.stops(k)) || GivenUp(trace, attempts)
  }

  /** What one attempt at a due acknowledgement does to the books. */
  lemma AttemptStep(s: Stats, trace: seq<Event>, n: nat, b: Boundary, ok: bool)
    requires Due(Scan(trace), b) && n <= |trace| && Failures(trace, n)
    ensures Scan(trace + [Attempted(b, ok)])
              == if !ok then Scan(trace) else if b.WriteLetter? then MayCommit(Scan(trace).m) else Idle
    ensures Tally(s, trace + [Attempted(b, ok)]) == Counted(Tally(s, trace), Attempted(b, ok))
    ensures FetchedRecords(trace + [Attempted(b, ok)]) == FetchedRecords(trace)
    ensures Attempts(trace + [Attempted(b, ok)], n) && (!ok ==> Failures(trace + [Attempted(b, ok)], n))
  {
    hide RawLetterFor, UnresolvedLetterFor, Tally, Counted, FetchedRecords;
    TraceStep(trace, Attempted(b, ok));
  }

  lemma AttemptsSoFar(trace: seq<Event>)
    ensures Attempts(trace, |trace|) && Failures(trace, |trace|)
  {
  }

  predicate Taken(fetched: seq<Record>, records: seq<Record>, k: nat) {
    k <= |records| && fetched == records[..k]
  }

  lemma TakenIsPrefix(fetched: seq<Record>, records: seq<Record>, k: nat)
    requires Taken(fetched, records, k)
    ensures fetched <= records && (k == |records| ==> fetched == records)
  {
  }

  lemma TakenNext(fetched: seq<Record>, records: seq<Record>, k: nat)
    requires Taken(fetched, records, k) && k < |records|
    ensures Taken(fetched + [records[k]], records, k + 1)
  {
  }

  lemma TriedOut(o: Outside, trace: seq<Event>, attempts: nat, n: nat)
    requires n + attempts == |trace| && Failures(trace, n)
    ensures Blocked(o, trace, attempts)
  {
  }

  lemma NothingTold(o: Outside)
    ensures Told(o, [])
  {
  }

  lemma StoppedAt(o: Outside, trace: seq<Event>, attempts: nat)
    requires o.stops(|trace|)
    ensures Blocked(o, trace, attempts)
  {
    hide GivenUp;
  }

  // ----- the consumer itself -----

  class Consumer {
    const capacity: nat
    const attempts: nat
    const outside: Outside
    /** How many events there have been. */
    var position: nat
    var identities: map<string, Digest>
    var order: seq<string>
    var next: nat
    var stats: Stats
    var blocked: nat
    ghost var trace: seq<Event>

    /** The map holds exactly the ring's ids; the ring only wraps once it is full. */
    ghost predicate Valid()
      reads this`identities, this`order, this`next
    {
      && 1 <= capacity && |order| <= capacity && 1 <= attempts <= 3
      && L.Distinct(order)
      && (forall id :: id in identities <==> id in order)
      && (if |order| < capacity then next == 0 else next < |order|)
    }

    /** The ring read from its oldest entry on. */
    ghost function Window(): (w: seq<Entry>)
      requires Valid()
      reads this`identities, this`order, this`next
    {
      assert forall k | 0 <= k < |order| :: order[k] in identities;
      Entries(order[next..] + order[..next], identities)
    }

    /** The trace is a legal one, its refusals are right, and the counters count it. */
    ghost predicate Books(s: Stats, w: seq<Entry>)
      requires Valid()
      reads this
    {
      && Accounted(trace) && stats == Tally(s, trace) && Screened(w, capacity, trace)
      && position == |trace| && Told(outside, trace)
    }

    /** The cache is what the fetched records leave in it, starting from `w`. */
    ghost predicate UpToDate(w: seq<Entry>)
      requires Valid()
      reads this`identities, this`order, this`next, this`trace
    {
      Window() == Remember(w, capacity, FetchedRecords(trace))
    }

    /** `m` is fetched last and not yet taken into the cache. */
    ghost predicate JustFetched(m: Record, w: seq<Entry>)
      requires Valid()
      reads this`identities, this`order, this`next, this`trace
    {
      var fetched := FetchedRecords(trace);
      && fetched != [] && fetched[|fetched| - 1] == m
      && Window() == Remember(w, capacity, fetched[..|fetched| - 1])
    }

    constructor (attempts: int, capacity: int, outside: Outside)
      ensures Valid() && Window() == [] && trace == [] && blocked == 0
      ensures stats == Stats(0, 0, 0, 0, 0, 0, 0)
      ensures this.attempts == (if 1 <= attempts <= 3 then attempts else 3)
      ensures this.capacity == (if 1 <= capacity <= 65536 then capacity else 4096)
    {
      this.attempts := if 1 <= attempts <= 3 then attempts else 3;
      this.capacity := if 1 <= capacity <= 65536 then capacity else 4096;
      this.outside := outside;
      identities, order, next, blocked, position, trace := map[], [], 0, 0, 0, [];
      stats := Stats(0, 0, 0, 0, 0, 0, 0);
    }

    /** Whether the task contradicts one still remembered; a new id is remembered, pushing out the oldest. */
    method Conflict(task: PushTask) returns (conflict: bool)
      requires Valid()
      modifies this`identities, this`order, this`next
      ensures Valid()
      ensures var e := Entry(task.taskId, ImmutableDigest(task));
              Window() == Observe(old(Window()), capacity, e) && conflict == Contradicts(old(Window()), e)
    {
      hide Contradicts, Known, ImmutableDigest, Observe;
      var digest := ImmutableDigest(task);
      var id := task.taskId;
      ghost var ids := order[next..] + order[..next];
      WindowIds(order, next, id);
      if id in identities {
        KnownEntry(ids, identities, id, digest);
        ObserveKnown(Window(), capacity, Entry(id, digest));
        return identities[id] != digest;
      }
      UnknownEntry(ids, identities, id, digest);
      ObserveNew(Window(), capacity, Entry(id, digest));
      Insert(id, digest);
      conflict := false;
    }

    /** The ring is not full yet: it grows. */
    method Grow(id: string, digest: Digest)
      requires Valid() && id !in identities && |order| < capacity
      modifies this`identities, this`order
      ensures Valid() && Window() == old(Window()) + [Entry(id, digest)]
    {
      hide Entries;
      Appended(order, identities, id, digest);
      order := order + [id];
      identities := identities[id := digest];
    }

    /** The ring is full: its oldest slot is overwritten. */
    method Overwrite(id: string, digest: Digest)
      requires Valid() && id !in identities && |order| == capacity
      modifies this`identities, this`order, this`next
      ensures Valid() && old(Window()) != [] && Window() == old(Window())[1..] + [Entry(id, digest)]
    {
      hide Entries, NextSlot;
      Overwritten(order, next, identities, id, digest);
      identities := identities - {order[next]};
      order := order[next := id];
      next := NextSlot(next, |order|);
      identities := identities[id := digest];
    }

    /** Remembers a new id. */
    method Insert(id: string, digest: Digest)
      requires Valid() && id !in identities
      modifies this`identities, this`order, this`next
      ensures Valid()
      ensures |old(Window())| == |old(order)|
      ensures Window() == (if |old(order)| < capacity then old(Window()) else old(Window())[1..]) + [Entry(id, digest)]
    {
      if |order| < capacity {
        Grow(id, digest);
      } else {
        Overwrite(id, digest);
      }
    }

    method Note(e: Event)
      requires position == |trace| && Told(outside, trace) && ToldAt(outside, position, e)
      modifies this`trace, this`stats, this`position
      ensures trace == old(trace) + [e] && stats == Counted(old(stats), e)
      ensures position == |trace| && Told(outside, trace)
    {
      ToldMore(outside, trace, e);
      position := position + 1;
      trace := trace + [e];
      stats := Counted(stats, e);
    }

    /** Retries one acknowledgement, and only that; the blocked count is back where it was afterwards. */
    method Ack(b: Boundary, ghost s: Stats) returns (ok: bool)
      requires Valid() && Due(Scan(trace), b) && stats == Tally(s, trace)
      requires position == |trace| && Told(outside, trace)
      modifies this`trace, this`stats, this`blocked, this`position
      ensures old(trace) <= trace && |trace| <= |old(trace)| + attempts
      ensures stats == Tally(s, trace) && blocked == old(blocked) && position == |trace| && Told(outside, trace)
      ensures FetchedRecords(trace) == FetchedRecords(old(trace))
      ensures Attempts(trace, |old(trace)|)
      ensures if ok then Scan(trace) == (if b.WriteLetter? then MayCommit(Scan(old(trace)).m) else Idle)
              else Scan(trace) == Scan(old(trace)) && Blocked(outside, trace, attempts)
    {
      ghost var before := trace;
      AttemptsSoFar(trace);
      hide Told, ToldAt, Scan, Due, Tally, Counted, FetchedRecords, Attempts, Failures, Blocked, Attempted;
      var failing := false;
      ok := false;
      for attempt := 0 to attempts
        invariant !ok && |trace| == |before| + attempt && before <= trace
        invariant stats == Tally(s, trace) && FetchedRecords(trace) == FetchedRecords(before)
        invariant position == |trace| && Told(outside, trace)
        invariant Attempts(trace, |before|) && Failures(trace, |before|)
        invariant Scan(trace) == Scan(before)
        invariant blocked == old(blocked) + if failing then 1 else 0
      {
        if outside.stops(position) {
          StoppedAt(outside, trace, attempts);
          break;
        }
        var fine := outside.acked(position);
        AttemptStep(s, trace, |before|, b, fine);
        AttemptTold(outside, position, b);
        Note(Attempted(b, fine));
        if fine {
          ok := true;
          break;
        }
        if !failing {
          blocked := blocked + 1;
          failing := true;
        }
      }
      if |trace| == |before| + attempts && !ok {
        TriedOut(outside, trace, attempts, |before|);
      }
      if failing {
        blocked := blocked - 1;
      }
    }

    /** Decodes the fetched record and says why it is refused, if it is. */
    method Screen(m: Record, ghost w: seq<Entry>) returns (task: Option<PushTask>, reason: Option<string>)
      requires Valid() && JustFetched(m, w)
      modifies this`identities, this`order, this`next
      ensures Valid() && UpToDate(w)
      ensures task == Decode(m.value) && (reason.None? ==> task.Some?)
      ensures reason == RefusalOf(w, capacity, FetchedRecords(trace))
    {
      RememberStep(w, capacity, FetchedRecords(trace));
      hide Decode, Contradicts, Observe, Remember, FetchedRecords, Window, Valid, ImmutableDigest;
      task := DecodeTask(m.value);
      if task.None? {
        return task, Some("invalid_task");
      }
      var conflict := Conflict(task.value);
      reason := if conflict then Some("immutable_task_conflict") else None;
    }

    /** Records a refusal; the bytes go to the dead-letter topic. */
    method Refuse(m: Record, at: Stamps, reason: string, ghost s: Stats, ghost w: seq<Entry>)
        returns (letter: DeadLetter)
      requires Valid() && Books(s, w) && Scan(trace) == Opened(m, at)
      requires FetchedRecords(trace) != [] && FetchedRecords(trace)[|FetchedRecords(trace)| - 1] == m
      requires RefusalOf(w, capacity, FetchedRecords(trace)) == Some(reason)
      modifies this`trace, this`stats, this`position
      ensures Books(s, w) && FetchedRecords(trace) == FetchedRecords(old(trace))
      ensures Scan(trace) == OwesRaw(m, at, reason) && Due(Scan(trace), WriteLetter(letter))
    {
      assert capacity > 0;
      hide RefusalOf, Screened, Valid, Advance, Due, Counted, Tally, Scan, FetchedRecords, Told;
      letter := RejectedLetter(m, reason, at.first, at.last);
      RefuseStep(w, capacity, trace, m, at, reason);
      LetterDue(m, at, reason);
      TraceStep(trace, Refused(m, reason));
      Note(Refused(m, reason));
    }

    /** Records a processing answer; users left over go to the dead-letter topic with the task. */
    method Judge(m: Record, at: Stamps, task: PushTask, answer: ProcessAnswer, ghost s: Stats, ghost w: seq<Entry>)
        returns (dead: Option<DeadLetter>)
      requires Valid() && Books(s, w) && Scan(trace) == Opened(m, at) && Decode(m.value) == Some(task)
      requires answer == outside.answers(position)
      requires FetchedRecords(trace) != [] && FetchedRecords(trace)[|FetchedRecords(trace)| - 1] == m
      requires RefusalOf(w, capacity, FetchedRecords(trace)) == None
      modifies this`trace, this`stats, this`position
      ensures Books(s, w) && FetchedRecords(trace) == FetchedRecords(old(trace))
      ensures Scan(trace) == if dead.None? then MayCommit(m) else OwesUnresolved(m, at, task, Pending(task, answer))
      ensures dead.Some? ==> Due(Scan(trace), WriteLetter(dead.value))
    {
      assert capacity > 0;
      hide RefusalOf, Screened, Valid, Advance, Due, Counted, Tally, Scan, FetchedRecords, Decode, Pending,
        PendingRecipients, Told;
      ProcessStep(w, capacity, trace, m, at, answer);
      TraceStep(trace, Processed(m, answer));
      Note(Processed(m, answer));
      dead := None;
      var pending := PendingRecipients(answer.results);
      if answer.failed || pending != [] {
        if pending == [] {
          pending := if task.pending.Some? then task.pending.value else task.recipients;
        }
        UnresolvedDue(m, at, task, answer, pending);
        dead := Some(UnresolvedLetter(m, task, pending, at.first, at.last));
      }
    }

    /** Processes the fetched record, unless it is no task or contradicts one still remembered. */
    method Decide(m: Record, at: Stamps, ghost s: Stats, ghost w: seq<Entry>)
        returns (stop: bool, dead: Option<DeadLetter>)
      requires Valid() && Books(s, w) && Scan(trace) == Opened(m, at) && JustFetched(m, w)
      modifies this`identities, this`order, this`next, this`trace, this`stats, this`position
      ensures Valid() && Books(s, w) && UpToDate(w) && FetchedRecords(trace) == FetchedRecords(old(trace))
      ensures if stop then Blocked(outside, trace, attempts) else Ready(Scan(trace), m, dead)
    {
      hide Decode, RefusalOf, Screened, Remember, Window, PendingRecipients, Advance, Due, Tally, Scan, Told, GivenUp;
      var task, reason := Screen(m, w);
      stop, dead := false, None;
      if reason.Some? {
        var letter := Refuse(m, at, reason.value, s, w);
        dead := Some(letter);
      } else {
        stop := outside.stops(position);
        if !stop {
          dead := Judge(m, at, task.value, outside.answers(position), s, w);
        }
      }
    }

    /** Tries one acknowledgement; the books stay in order. */
    method Settle(b: Boundary, ghost s: Stats, ghost w: seq<Entry>) returns (ok: bool)
      requires Valid() && Books(s, w) && Due(Scan(trace), b) && !Scan(trace).Broken?
      modifies this`trace, this`stats, this`blocked, this`position
      ensures Valid() && Books(s, w) && blocked == old(blocked) && FetchedRecords(trace) == FetchedRecords(old(trace))
      ensures if ok then Scan(trace) == (if b.WriteLetter? then MayCommit(Scan(old(trace)).m) else Idle)
              else Blocked(outside, trace, attempts)
    {
      assert capacity > 0;
      hide Screened, Valid, Due, Tally, FetchedRecords, Window, Told, Blocked;
      ghost var calls := trace;
      ok := Ack(b, s);
      ScreenedByAck(w, capacity, calls, trace);
    }

    /** Takes the fetched record through processing to its commit; stops for good at the first boundary that fails. */
    method HandleRecord(m: Record, at: Stamps, ghost s: Stats, ghost w: seq<Entry>) returns (done: bool)
      requires Valid() && Books(s, w) && Scan(trace) == Opened(m, at) && JustFetched(m, w)
      modifies this
      ensures Valid() && Books(s, w) && UpToDate(w)
      ensures if done then Scan(trace) == Idle else Blocked(outside, trace, attempts)
      ensures blocked == old(blocked) && FetchedRecords(trace) == FetchedRecords(old(trace))
    {
      hide Decode, Screened, Remember, Window, Valid, RawLetterFor, UnresolvedLetterFor, Tally, FetchedRecords, Scan,
        Told, GivenUp;
      var stop, dead := Decide(m, at, s, w);
      if stop || outside.stops(position) {
        return false;
      }
      if dead.Some? {
        var written := Settle(WriteLetter(dead.value), s, w);
        if !written {
          return false;
        }
      }
      done := Settle(CommitOffset(m), s, w);
    }

    method Fetch(m: Record, ghost s: Stats, ghost w: seq<Entry>) returns (at: Stamps)
      requires Valid() && Books(s, w) && UpToDate(w) && Scan(trace) == Idle
      modifies this`trace, this`stats, this`position
      ensures Books(s, w) && Scan(trace) == Opened(m, at) && JustFetched(m, w)
      ensures FetchedRecords(trace) == FetchedRecords(old(trace)) + [m]
    {
      assert capacity > 0;
      ghost var before := FetchedRecords(trace);
      hide Screened, Remember, Window, Valid, Advance, Scan, Tally, FetchedRecords, Told;
      at := outside.stamps(position);
      TraceStep(trace, Fetched(m, at));
      FetchOpens(m, at);
      ScreenedStep(w, capacity, trace, Fetched(m, at));
      Note(Fetched(m, at));
      assert (before + [m])[..|before|] == before;
    }

    /** Opens the books: nothing was fetched or told yet. */
    method Begin(ghost s: Stats, ghost w: seq<Entry>)
      requires Valid() && s == stats && w == Window()
      modifies this`trace, this`position
      ensures Books(s, w) && UpToDate(w) && Scan(trace) == Idle && FetchedRecords(trace) == []
    {
      assert capacity > 0;
      NothingYet(s, w, capacity);
      NothingTold(outside);
      hide Screened, Remember, Window, Valid, Tally, FetchedRecords, Told;
      trace, position := [], 0;
    }

    lemma StoppedHere(s: Stats, w: seq<Entry>)
      requires Valid() && Books(s, w) && outside.stops(position)
      ensures Blocked(outside, trace, attempts)
    {
      StoppedAt(outside, trace, attempts);
    }

    /** Fetches one record and takes it through its commit, unless the loop is told to stop first. */
    method HandleNext(m: Record, ghost s: Stats, ghost w: seq<Entry>) returns (done: bool)
      requires Valid() && Books(s, w) && UpToDate(w) && Scan(trace) == Idle
      modifies this
      ensures Valid() && Books(s, w) && UpToDate(w) && blocked == old(blocked)
      ensures if done then Scan(trace) == Idle else Blocked(outside, trace, attempts)
      ensures FetchedRecords(trace) == FetchedRecords(old(trace)) + [m] ||
              (!done && FetchedRecords(trace) == FetchedRecords(old(trace)))
    {
      hide Books, Window, Valid, Scan, UpToDate, FetchedRecords, Blocked;
      if outside.stops(position) {
        StoppedHere(s, w);
        return false;
      }
      var at := Fetch(m, s, w);
      done := HandleRecord(m, at, s, w);
    }

    /**
     The partition loop over any finite run of fetches. It takes every record through its commit in order, unless it is
     told to stop or an acknowledgement fails as often as it may be tried.
     */
    method RunPartition(records: seq<Record>)
      requires Valid()
      modifies this
      ensures Valid() && blocked == old(blocked) && FetchedRecords(trace) <= records
      ensures Books(old(stats), old(Window())) && UpToDate(old(Window()))
      ensures (FetchedRecords(trace) == records && Scan(trace) == Idle) || Blocked(outside, trace, attempts)
    {
      ghost var s, w := stats, Window();
      hide *;
      Begin(s, w);
      for k := 0 to |records|
        invariant Valid() && Scan(trace) == Idle && blocked == old(blocked)
        invariant Taken(FetchedRecords(trace), records, k)
        invariant Books(s, w) && UpToDate(w)
      {
        TakenNext(FetchedRecords(trace), records, k);
        ghost var before := FetchedRecords(trace);
        var done := HandleNext(records[k], s, w);
        if !done {
          TakenIsPrefix(FetchedRecords(trace), records, if FetchedRecords(trace) == before then k else k + 1);
          return;
        }
      }
      TakenIsPrefix(FetchedRecords(trace), records, |records|);
    }
  }
}
