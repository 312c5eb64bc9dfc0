/**
 The connections of one Comet process. A single loop owns them and serves one command at a time; only the writers of
 the connections run beside it, and all they do is take messages from the front of their queues.
 */
module CometHub {
  import opened Wrappers
  import opened Identifiers
  import opened Decimal
  import P = PushTasks
  import L = LeaseScript

  const DEFAULT_QUEUE := 256
  const MAX_TARGETS := 100
  const MAX_DRAIN := 30_000_000_000  // nanoseconds

  datatype Error = Invalid | Draining | Closed

  datatype Outcome = NotFound | DrainOver | Stale | Enqueued | QueueFull

  datatype Removal = Deleted | NotCurrent | Missing

  // ----- what one delivery does, on values -----

  /** What delivery looks at in a connection. */
  datatype Client = Client(identity: L.Tuple, pending: bool)

  /** One target's turn: `over` says that the drain deadline has passed by then, `room` that the queue is not full. */
  datatype Turn = Turn(id: L.Tuple, over: bool, room: bool)

  function Verdict(clients: map<string, Client>, turn: Turn): Outcome {
    var user := turn.id.user;
    if turn.over then DrainOver
    else if user !in clients || clients[user].pending then NotFound
    else if clients[user].identity != turn.id then Stale
    else if turn.room then Enqueued
    else QueueFull
  }

  /** The connections left after these turns: only a full queue costs a connection its place. */
  function Left(clients: map<string, Client>, turns: seq<Turn>): map<string, Client> {
    if turns == [] then clients
    else
      var last := turns[|turns| - 1];
      var before := Left(clients, turns[..|turns| - 1]);
      if Verdict(before, last) == QueueFull then before - {last.id.user} else before
  }

  /** The outcome of turn `k`. */
  function OutcomeAt(clients: map<string, Client>, turns: seq<Turn>, k: nat): Outcome
    requires k < |turns|
  {
    Verdict(Left(clients, turns[..k]), turns[k])
  }

  /** The user's connection had a full queue at one of the first `k` turns. */
  predicate Evicted(clients: map<string, Client>, turns: seq<Turn>, k: nat, user: string)
    requires k <= |turns|
  {
    exists j :: 0 <= j < k && turns[j].id.user == user && OutcomeAt(clients, turns, j) == QueueFull
  }

  lemma EvictedStep(clients: map<string, Client>, turns: seq<Turn>, k: nat, user: string)
    requires 0 < k <= |turns|
    ensures Evicted(clients, turns, k, user)
       <==> Evicted(clients, turns, k - 1, user)
            || (user == turns[k - 1].id.user && OutcomeAt(clients, turns, k - 1) == QueueFull)
  {
    hide OutcomeAt;
  }

  /** Nobody joins and nobody changes during a delivery; those missing had a full queue. */
  lemma {:induction false} LeftShrinks(clients: map<string, Client>, turns: seq<Turn>, k: nat)
    requires k <= |turns|
    ensures var left := Left(clients, turns[..k]);
            && left.Keys <= clients.Keys
            && (forall u | u in left :: left[u] == clients[u])
            && forall u | u in clients :: u !in left <==> Evicted(clients, turns, k, u)
    decreases k
  {
    if k > 0 {
      LeftShrinks(clients, turns, k - 1);
      assert turns[..k][..k - 1] == turns[..k - 1];
      forall u | u in clients ensures u !in Left(clients, turns[..k]) <==> Evicted(clients, turns, k, u) {
        EvictedStep(clients, turns, k, u);
      }
    }
  }

  /** The outcomes are those of the turns, in order. */
  predicate Follow(clients: map<string, Client>, turns: seq<Turn>, outcomes: seq<Outcome>) {
    |turns| == |outcomes| && forall k | 0 <= k < |turns| :: outcomes[k] == OutcomeAt(clients, turns, k)
  }

  lemma OneMoreTurn(clients: map<string, Client>, turns: seq<Turn>, outcomes: seq<Outcome>, turn: Turn,
                    outcome: Outcome)
    requires Follow(clients, turns, outcomes) && outcome == Verdict(Left(clients, turns), turn)
    ensures Follow(clients, turns + [turn], outcomes + [outcome])
    ensures Left(clients, turns + [turn]) ==
              if outcome == QueueFull then Left(clients, turns) - {turn.id.user} else Left(clients, turns)
  {
    hide Verdict;
    var more, results := turns + [turn], outcomes + [outcome];
    assert more[..|turns|] == turns;
    forall k | 0 <= k < |more| ensures results[k] == OutcomeAt(clients, more, k) {
      if k < |turns| {
        assert more[..k] == turns[..k] && outcomes[k] == OutcomeAt(clients, turns, k);
      }
    }
  }

  predicate DistinctTargets(turns: seq<Turn>) {
    forall i, j | 0 <= i < j < |turns| :: turns[i].id != turns[j].id
  }

  /** Reached, with or without room: the target names the user's active connection, as it was at the start. */
  lemma ReachedMeans(clients: map<string, Client>, turns: seq<Turn>, k: nat)
    requires k < |turns| && OutcomeAt(clients, turns, k) in {Enqueued, QueueFull}
    ensures var id := turns[k].id; !turns[k].over && id.user in clients && clients[id.user] == Client(id, false)
  {
    LeftShrinks(clients, turns, k);
  }

  /** Among distinct targets no user gets the message twice, however many connections are named for that user. */
  lemma AtMostOnce(clients: map<string, Client>, turns: seq<Turn>, i: nat, j: nat)
    requires i < j < |turns| && DistinctTargets(turns)
    requires OutcomeAt(clients, turns, i) in {Enqueued, QueueFull}
               && OutcomeAt(clients, turns, j) in {Enqueued, QueueFull}
    ensures turns[i].id.user != turns[j].id.user
  {
    ReachedMeans(clients, turns, i);
    ReachedMeans(clients, turns, j);
  }

  /** Nobody but the connection itself can take its place away before its turn. */
  lemma StillThere(clients: map<string, Client>, turns: seq<Turn>, k: nat)
    requires k < |turns| && DistinctTargets(turns)
    requires var id := turns[k].id; id.user in clients && clients[id.user] == Client(id, false)
    ensures turns[k].id.user in Left(clients, turns[..k])
  {
    LeftShrinks(clients, turns, k);
    if Evicted(clients, turns, k, turns[k].id.user) {
      var j :| 0 <= j < k && turns[j].id.user == turns[k].id.user && OutcomeAt(clients, turns, j) == QueueFull;
      ReachedMeans(clients, turns, j);
      assert false;
    }
  }

  /** Each outcome says exactly what the caller may conclude about the connections at the start of the delivery. */
  lemma OutcomeMeaning(clients: map<string, Client>, turns: seq<Turn>, k: nat)
    requires k < |turns| && DistinctTargets(turns)
    ensures var outcome, turn, user := OutcomeAt(clients, turns, k), turns[k], turns[k].id.user;
            && (outcome == DrainOver <==> turn.over)
            && (outcome in {Enqueued, QueueFull} <==>
                  !turn.over && user in clients && clients[user] == Client(turn.id, false))
            && (outcome == Enqueued ==> turn.room) && (outcome == QueueFull ==> !turn.room)
            && (outcome == Stale <==> && !turn.over && user in clients && !clients[user].pending
                                      && clients[user].identity != turn.id && !Evicted(clients, turns, k, user))
  {
    hide Evicted;
    LeftShrinks(clients, turns, k);
    var id := turns[k].id;
    if id.user in clients && clients[id.user] == Client(id, false) {
      StillThere(clients, turns, k);
    }
  }

  // ----- what a delivery request must look like -----

  predicate ChunkText(s: string) {
    && s != "" && (forall c | c in s :: IsDigit(c))
    && ParseDigits(s) < 0x1_0000_0000 && FormatNat(ParseDigits(s)) == s
  }

  predicate ValidTaskId(taskId: string, message: P.Message) {
    var prefix := "push:v1:" + message.messageId + ":";
    prefix <= taskId && ChunkText(taskId[|prefix|..])
  }

  /** The test accepts exactly the ids that the push side gives to the chunks of this message. */
  lemma ValidTaskIdMeaning(taskId: string, message: P.Message)
    ensures ValidTaskId(taskId, message) <==> exists n: P.Uint32 :: taskId == P.TaskId(message.messageId, n)
  {
    var prefix := "push:v1:" + message.messageId + ":";
    if ValidTaskId(taskId, message) {
      assert taskId == prefix + taskId[|prefix|..];
      var n: P.Uint32 := ParseDigits(taskId[|prefix|..]);
      assert taskId == P.TaskId(message.messageId, n);
    }
    if n: P.Uint32 :| taskId == P.TaskId(message.messageId, n) {
      ParseFormatNat(n);
      assert taskId[|prefix|..] == FormatNat(n);
    }
  }

  predicate ValidIdentity(id: L.Tuple, instance: string) {
    L.ValidConnection(id) && id.instance == instance
  }

  predicate ValidDelivery(taskId: string, message: P.Message, targets: seq<L.Tuple>, instance: string) {
    && P.ValidMessage(message) && ValidTaskId(taskId, message)
    && 1 <= |targets| <= MAX_TARGETS
    && (forall id | id in targets :: ValidIdentity(id, instance))
    && L.Distinct(targets)
  }

  method CheckDelivery(taskId: string, message: P.Message, targets: seq<L.Tuple>, instance: string) returns (ok: bool)
    ensures ok <==> ValidDelivery(taskId, message, targets, instance)
  {
    hide P.ValidMessage, ValidTaskId, ValidIdentity;
    if !P.ValidMessage(message) || !ValidTaskId(taskId, message) || |targets| == 0 || |targets| > MAX_TARGETS {
      return false;
    }
    var seen: set<L.Tuple> := {};
    for i := 0 to |targets|
      invariant forall k | 0 <= k < i :: ValidIdentity(targets[k], instance)
      invariant forall j, k | 0 <= j < k < i :: targets[j] != targets[k]
      invariant seen == set k | 0 <= k < i :: targets[k]
    {
      if !ValidIdentity(targets[i], instance) || targets[i] in seen {
        assert targets[i] in targets;
        return false;
      }
      seen := seen + {targets[i]};
    }
    ok := true;
  }

  // ----- the owner loop's state -----

  /** What one target's turn finds: the clock, and how many messages the connection's writer has taken by then. */
  datatype Moment = Moment(now: int, taken: nat)

  /** What is left of a queue once its writer has taken so many from the front. */
  function Rest(queue: seq<P.Message>, taken: nat): seq<P.Message> {
    if taken <= |queue| then queue[taken..] else []
  }

  predicate HasRoom(queue: seq<P.Message>, taken: nat, capacity: nat) {
    |queue| < taken + capacity
  }

  function CountOf(outcomes: seq<Outcome>, o: Outcome): nat {
    if outcomes == [] then 0
    else CountOf(outcomes[..|outcomes| - 1], o) + (if outcomes[|outcomes| - 1] == o then 1 else 0)
  }

  lemma CountMore(outcomes: seq<Outcome>, last: Outcome, o: Outcome)
    ensures CountOf(outcomes + [last], o) == CountOf(outcomes, o) + (if last == o then 1 else 0)
  {
    assert (outcomes + [last])[..|outcomes|] == outcomes;
  }

  predicate Extends(earlier: seq<P.Message>, later: seq<P.Message>) {
    earlier <= later
  }

  lemma ExtendedBy(earlier: seq<P.Message>, more: seq<P.Message>)
    ensures Extends(earlier, earlier + more)
    ensures earlier + [] == earlier && Extends(earlier, earlier)
  {
  }

  /** One registered connection. Its writer takes messages from the front of `outbound` whenever it likes. */
  class Connection {
    const identity: L.Tuple
    const capacity: nat
    var pending: bool
    var outbound: seq<P.Message>
    var done: bool
    var slowClosed: bool
    /** Everything ever put into the queue. */
    ghost var accepted: seq<P.Message>

    constructor (identity: L.Tuple, capacity: nat, pending: bool)
      ensures this.identity == identity && this.capacity == capacity && this.pending == pending
      ensures outbound == [] && accepted == [] && !done && !slowClosed && Sound()
    {
      this.identity, this.capacity, this.pending := identity, capacity, pending;
      outbound, accepted, done, slowClosed := [], [], false, false;
    }

    /**
     The queue holds the latest part of what was accepted, within its capacity; nothing reaches a pending connection.
     */
    ghost predicate Sound()
      reads this`pending, this`outbound, this`accepted
    {
      && |outbound| <= capacity && |outbound| <= |accepted| && accepted[|accepted| - |outbound|..] == outbound
      && (pending ==> accepted == [])
    }

    /** What no step takes back from a connection. */
    twostate predicate Kept()
      reads this
    {
      && (old(done) ==> done) && (old(!pending) ==> !pending)
      && (accepted == old(accepted) || Extends(old(accepted), accepted))
    }

    /** Closing a closed channel would panic, so this may happen once only. */
    method Close()
      requires !done
      modifies this`done
      ensures done
    {
      done := true;
    }

    /** Returns whether this was the first time. */
    method MarkSlow() returns (first: bool)
      modifies this`slowClosed
      ensures slowClosed && first == !old(slowClosed)
    {
      first := !slowClosed;
      slowClosed := true;
    }

    /** Without waiting: the message is put into the queue if there is room once the writer has taken what it takes. */
    method Offer(message: P.Message, taken: nat) returns (room: bool)
      requires Sound() && !pending && capacity > 0
      modifies this`outbound, this`accepted
      ensures Sound() && (room <==> HasRoom(old(outbound), taken, capacity))
      ensures accepted == if room then old(accepted) + [message] else old(accepted)
      ensures outbound == Rest(old(outbound), taken) + if room then [message] else []
    {
      outbound := Rest(outbound, taken);
      assert accepted[|accepted| - |outbound|..] == outbound by {
        assert old(accepted)[|old(accepted)| - |old(outbound)|..] == old(outbound);
      }
      room := |outbound| < capacity;
      if room {
        outbound := outbound + [message];
        accepted := accepted + [message];
        assert accepted[|accepted| - |outbound|..] == outbound;
      } else {
        assert outbound + [] == outbound;
      }
    }
  }

  // ----- the queues -----

  /** What a delivery may change of a connection that stays. */
  datatype Look = Look(outbound: seq<P.Message>, accepted: seq<P.Message>)

  /** A connection at its turn: the writer's share gone, and the message at the end if there is room. */
  predicate OneTurn(before: Look, after: Look, message: P.Message, room: bool, taken: nat, size: nat) {
    && (room <==> HasRoom(before.outbound, taken, size))
    && after.outbound == Rest(before.outbound, taken) + (if room then [message] else [])
    && after.accepted == before.accepted + (if room then [message] else [])
  }

  /** The turn reached its target, with or without room, and this is the connection. */
  predicate IsReached(clients: map<string, Connection>, turn: Turn, outcome: Outcome, c: Connection) {
    && outcome in {Enqueued, QueueFull}
    && turn.id.user in clients && clients[turn.id.user] == c && c.identity == turn.id
  }

  /** What became of the connections: those reached as their moment had them, the others not at all. */
  ghost predicate LooksAfter(clients: map<string, Connection>, before: map<Connection, Look>,
                             after: map<Connection, Look>, size: nat, message: P.Message, outcomes: seq<Outcome>,
                             turns: seq<Turn>, moments: nat -> Moment) {
    && |turns| == |outcomes| && after.Keys == before.Keys
    && (forall k: nat, c | k < |turns| && c in before && IsReached(clients, turns[k], outcomes[k], c) ::
          OneTurn(before[c], after[c], message, turns[k].room, moments(k).taken, size))
    && (forall c | c in before && (forall k: nat | k < |turns| :: !IsReached(clients, turns[k], outcomes[k], c)) ::
          after[c] == before[c])
  }

  lemma NoLooks(clients: map<string, Connection>, looks: map<Connection, Look>, size: nat, message: P.Message,
                moments: nat -> Moment)
    ensures LooksAfter(clients, looks, looks, size, message, [], [], moments)
  {
  }

  /** The connections in the map are some of those there were at the start. */
  predicate Fewer(now: map<string, Connection>, start: map<string, Connection>) {
    forall u | u in now :: u in start && now[u] == start[u]
  }

  lemma ReachedOnce(start: map<string, Connection>, now: map<string, Connection>, targets: seq<L.Tuple>,
                    turns: seq<Turn>, outcomes: seq<Outcome>, turn: Turn, outcome: Outcome, c: Connection)
    requires L.Distinct(targets) && |turns| == |outcomes| < |targets| && turn.id == targets[|turns|]
    requires forall j | 0 <= j < |turns| :: turns[j].id == targets[j]
    requires Fewer(now, start) && (outcome in {Enqueued, QueueFull} ==> turn.id.user in now)
    ensures IsReached(start, turn, outcome, c) <==> IsReached(now, turn, outcome, c)
    ensures IsReached(start, turn, outcome, c) ==>
              forall j: nat | j < |turns| :: !IsReached(start, turns[j], outcomes[j], c)
  {
  }

  lemma LooksNext(start: map<string, Connection>, now: map<string, Connection>, before: map<Connection, Look>,
                  middle: map<Connection, Look>, after: map<Connection, Look>, size: nat, message: P.Message,
                  targets: seq<L.Tuple>, outcomes: seq<Outcome>, turns: seq<Turn>, moments: nat -> Moment,
                  outcome: Outcome, turn: Turn)
    requires LooksAfter(start, before, middle, size, message, outcomes, turns, moments) && after.Keys == middle.Keys
    requires L.Distinct(targets) && |turns| == |outcomes| < |targets| && turn.id == targets[|turns|]
    requires forall j | 0 <= j < |turns| :: turns[j].id == targets[j]
    requires Fewer(now, start) && (outcome in {Enqueued, QueueFull} ==> turn.id.user in now)
    requires forall c | c in middle ::
               if IsReached(now, turn, outcome, c)
               then OneTurn(middle[c], after[c], message, turn.room, moments(|turns|).taken, size)
               else after[c] == middle[c]
    ensures LooksAfter(start, before, after, size, message, outcomes + [outcome], turns + [turn], moments)
  {
    var more, results := turns + [turn], outcomes + [outcome];
    forall c ensures IsReached(start, turn, outcome, c) <==> IsReached(now, turn, outcome, c)
      ensures IsReached(start, turn, outcome, c) ==>
                forall j: nat | j < |turns| :: !IsReached(start, turns[j], outcomes[j], c)
    {
      ReachedOnce(start, now, targets, turns, outcomes, turn, outcome, c);
    }
    hide IsReached, OneTurn;
    forall k: nat, c | k < |more| && c in before && IsReached(start, more[k], results[k], c)
      ensures OneTurn(before[c], after[c], message, more[k].room, moments(k).taken, size)
    {
      if k < |turns| {
        assert IsReached(start, turns[k], outcomes[k], c);
      }
    }
    forall c | c in before && forall k: nat | k < |more| :: !IsReached(start, more[k], results[k], c)
      ensures after[c] == before[c]
    {
      assert !IsReached(start, more[|turns|], results[|turns|], c);
      forall k: nat | k < |turns| ensures !IsReached(start, turns[k], outcomes[k], c) {
        assert !IsReached(start, more[k], results[k], c);
      }
    }
  }

  lemma LooksExtend(start: map<string, Connection>, before: map<Connection, Look>, after: map<Connection, Look>,
                    size: nat, message: P.Message, outcomes: seq<Outcome>, turns: seq<Turn>, moments: nat -> Moment)
    requires LooksAfter(start, before, after, size, message, outcomes, turns, moments)
    ensures forall c | c in before :: Extends(before[c].accepted, after[c].accepted)
  {
    hide IsReached, HasRoom, Rest;
    forall c | c in before ensures Extends(before[c].accepted, after[c].accepted) {
      if k: nat :| k < |turns| && IsReached(start, turns[k], outcomes[k], c) {
        assert OneTurn(before[c], after[c], message, turns[k].room, moments(k).taken, size);
      }
    }
  }

  datatype Op =
    | Register(id: L.Tuple, pending: bool)
    | Unregister(id: L.Tuple)
    | Deliver(taskId: string, message: P.Message, targets: seq<L.Tuple>, moments: nat -> Moment)
    | Drain(newDeadline: int, now: int)
    | Activate(c: Connection)

  /**
   What the loop may receive next: the order to stop, the drain timer, or a command whose caller may have given up.
   */
  datatype Event = Shutdown | TimerFired | Command(cancelled: bool, op: Op)

  // ----- what a served event shows -----

  /** What a command's caller is told. */
  datatype Result =
    | Registered(refusal: Option<Error>, c: Connection?)
    | Unregistered(removal: Option<Removal>)
    | Answered(outcomes: Option<seq<Outcome>>, turns: seq<Turn>)
    | Drained(drain: Option<(int, bool, nat)>)
    | Activated(refusal: Option<Error>)
    | Nothing

  /** The hub at one moment. */
  datatype Snap = Snap(
    clients: map<string, Connection>, views: map<string, Client>, created: set<Connection>,
    looks: map<Connection, Look>, pending: map<Connection, bool>, draining: bool, deadline: int, timerSet: bool,
    stopped: bool, fired: bool, staleTargets: nat, queueFull: nat)

  /** Nothing but the map of connections is different, and no queue. */
  predicate OnlyClients(b: Snap, a: Snap) {
    && a.draining == b.draining && a.deadline == b.deadline && a.timerSet == b.timerSet
    && a.stopped == b.stopped && a.fired == b.fired
    && b.looks.Keys <= a.looks.Keys && b.pending.Keys <= a.pending.Keys
    && (forall c | c in b.looks :: a.looks[c] == b.looks[c])
    && (forall c | c in b.pending :: a.pending[c] == b.pending[c])
  }

  ghost predicate DidRegister(instance: string, id: L.Tuple, pending: bool, r: Result, b: Snap, a: Snap) {
    && r.Registered? && OnlyClients(b, a)
    && r.refusal == (if !ValidIdentity(id, instance) then Some(Invalid)
                     else if b.draining then Some(Draining) else None)
    && (r.refusal.Some? ==> r.c == null && a.clients == b.clients && a.created == b.created)
    && (r.refusal.None? ==>
          && r.c != null && r.c.identity == id && a.clients == b.clients[id.user := r.c]
          && if id.user in b.clients && b.clients[id.user].identity == id
             then r.c == b.clients[id.user] && a.created == b.created
             else
               && r.c !in b.created && a.created == b.created + {r.c}
               && r.c in a.looks && a.looks[r.c].accepted == [] && r.c in a.pending && a.pending[r.c] == pending)
  }

  ghost predicate DidUnregister(instance: string, id: L.Tuple, r: Result, b: Snap, a: Snap) {
    && r.Unregistered? && OnlyClients(b, a) && a.created == b.created
    && r.removal == (if !ValidIdentity(id, instance) then None
                     else if id.user !in b.clients then Some(Missing)
                     else if b.clients[id.user].identity != id then Some(NotCurrent)
                     else Some(Deleted))
    && a.clients == if r.removal == Some(Deleted) then b.clients - {id.user} else b.clients
  }

  /**
   The outcomes answer the targets in order, each by the clock and the queue at its own moment, and nothing else
   happened.
   */
  ghost predicate Served(size: nat, message: P.Message, moments: nat -> Moment, outcomes: seq<Outcome>,
                         turns: seq<Turn>, b: Snap, a: Snap) {
    && a.created == b.created && a.pending == b.pending && a.draining == b.draining
    && a.deadline == b.deadline && a.timerSet == b.timerSet && a.stopped == b.stopped && a.fired == b.fired
    && |outcomes| == |turns|
    && (forall k: nat | k < |turns| :: turns[k].over <==> b.draining && b.deadline <= moments(k).now)
    && Follow(b.views, turns, outcomes) && a.views == Left(b.views, turns)
    && LooksAfter(b.clients, b.looks, a.looks, size, message, outcomes, turns, moments)
    && a.staleTargets == b.staleTargets + CountOf(outcomes, Stale)
    && a.queueFull == b.queueFull + CountOf(outcomes, QueueFull)
  }

  lemma NothingServed(size: nat, message: P.Message, moments: nat -> Moment, b: Snap)
    ensures Served(size, message, moments, [], [], b, b)
  {
    NoTurns(b.views);
    NoLooks(b.clients, b.looks, size, message, moments);
  }

  lemma ServedNext(size: nat, message: P.Message, moments: nat -> Moment, targets: seq<L.Tuple>,
                   outcomes: seq<Outcome>, turns: seq<Turn>, b: Snap, m: Snap, a: Snap, outcome: Outcome, turn: Turn)
    requires Served(size, message, moments, outcomes, turns, b, m) && a.looks.Keys == m.looks.Keys
    requires L.Distinct(targets) && |turns| == |outcomes| < |targets| && turn.id == targets[|turns|]
    requires forall j | 0 <= j < |turns| :: turns[j].id == targets[j]
    requires a.created == m.created && a.pending == m.pending && a.draining == m.draining
    requires a.deadline == m.deadline && a.timerSet == m.timerSet && a.stopped == m.stopped && a.fired == m.fired
    requires turn.over <==> m.draining && m.deadline <= moments(|turns|).now
    requires outcome == Verdict(m.views, turn)
    requires a.views == if outcome == QueueFull then m.views - {turn.id.user} else m.views
    requires Fewer(m.clients, b.clients) && (outcome in {Enqueued, QueueFull} ==> turn.id.user in m.clients)
    requires forall c | c in m.looks ::
               if IsReached(m.clients, turn, outcome, c)
               then OneTurn(m.looks[c], a.looks[c], message, turn.room, moments(|turns|).taken, size)
               else a.looks[c] == m.looks[c]
    requires a.staleTargets == m.staleTargets + (if outcome == Stale then 1 else 0)
    requires a.queueFull == m.queueFull + (if outcome == QueueFull then 1 else 0)
    ensures Served(size, message, moments, outcomes + [outcome], turns + [turn], b, a)
  {
    hide Verdict, Left, Follow, LooksAfter, IsReached, OneTurn, Fewer, CountOf, L.Distinct;
    OneMoreTurn(b.views, turns, outcomes, turn, outcome);
    CountMore(outcomes, outcome, Stale);
    CountMore(outcomes, outcome, QueueFull);
    LooksNext(b.clients, m.clients, b.looks, m.looks, a.looks, size, message, targets, outcomes, turns, moments,
              outcome, turn);
    assert forall k: nat | k < |turns| :: (turns + [turn])[k] == turns[k];
  }

  lemma ServedExtends(size: nat, message: P.Message, moments: nat -> Moment, outcomes: seq<Outcome>, turns: seq<Turn>,
                      b: Snap, a: Snap)
    requires Served(size, message, moments, outcomes, turns, b, a)
    ensures a.looks.Keys == b.looks.Keys
    ensures forall c | c in b.looks :: Extends(b.looks[c].accepted, a.looks[c].accepted)
  {
    hide Follow, Left, CountOf;
    LooksExtend(b.clients, b.looks, a.looks, size, message, outcomes, turns, moments);
  }

  ghost predicate DidDeliver(instance: string, size: nat, taskId: string, message: P.Message, targets: seq<L.Tuple>,
                             moments: nat -> Moment, r: Result, b: Snap, a: Snap) {
    && r.Answered? && (r.outcomes.None? <==> !ValidDelivery(taskId, message, targets, instance))
    && (r.outcomes.None? ==> a == b)
    && (r.outcomes.Some? ==>
          && |r.outcomes.value| == |r.turns| == |targets|
          && (forall k: nat | k < |targets| :: r.turns[k].id == targets[k])
          && Served(size, message, moments, r.outcomes.value, r.turns, b, a))
  }

  ghost predicate DidDrain(newDeadline: int, now: int, r: Result, b: Snap, a: Snap) {
    && r.Drained? && a.clients == b.clients && a.created == b.created && a.looks == b.looks && a.pending == b.pending
    && a.stopped == b.stopped && a.fired == b.fired
    && (r.drain.None? <==> newDeadline <= now || newDeadline > now + 30_000_000_000)
    && (r.drain.None? ==> a.draining == b.draining && a.deadline == b.deadline && a.timerSet == b.timerSet)
    && (r.drain.Some? ==>
          && a.draining && r.drain.value == (a.deadline, b.draining, |b.clients|)
          && a.deadline == (if b.draining && b.deadline <= newDeadline then b.deadline else newDeadline)
          && (a.timerSet <==> b.timerSet || !b.draining || newDeadline < b.deadline))
  }

  ghost predicate DidActivate(c: Connection, r: Result, b: Snap, a: Snap) {
    && r.Activated? && a.clients == b.clients && a.created == b.created && a.looks == b.looks
    && a.draining == b.draining && a.deadline == b.deadline && a.timerSet == b.timerSet
    && a.stopped == b.stopped && a.fired == b.fired && a.pending.Keys == b.pending.Keys
    && r.refusal == (if b.draining then Some(Draining)
                     else if c.identity.user !in b.clients || b.clients[c.identity.user] != c then Some(Closed)
                     else None)
    && forall d | d in b.pending :: a.pending[d] == if r.refusal.None? && d == c then false else b.pending[d]
  }

  /** The operation was performed, and the caller told what it did. */
  ghost predicate Did(instance: string, size: nat, op: Op, r: Result, b: Snap, a: Snap) {
    match op
    case Register(id, pending) => DidRegister(instance, id, pending, r, b, a)
    case Unregister(id) => DidUnregister(instance, id, r, b, a)
    case Deliver(taskId, message, targets, moments) =>
      DidDeliver(instance, size, taskId, message, targets, moments, r, b, a)
    case Drain(newDeadline, now) => DidDrain(newDeadline, now, r, b, a)
    case Activate(c) => DidActivate(c, r, b, a)
  }

  /** What the loop makes of what it receives: a command whose caller gave up, or a timer not set, changes nothing. */
  ghost predicate Took(instance: string, size: nat, e: Event, r: Result, b: Snap, a: Snap) {
    match e
    case Shutdown => a.stopped && a.clients == map[] && a.created == b.created && a.looks == b.looks
    case TimerFired =>
      if b.timerSet then a.fired && !a.timerSet && a.clients == map[] && a.created == b.created && a.looks == b.looks
      else a == b
    case Command(cancelled, op) => if cancelled then a == b else Did(instance, size, op, r, b, a)
  }

  /** The events so far were taken one after the other, each where the one before had left the hub. */
  ghost predicate Course(instance: string, size: nat, events: seq<Event>, results: seq<Result>, states: seq<Snap>) {
    && |results| <= |events| && |states| == |results| + 1
    && forall k | 0 <= k < |results| :: Took(instance, size, events[k], results[k], states[k], states[k + 1])
  }

  lemma CourseNext(instance: string, size: nat, events: seq<Event>, results: seq<Result>, states: seq<Snap>, r: Result,
                   a: Snap)
    requires Course(instance, size, events, results, states) && |results| < |events|
    requires Took(instance, size, events[|results|], r, states[|results|], a)
    ensures Course(instance, size, events, results + [r], states + [a])
    ensures (states + [a])[0] == states[0] && (states + [a])[|results| + 1] == a
  {
    hide Took;
  }

  class Hub {
    const instance: string
    const queueSize: nat
    var clients: map<string, Connection>
    var draining: bool
    var deadline: int
    /** The drain timer is set and has not fired. */
    var timerSet: bool
    var stopped: bool
    var staleTargets: nat
    var queueFull: nat
    var slowCloses: nat
    /** Every connection this hub ever registered, and whether the drain timer has ever fired. */
    ghost var created: set<Connection>
    ghost var fired: bool

    /** The connection stands in the map, under its own user. */
    predicate Present(c: Connection)
      reads this`clients
    {
      c.identity.user in clients && clients[c.identity.user] == c
    }

    /** Its channel is closed exactly when it has left the map. */
    ghost predicate Placed(c: Connection)
      reads this`clients, c
    {
      && (c.done <==> !Present(c))
      && c.Sound() && c.identity.instance == instance && c.capacity == queueSize
    }

    ghost predicate Valid()
      reads this, created
    {
      && (forall u | u in clients :: clients[u] in created && clients[u].identity.user == u)
      && (forall c | c in created :: Placed(c))
      && (fired ==> draining && clients == map[])
      && (stopped ==> clients == map[])
      && (timerSet ==> draining) && queueSize > 0
    }

    /** What no step takes back; once draining, nobody joins, nobody is activated and the deadline only comes closer. */
    twostate predicate Onward()
      reads this, created
    {
      && old(created) <= created
      && (forall c | c in old(created) :: c.Kept())
      && (old(draining) ==> draining && deadline <= old(deadline) && created == old(created))
      && (old(draining) ==> forall c | c in created :: c.pending == old(c.pending))
      && (old(fired) ==> fired) && (old(stopped) ==> stopped)
    }

    /** What delivery looks at. */
    ghost function Clients(): map<string, Client>
      reads this`clients, clients.Values
    {
      map u | u in clients :: Client(clients[u].identity, clients[u].pending)
    }

    ghost function LookAt(c: Connection): Look
      reads c
    {
      Look(c.outbound, c.accepted)
    }

    ghost function Looks(): map<Connection, Look>
      reads this`created, created
    {
      map c | c in created :: LookAt(c)
    }

    /** The hub as it is. */
    ghost function Now(): Snap
      reads this, created, clients.Values
    {
      Snap(clients, Clients(), created, Looks(), map c | c in created :: c.pending,
           draining, deadline, timerSet, stopped, fired, staleTargets, queueFull)
    }

    /** If no queue and no flag has changed, only the map of connections may have. */
    twostate lemma QuietFrame()
      requires old(created) <= created && draining == old(draining) && deadline == old(deadline)
      requires timerSet == old(timerSet) && stopped == old(stopped) && fired == old(fired)
      requires forall c | c in old(created) ::
                 c.outbound == old(c.outbound) && c.accepted == old(c.accepted) && c.pending == old(c.pending)
      ensures OnlyClients(old(Now()), Now())
    {
    }

    twostate lemma QueuesGrew()
      requires created == old(created) && draining == old(draining) && deadline == old(deadline)
      requires stopped == old(stopped) && fired == old(fired)
      requires forall c | c in created :: c.pending == old(c.pending) && (old(c.done) ==> c.done)
      requires forall c | c in old(Looks()) :: c in Looks() && Extends(old(Looks())[c].accepted, Looks()[c].accepted)
      ensures Onward()
    {
      hide Extends;
      forall c | c in created ensures Extends(old(c.accepted), c.accepted) {
        assert old(Looks())[c] == old(LookAt(c)) && Looks()[c] == LookAt(c);
      }
    }

    twostate lemma Unmoved()
      requires created == old(created) && draining == old(draining) && deadline == old(deadline)
      requires stopped == old(stopped) && fired == old(fired)
      requires forall c | c in created ::
                 c.pending == old(c.pending) && c.done == old(c.done) && c.accepted == old(c.accepted)
      ensures Onward()
    {
    }

    constructor (instance: string, queueSize: int)
      ensures Valid() && clients == map[] && !draining && !stopped && !fired && created == {}
      ensures this.instance == instance && this.queueSize > 0
    {
      this.instance := instance;
      this.queueSize := if queueSize <= 0 then DEFAULT_QUEUE else queueSize;
      clients, draining, deadline, timerSet, stopped := map[], false, 0, false, false;
      staleTargets, queueFull, slowCloses, created, fired := 0, 0, 0, {}, false;
    }

    /** The user's connection leaves the map and is closed. */
    method Remove(user: string)
      requires Valid() && user in clients
      modifies this`clients, created`done
      ensures Valid() && Onward() && clients == old(clients) - {user}
    {
      hide Connection.Sound, Extends;
      var c := clients[user];
      clients := clients - {user};
      c.Close();
    }

    /** A new connection takes a free place. */
    method Add(id: L.Tuple, pending: bool) returns (c: Connection)
      requires Valid() && !stopped && !draining && id.instance == instance && id.user !in clients
      modifies this`clients, this`created
      ensures Valid() && Onward()
      ensures fresh(c) && created == old(created) + {c} && clients == old(clients)[id.user := c]
      ensures c.identity == id && c.pending == pending && c.accepted == [] && !c.done
    {
      hide Connection.Sound, Extends;
      c := new Connection(id, queueSize, pending);
      clients := clients[id.user := c];
      created := created + {c};
    }

    /** A new connection takes the place of the user's present one, if there is one. */
    method Install(id: L.Tuple, pending: bool) returns (c: Connection)
      requires Valid() && !stopped && !draining && id.instance == instance
      modifies this`clients, this`created, created`done
      ensures Valid() && Onward()
      ensures fresh(c) && created == old(created) + {c} && clients == old(clients)[id.user := c]
      ensures c.identity == id && c.pending == pending && c.accepted == [] && !c.done
    {
      hide Connection.Sound, Placed, Extends;
      if id.user in clients {
        Remove(id.user);
      }
      c := Add(id, pending);
    }

    /** The same connection again is returned as it is; another connection of the user replaces the one there. */
    method Register(id: L.Tuple, pending: bool) returns (error: Option<Error>, c: Connection?)
      requires Valid() && !stopped
      modifies this`clients, this`created, created`done
      ensures Valid() && Onward()
      ensures fresh(created - old(created))
      ensures DidRegister(instance, id, pending, Registered(error, c), old(Now()), Now())
      ensures c != null ==> !c.done
    {
      hide Connection.Sound, Extends, OnlyClients;
      error, c := None, null;
      if !ValidIdentity(id, instance) {
        error := Some(Invalid);
      } else if draining {
        error := Some(Draining);
      } else if id.user in clients && clients[id.user].identity == id {
        c := clients[id.user];
      } else {
        c := Install(id, pending);
      }
      QuietFrame();
      hide ValidIdentity;
    }

    /** Only the very connection named is removed. */
    method Unregister(id: L.Tuple) returns (r: Option<Removal>)
      requires Valid() && !stopped
      modifies this`clients, created`done
      ensures Valid() && Onward()
      ensures created == old(created)
      ensures DidUnregister(instance, id, Unregistered(r), old(Now()), Now())
    {
      hide Connection.Sound, ValidIdentity, OnlyClients, Extends;
      if !ValidIdentity(id, instance) {
        r := None;
      } else if id.user !in clients {
        r := Some(Missing);
      } else if clients[id.user].identity != id {
        r := Some(NotCurrent);
      } else {
        Remove(id.user);
        r := Some(Deleted);
      }
      QuietFrame();
    }

    /** A pending connection becomes a target of deliveries, if it is still the one in its place. */
    method Activate(c: Connection) returns (error: Option<Error>)
      requires Valid() && !stopped
      modifies created`pending
      ensures Valid() && Onward()
      ensures created == old(created)
      ensures DidActivate(c, Activated(error), old(Now()), Now())
    {
      if draining {
        return Some(Draining);
      }
      if !Present(c) {
        return Some(Closed);
      }
      c.pending := false;
      error := None;
    }

    /** Refused unless the deadline lies ahead, within thirty seconds; while draining it can only come closer. */
    method Drain(newDeadline: int, now: int) returns (r: Option<(int, bool, nat)>)
      requires Valid() && !stopped
      modifies this`draining, this`deadline, this`timerSet
      ensures Valid() && Onward()
      ensures created == old(created)
      ensures DidDrain(newDeadline, now, Drained(r), old(Now()), Now())
    {
      hide Placed, Connection.Sound, Extends, LookAt, Looks, Clients;
      if newDeadline <= now || newDeadline > now + MAX_DRAIN {
        return None;
      }
      var already := draining;
      if !already || newDeadline < deadline {
        deadline := newDeadline;
        timerSet := true;
      }
      draining := true;
      r := Some((deadline, already, |clients|));
    }

    /** Closes every connection present, each once. */
    method CloseAll()
      requires Valid()
      modifies this`clients, created`done
      ensures Valid() && Onward()
      ensures clients == map[] && forall c | c in created :: c.done
    {
      hide Connection.Sound, Extends;
      while clients != map[]
        invariant Valid()
        invariant forall c | c in created :: old(c.done) ==> c.done
        decreases clients.Keys
      {
        var user :| user in clients;
        Remove(user);
      }
    }

    /** The drain timer goes off: whoever is still connected is closed. */
    method TimerFires()
      requires Valid() && !stopped && timerSet
      modifies this`clients, this`timerSet, this`fired, created`done
      ensures Valid() && Onward()
      ensures fired && !timerSet && clients == map[]
    {
      CloseAll();
      timerSet := false;
      fired := true;
    }

    /** The loop ends. */
    method Stop()
      requires Valid()
      modifies this`clients, this`timerSet, this`stopped, created`done
      ensures Valid() && Onward()
      ensures stopped && clients == map[] && forall c | c in created :: c.done
    {
      CloseAll();
      timerSet := false;
      stopped := true;
    }

    /** A full queue marks its connection slow, and the connection goes. */
    method Evict(c: Connection)
      requires Valid() && Present(c)
      modifies this`clients, this`queueFull, this`slowCloses, created`done, c`slowClosed
      ensures Valid() && Onward() && clients == old(clients) - {c.identity.user} && queueFull == old(queueFull) + 1
    {
      hide Connection.Sound, Extends;
      queueFull := queueFull + 1;
      var first := c.MarkSlow();
      if first {
        slowCloses := slowCloses + 1;
      }
      Remove(c.identity.user);
    }

    /** The message goes into the queue of an active connection, or the connection goes. */
    method Send(message: P.Message, c: Connection, taken: nat) returns (room: bool)
      requires Valid() && Present(c) && !c.pending
      modifies this`clients, this`queueFull, this`slowCloses, created`done, c`outbound, c`accepted, c`slowClosed
      ensures Valid() && Onward() && (room <==> HasRoom(old(c.outbound), taken, queueSize))
      ensures clients == if room then old(clients) else old(clients) - {c.identity.user}
      ensures c.accepted == if room then old(c.accepted) + [message] else old(c.accepted)
      ensures c.outbound == Rest(old(c.outbound), taken) + if room then [message] else []
      ensures queueFull == old(queueFull) + if room then 0 else 1
    {
      assert c in created && c.Sound();
      room := Offer(message, c, taken);
      if !room {
        Evict(c);
      }
    }

    method Offer(message: P.Message, c: Connection, taken: nat) returns (room: bool)
      requires Valid() && Present(c) && !c.pending
      modifies c`outbound, c`accepted
      ensures Valid() && Onward() && (room <==> HasRoom(old(c.outbound), taken, queueSize))
      ensures c.accepted == if room then old(c.accepted) + [message] else old(c.accepted)
      ensures c.outbound == Rest(old(c.outbound), taken) + if room then [message] else []
    {
      hide Connection.Sound, Extends, Rest;
      assert Placed(c);
      ExtendedBy(c.accepted, [message]);
      room := c.Offer(message, taken);
    }

    /** One target at its moment. */
    method DeliverOne(message: P.Message, id: L.Tuple, at: Moment) returns (outcome: Outcome, turn: Turn)
      requires Valid() && !stopped
      modifies this`clients, this`staleTargets, this`queueFull, this`slowCloses
      modifies created`done, created`outbound, created`accepted, created`slowClosed
      ensures Valid() && forall c | c in created :: old(c.done) ==> c.done
      ensures turn.id == id && (turn.over <==> draining && deadline <= at.now)
      ensures outcome == Verdict(old(Clients()), turn)
      ensures clients == if outcome == QueueFull then old(clients) - {id.user} else old(clients)
      ensures Clients() == if outcome == QueueFull then old(Clients()) - {id.user} else old(Clients())
      ensures outcome in {Enqueued, QueueFull} ==> id.user in old(clients)
      ensures forall c | c in created ::
                if IsReached(old(clients), turn, outcome, c)
                then OneTurn(old(LookAt(c)), LookAt(c), message, turn.room, at.taken, queueSize)
                else LookAt(c) == old(LookAt(c))
      ensures staleTargets == old(staleTargets) + (if outcome == Stale then 1 else 0)
      ensures queueFull == old(queueFull) + (if outcome == QueueFull then 1 else 0)
    {
      hide Connection.Sound, Placed, Extends, Rest, HasRoom;
      var over := draining && at.now >= deadline;
      turn := Turn(id, over, false);
      if over {
        return DrainOver, turn;
      }
      if id.user !in clients || clients[id.user].pending {
        return NotFound, turn;
      }
      var c := clients[id.user];
      if c.identity != id {
        staleTargets := staleTargets + 1;
        return Stale, turn;
      }
      var room := Send(message, c, at.taken);
      turn := Turn(id, over, room);
      outcome := if room then Enqueued else QueueFull;
    }

    /** The targets one after the other, each at its own moment. */
    method DeliverAll(message: P.Message, targets: seq<L.Tuple>, moments: nat -> Moment)
        returns (results: seq<Outcome>, turns: seq<Turn>)
      requires Valid() && !stopped && L.Distinct(targets)
      modifies this`clients, this`staleTargets, this`queueFull, this`slowCloses
      modifies created`done, created`outbound, created`accepted, created`slowClosed
      ensures Valid() && forall c | c in created :: old(c.done) ==> c.done
      ensures |results| == |turns| == |targets| && forall k | 0 <= k < |turns| :: turns[k].id == targets[k]
      ensures created == old(created) && Served(queueSize, message, moments, results, turns, old(Now()), Now())
    {
      hide Valid, Verdict, Placed, OneTurn, IsReached, LookAt, Served, L.Distinct, LooksAfter, CountOf, Follow, Left;
      NothingServed(queueSize, message, moments, Now());
      results, turns := [], [];
      for k := 0 to |targets|
        invariant Valid() && forall c | c in created :: old(c.done) ==> c.done
        invariant |results| == |turns| == k && forall j | 0 <= j < k :: turns[j].id == targets[j]
        invariant Fewer(clients, old(clients))
        invariant created == old(created) && Served(queueSize, message, moments, results, turns, old(Now()), Now())
      {
        ghost var middle := Now();
        var outcome, turn := DeliverOne(message, targets[k], moments(k));
        ServedNext(queueSize, message, moments, targets, results, turns, old(Now()), middle, Now(), outcome, turn);
        results := results + [outcome];
        turns := turns + [turn];
      }
    }

    method Deliver(taskId: string, message: P.Message, targets: seq<L.Tuple>, moments: nat -> Moment)
        returns (r: Option<seq<Outcome>>, turns: seq<Turn>)
      requires Valid() && !stopped
      modifies this`clients, this`staleTargets, this`queueFull, this`slowCloses
      modifies created`done, created`outbound, created`accepted, created`slowClosed
      ensures Valid() && Onward()
      ensures created == old(created)
      ensures DidDeliver(instance, queueSize, taskId, message, targets, moments, Answered(r, turns), old(Now()), Now())
    {
      hide Connection.Sound, Extends, ValidDelivery, Placed, LooksAfter, Served, Onward;
      turns := [];
      var ok := CheckDelivery(taskId, message, targets, instance);
      if !ok {
        Unmoved();
        return None, turns;
      }
      TargetsDistinct(taskId, message, targets, instance);
      var results;
      results, turns := DeliverAll(message, targets, moments);
      ServedExtends(queueSize, message, moments, results, turns, old(Now()), Now());
      QueuesGrew();
      r := Some(results);
    }

    method Perform(op: Op) returns (r: Result)
      requires Valid() && !stopped
      modifies this, created
      ensures Valid() && Onward() && fresh(created - old(created)) && !stopped
      ensures Did(instance, queueSize, op, r, old(Now()), Now())
    {
      hide Valid, Onward, DidRegister, DidUnregister, DidDeliver, DidDrain, DidActivate;
      match op
      case Register(id, pending) =>
        var error, c := Register(id, pending);
        r := Registered(error, c);
      case Unregister(id) =>
        var removal := Unregister(id);
        r := Unregistered(removal);
      case Deliver(taskId, message, targets, moments) =>
        var outcomes, turns := Deliver(taskId, message, targets, moments);
        r := Answered(outcomes, turns);
      case Drain(newDeadline, now) =>
        var drain := Drain(newDeadline, now);
        r := Drained(drain);
      case Activate(c) =>
        var error := Activate(c);
        r := Activated(error);
    }

    /** The owner loop over whatever it receives. The timer's channel is silent while the timer is not set. */
    method Run(events: seq<Event>) returns (results: seq<Result>, ghost states: seq<Snap>)
      requires Valid() && !stopped
      modifies this, created
      ensures Valid() && Onward() && fresh(created - old(created))
      ensures stopped <==> Shutdown in events
      ensures stopped ==> clients == map[] && forall c | c in created :: c.done
      ensures Course(instance, queueSize, events, results, states)
      ensures states[0] == old(Now()) && states[|results|] == Now()
      ensures if stopped then results != [] && events[|results| - 1] == Shutdown else |results| == |events|
    {
      results, states := [], [Now()];
      for i := 0 to |events|
        invariant Valid() && Onward() && fresh(created - old(created))
        invariant !stopped && Shutdown !in events[..i]
        invariant Course(instance, queueSize, events, results, states) && |results| == i
        invariant states[0] == old(Now()) && states[i] == Now()
      {
        hide Took, Valid, Onward, Course;
        var r := Serve(events[i]);
        CourseNext(instance, queueSize, events, results, states, r, Now());
        results := results + [r];
        states := states + [Now()];
        if stopped {
          return;
        }
      }
    }

    /** One turn of the loop. */
    method Serve(e: Event) returns (r: Result)
      requires Valid() && !stopped
      modifies this, created
      ensures Valid() && Onward() && fresh(created - old(created))
      ensures (stopped <==> e == Shutdown) && (stopped ==> clients == map[] && forall c | c in created :: c.done)
      ensures Took(instance, queueSize, e, r, old(Now()), Now())
    {
      hide Did, Valid;
      r := Nothing;
      match e
      case Shutdown => Stop();
      case TimerFired =>
        if timerSet {
          TimerFires();
        }
      case Command(cancelled, op) =>
        if !cancelled {
          r := Perform(op);
        }
    }
  }

  lemma TargetsDistinct(taskId: string, message: P.Message, targets: seq<L.Tuple>, instance: string)
    requires ValidDelivery(taskId, message, targets, instance)
    ensures L.Distinct(targets)
  {
    hide P.ValidMessage, ValidTaskId, ValidIdentity;
  }

  lemma NoTurns(clients: map<string, Client>)
    ensures Follow(clients, [], []) && Left(clients, []) == clients && CountOf([], Stale) == CountOf([], QueueFull) == 0
  {
  }
}
