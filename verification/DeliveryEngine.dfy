/**
 Job's processing of one push task: up to three rounds that look routes up, resolve Comet instances and deliver, with
 one shared route repair. Every answer from outside is arbitrary; the engine's own validators decide what to believe.
 */
module DeliveryEngine {
  import opened Wrappers
  import opened Identifiers
  import opened ByteOrder
  import opened PushTasks
  import L = LeaseScript

  datatype Outcome = Unresolved | Enqueued | Duplicate | Offline

  datatype Reason = NoReason | DependencyFailure | InvalidResponse | RouteChanged | DeliveryRejected | BudgetExhausted

  datatype RecipientResult = RecipientResult(userId: string, outcome: Outcome, reason: Reason)

  /** One recipient as the engine tracks it. A missing route deadline belongs to a hint, which carries none. */
  datatype Recipient = Recipient(
    userId: string, outcome: Outcome, reason: Reason, route: Option<L.Tuple>, routeDeadline: Option<int>,
    repair: bool, stopped: bool)

  // ----- what may come back from a call -----

  datatype StatusCode = InvalidArgument | PermissionDenied | Unauthenticated | AlreadyExists | Unimplemented | OtherCode

  datatype Directive = Unspecified | DoNotRetry | SameRequest | Reconnect | Reauthenticate | RefreshRoute

  datatype RpcError = RpcError(code: StatusCode, details: seq<Directive>)

  datatype Answer<+T> = Error(error: RpcError) | Reply(value: Option<T>)

  datatype RouteState =
    | HasRoute(identity: Option<L.Tuple>, auth: Option<int>, deadline: Option<int>)
    | IsOffline(offline: int)
    | NoRouteState

  datatype LookupItem = LookupItem(userId: string, state: RouteState)

  datatype Lease = Lease(instance: string, boot: string, address: string, deadline: Option<int>)

  datatype CometState = HasLease(lease: Option<Lease>) | IsMissing(missing: int) | NoCometState

  datatype ResolveItem = ResolveItem(instanceId: string, state: CometState)

  datatype TargetResult = TargetResult(target: Option<L.Tuple>, outcome: int)

  datatype DeliverReply = DeliverReply(taskId: string, messageId: string, results: seq<Option<TargetResult>>)

  const ENQUEUED := 1
  const DUPLICATE := 2
  const DRAINING := 6

  /** Everything the engine asked the outside, in order, with the answers. */
  datatype Call =
    | LookupCall(round: nat, users: seq<string>, repairs: set<string>, found: Answer<seq<Option<LookupItem>>>, now: int)
    | ResolveCall(round: nat, instances: seq<string>, resolved: Answer<seq<Option<ResolveItem>>>, now: int)
    | DeliverCall(round: nat, lease: Lease, taskId: string, messageId: string, targets: seq<L.Tuple>,
                  delivered: Answer<DeliverReply>)

  // ----- the validators -----

  predicate Future(t: Option<int>, now: int) {
    t.Some? && t.value > now
  }

  predicate ValidLookupItem(item: Option<LookupItem>, user: string, now: int) {
    && item.Some? && item.value.userId == user
    && match item.value.state
       case HasRoute(identity, auth, deadline) =>
         && identity.Some? && L.ValidConnection(identity.value) && identity.value.user == user
         && Future(auth, now) && Future(deadline, now) && deadline.value <= auth.value
       case IsOffline(reason) => 1 <= reason <= 3
       case NoRouteState => false
  }

  predicate ValidLookups(r: Option<seq<Option<LookupItem>>>, users: seq<string>, now: int) {
    r.Some? && |r.value| == |users| && forall i | 0 <= i < |users| :: ValidLookupItem(r.value[i], users[i], now)
  }

  predicate ValidResolveItem(item: Option<ResolveItem>, id: string, now: int) {
    && item.Some? && item.value.instanceId == id
    && match item.value.state
       case HasLease(lease) =>
         && lease.Some? && lease.value.instance == id && ValidUuid(lease.value.boot)
         && Future(lease.value.deadline, now) && lease.value.address != ""
       case IsMissing(reason) => 1 <= reason <= 2
       case NoCometState => false
  }

  predicate ValidResolutions(r: Option<seq<Option<ResolveItem>>>, ids: seq<string>, now: int) {
    r.Some? && |r.value| == |ids| && forall i | 0 <= i < |ids| :: ValidResolveItem(r.value[i], ids[i], now)
  }

  predicate ValidDelivery(r: Option<DeliverReply>, taskId: string, messageId: string, targets: seq<L.Tuple>) {
    && r.Some? && r.value.taskId == taskId && r.value.messageId == messageId && |r.value.results| == |targets|
    && forall i | 0 <= i < |targets| ::
         && r.value.results[i].Some?
         && r.value.results[i].value.target == Some(targets[i])
         && ENQUEUED <= r.value.results[i].value.outcome <= DRAINING
  }

  function OutcomeOf(code: int): Outcome {
    if code == ENQUEUED then Enqueued else if code == DUPLICATE then Duplicate else Unresolved
  }

  // ----- what a trace of calls shows -----

  predicate Asks(c: Call, user: string) {
    match c
    case LookupCall(_, users, _, _, _) => user in users
    case ResolveCall(_, _, _, _) => false
    case DeliverCall(_, _, _, _, targets, _) => exists t | t in targets :: t.user == user
  }

  predicate OfflineAt(c: Call, j: nat, user: string) {
    && c.LookupCall? && c.found.Reply? && ValidLookups(c.found.value, c.users, c.now)
    && j < |c.users| && c.users[j] == user && c.found.value.value[j].value.state.IsOffline?
  }

  predicate DeliveredAt(c: Call, j: nat, user: string, o: Outcome) {
    && c.DeliverCall? && c.delivered.Reply? && ValidDelivery(c.delivered.value, c.taskId, c.messageId, c.targets)
    && j < |c.targets| && c.targets[j].user == user
    && o != Unresolved && OutcomeOf(c.delivered.value.value.results[j].value.outcome) == o
  }

  /** The call's validated answer settles `user` as `o` at the matching position. */
  ghost predicate SettledAs(c: Call, user: string, o: Outcome) {
    || (o == Offline && exists j: nat :: OfflineAt(c, j, user))
    || (exists j: nat :: DeliveredAt(c, j, user, o))
  }

  ghost predicate Settles(c: Call, user: string) {
    SettledAs(c, user, Offline) || SettledAs(c, user, Enqueued) || SettledAs(c, user, Duplicate)
  }

  predicate IsRepair(c: Call) {
    c.LookupCall? && c.repairs != {}
  }

  predicate RouteAt(c: Call, j: nat, t: L.Tuple) {
    && c.LookupCall? && c.found.Reply? && ValidLookups(c.found.value, c.users, c.now)
    && j < |c.users| && c.found.value.value[j].value.state.HasRoute?
    && c.found.value.value[j].value.state.identity == Some(t)
  }

  /** The engine learned the tuple from the task's own hints or from a validated lookup of that very user. */
  ghost predicate KnownRoute(task: PushTask, calls: seq<Call>, t: L.Tuple) {
    || (task.pending.None? && t in task.targets)
    || (exists a, j: nat :: 0 <= a < |calls| && RouteAt(calls[a], j, t))
  }

  predicate ResolvedAt(c: Call, j: nat, round: nat, lease: Lease) {
    && c.ResolveCall? && c.round == round && c.resolved.Reply?
    && ValidResolutions(c.resolved.value, c.instances, c.now)
    && j < |c.instances| && c.resolved.value.value[j].value.state == HasLease(Some(lease))
  }

  ghost predicate ResolvedBefore(calls: seq<Call>, round: nat, lease: Lease) {
    exists a, j: nat :: 0 <= a < |calls| && ResolvedAt(calls[a], j, round, lease)
  }

  /** Whoever a call settles is in no later call. */
  ghost predicate NeverAskedAgain(trace: seq<Call>) {
    forall a, b, u | 0 <= a < b < |trace| && Settles(trace[a], u) :: !Asks(trace[b], u)
  }

  predicate OneRepair(trace: seq<Call>) {
    forall a, b | 0 <= a < b < |trace| :: !(IsRepair(trace[a]) && IsRepair(trace[b]))
  }

  ghost predicate OncePerRound(trace: seq<Call>) {
    forall a, b, u | 0 <= a < b < |trace| && trace[a].DeliverCall? && trace[b].DeliverCall?
                     && trace[a].round == trace[b].round && Asks(trace[a], u) :: !Asks(trace[b], u)
  }

  /**
   Each delivery goes to a lease resolved in its round, for somebody, and carries tuples of users in scope on that
   lease's own instance.
   */
  ghost predicate DeliveriesGrounded(task: PushTask, trace: seq<Call>) {
    forall a | 0 <= a < |trace| && trace[a].DeliverCall? ::
      && ResolvedBefore(trace[..a], trace[a].round, trace[a].lease)
      && trace[a].taskId == task.taskId && trace[a].messageId == task.message.messageId && trace[a].targets != []
      && (forall t | t in trace[a].targets :: t.user in Scope(task))
      && forall t | t in trace[a].targets :: t.instance == trace[a].lease.instance && KnownRoute(task, trace[..a], t)
  }

  /** A call names nobody and no instance twice. */
  predicate NamesOnce(c: Call) {
    match c
    case LookupCall(_, users, _, _, _) => L.Distinct(users)
    case ResolveCall(_, instances, _, _) => L.Distinct(instances)
    case DeliverCall(_, _, _, _, targets, _) =>
      forall i, j | 0 <= i < j < |targets| :: targets[i].user != targets[j].user
  }

  /** Two calls that may not belong to the same round: two lookups, two resolutions, two deliveries to one instance. */
  predicate Clash(c: Call, d: Call) {
    && c.round == d.round
    && match c
       case LookupCall(_, _, _, _, _) => d.LookupCall?
       case ResolveCall(_, _, _, _) => d.ResolveCall?
       case DeliverCall(_, lease, _, _, _, _) => d.DeliverCall? && d.lease.instance == lease.instance
  }

  ghost predicate NoClash(trace: seq<Call>) {
    && (forall a | 0 <= a < |trace| :: NamesOnce(trace[a]))
    && forall a, b | 0 <= a < b < |trace| :: !Clash(trace[a], trace[b])
  }

  ghost predicate GoodTrace(task: PushTask, trace: seq<Call>) {
    && NeverAskedAgain(trace) && OneRepair(trace) && OncePerRound(trace) && NoClash(trace)
    && DeliveriesGrounded(task, trace)
  }

  /** The calls settle a user in one way at most. */
  lemma OneOutcome(task: PushTask, trace: seq<Call>, a: nat, b: nat, user: string, o: Outcome, p: Outcome)
    requires GoodTrace(task, trace) && a < |trace| && b < |trace|
    requires SettledAs(trace[a], user, o) && SettledAs(trace[b], user, p)
    ensures o == p
  {
    SettledIsAsked(trace[a], user, o);
    SettledIsAsked(trace[b], user, p);
    if a == b {
      OneOutcomeInside(trace[a], user, o, p);
    } else {
      hide SettledAs, Asks, OneRepair, OncePerRound, NoClash, DeliveriesGrounded;
      SettledSettles(trace[a], user, o);
      SettledSettles(trace[b], user, p);
    }
  }

  lemma SettledIsAsked(c: Call, user: string, o: Outcome)
    requires SettledAs(c, user, o)
    ensures Asks(c, user)
  {
    hide ValidLookups, ValidDelivery;
    if c.DeliverCall? {
      var j: nat :| DeliveredAt(c, j, user, o);
      assert c.targets[j] in c.targets;
    }
  }

  lemma SettledSettles(c: Call, user: string, o: Outcome)
    requires SettledAs(c, user, o)
    ensures Settles(c, user)
  {
    hide ValidLookups, ValidDelivery;
  }

  lemma OneOutcomeInside(c: Call, user: string, o: Outcome, p: Outcome)
    requires NamesOnce(c) && SettledAs(c, user, o) && SettledAs(c, user, p)
    ensures o == p
  {
    hide ValidLookups, ValidDelivery;
    if c.DeliverCall? {
      var i: nat :| DeliveredAt(c, i, user, o);
      var j: nat :| DeliveredAt(c, j, user, p);
    }
  }

  // ----- the invariant that ties recipients to the trace -----

  predicate LocalOk(s: Recipient) {
    && (s.route.Some? ==> s.route.value.user == s.userId && !s.repair)
    && (s.outcome != Unresolved ==> s.reason == NoReason)
  }

  ghost predicate Justified(trace: seq<Call>, s: Recipient) {
    s.outcome != Unresolved ==> exists a :: 0 <= a < |trace| && SettledAs(trace[a], s.userId, s.outcome)
  }

  ghost predicate RouteKnown(task: PushTask, trace: seq<Call>, s: Recipient) {
    s.route.Some? ==> KnownRoute(task, trace, s.route.value)
  }

  ghost predicate Tracked(task: PushTask, ids: seq<string>, states: seq<Recipient>, trace: seq<Call>) {
    && |states| == |ids| && L.Distinct(ids)
    && (forall i | 0 <= i < |ids| :: states[i].userId == ids[i])
    && (forall i | 0 <= i < |ids| :: LocalOk(states[i]))
    && (forall i | 0 <= i < |ids| :: Justified(trace, states[i]))
    && (forall i | 0 <= i < |ids| :: RouteKnown(task, trace, states[i]))
    && (forall i, a | 0 <= i < |ids| && 0 <= a < |trace| && states[i].outcome == Unresolved ::
          !Settles(trace[a], ids[i]))
    && (forall a, u | 0 <= a < |trace| && Asks(trace[a], u) :: u in ids)
  }

  ghost predicate Budget(repaired: bool, trace: seq<Call>, round: nat) {
    && (!repaired ==> forall a | 0 <= a < |trace| :: !IsRepair(trace[a]))
    && (forall a | 0 <= a < |trace| :: trace[a].round <= round)
  }

  /** A change that settles nobody and forgets routes at most; a settled recipient may only be stopped. */
  predicate Soft(s: Recipient, t: Recipient) {
    || t == s.(stopped := t.stopped)
    || (&& t.userId == s.userId && s.outcome == Unresolved && t.outcome == Unresolved
        && (t.route == s.route || t.route == None)
        && (t.route.Some? ==> t.repair == s.repair))
  }

  predicate SoftAll(states: seq<Recipient>, next: seq<Recipient>) {
    |next| == |states| && forall i | 0 <= i < |states| :: Soft(states[i], next[i])
  }

  lemma TrackedSoft(task: PushTask, ids: seq<string>, states: seq<Recipient>, next: seq<Recipient>, trace: seq<Call>)
    requires Tracked(task, ids, states, trace) && SoftAll(states, next)
    ensures Tracked(task, ids, next, trace)
  {
    hide Justified, Settles, Asks, KnownRoute;
    forall i | 0 <= i < |ids|
      ensures Justified(trace, next[i]) && LocalOk(next[i]) && RouteKnown(task, trace, next[i])
    {
      assert Soft(states[i], next[i]);
      JustifiedSoft(trace, states[i], next[i]);
    }
  }

  lemma JustifiedSoft(trace: seq<Call>, s: Recipient, t: Recipient)
    requires Soft(s, t) && Justified(trace, s)
    ensures Justified(trace, t)
  {
  }

  lemma KnownLater(task: PushTask, trace: seq<Call>, c: Call, t: L.Tuple)
    requires KnownRoute(task, trace, t)
    ensures KnownRoute(task, trace + [c], t)
  {
    if !(task.pending.None? && t in task.targets) {
      var a, j: nat :| 0 <= a < |trace| && RouteAt(trace[a], j, t);
      assert (trace + [c])[a] == trace[a];
    }
  }

  lemma JustifiedLater(trace: seq<Call>, c: Call, s: Recipient)
    requires Justified(trace, s)
    ensures Justified(trace + [c], s)
  {
    if s.outcome != Unresolved {
      var a :| 0 <= a < |trace| && SettledAs(trace[a], s.userId, s.outcome);
      assert (trace + [c])[a] == trace[a];
    }
  }

  /** Extending the trace by a call whose settlements the new states reflect. */
  lemma TrackedCall(task: PushTask, ids: seq<string>, states: seq<Recipient>, next: seq<Recipient>, trace: seq<Call>,
                    c: Call)
    requires Tracked(task, ids, states, trace) && |next| == |states|
    requires forall i | 0 <= i < |ids| :: next[i].userId == ids[i] && LocalOk(next[i])
    requires forall i | 0 <= i < |ids| && next[i].outcome == Unresolved ::
               states[i].outcome == Unresolved && !Settles(c, ids[i])
    requires forall i | 0 <= i < |ids| && next[i].outcome != Unresolved ::
               next[i] == states[i] || SettledAs(c, ids[i], next[i].outcome)
    requires forall i | 0 <= i < |ids| && next[i].route.Some? ::
               next[i].route == states[i].route || KnownRoute(task, trace + [c], next[i].route.value)
    requires forall u | Asks(c, u) :: u in ids
    ensures Tracked(task, ids, next, trace + [c])
  {
    hide SettledAs, Settles, Asks, KnownRoute, LocalOk;
    var longer := trace + [c];
    assert longer[|trace|] == c;
    forall i | 0 <= i < |ids| ensures Justified(longer, next[i]) {
      if next[i] == states[i] {
        JustifiedLater(trace, c, states[i]);
      }
    }
    forall i | 0 <= i < |ids| ensures RouteKnown(task, longer, next[i]) {
      if next[i].route.Some? && next[i].route == states[i].route {
        KnownLater(task, trace, c, next[i].route.value);
      }
    }
    forall a | 0 <= a < |longer| ensures longer[a] == if a < |trace| then trace[a] else c {
    }
  }

  /** A call that asks only unresolved users, and has no counterpart in its round, keeps the trace good. */
  lemma GoodTraceCall(task: PushTask, ids: seq<string>, states: seq<Recipient>, trace: seq<Call>, c: Call,
                      repaired: bool)
    requires Tracked(task, ids, states, trace) && GoodTrace(task, trace)
    requires forall u | Asks(c, u) :: exists i :: 0 <= i < |ids| && ids[i] == u && states[i].outcome == Unresolved
    requires NamesOnce(c) && forall a | 0 <= a < |trace| :: !Clash(trace[a], c)
    requires IsRepair(c) ==> !repaired
    requires !repaired ==> forall a | 0 <= a < |trace| :: !IsRepair(trace[a])
    requires c.DeliverCall? ==> forall a, u | 0 <= a < |trace| && trace[a].DeliverCall? && trace[a].round == c.round
                                              && Asks(trace[a], u) :: !Asks(c, u)
    requires c.DeliverCall? ==>
               && ResolvedBefore(trace, c.round, c.lease)
               && c.taskId == task.taskId && c.messageId == task.message.messageId && c.targets != []
               && (forall t | t in c.targets :: t.user in Scope(task))
               && forall t | t in c.targets :: t.instance == c.lease.instance && KnownRoute(task, trace, t)
    ensures GoodTrace(task, trace + [c])
  {
    hide SettledAs, Settles, Asks, KnownRoute, ResolvedBefore, IsRepair, LocalOk, Justified, RouteKnown, NamesOnce,
      Clash;
    var longer := trace + [c];
    assert longer[..|trace|] == trace;
    assert NoClash(longer) by {
      forall a, b | 0 <= a < b < |longer| ensures !Clash(longer[a], longer[b]) {
      }
    }
    forall a, b, u | 0 <= a < b < |longer| && Settles(longer[a], u) ensures !Asks(longer[b], u) {
    }
    forall a | 0 <= a < |longer| && longer[a].DeliverCall?
      ensures && ResolvedBefore(longer[..a], longer[a].round, longer[a].lease)
              && longer[a].taskId == task.taskId && longer[a].messageId == task.message.messageId
              && longer[a].targets != [] && (forall t | t in longer[a].targets :: t.user in Scope(task))
              && forall t | t in longer[a].targets ::
                  t.instance == longer[a].lease.instance && KnownRoute(task, longer[..a], t)
    {
      if a < |trace| {
        assert longer[a] == trace[a] && longer[..a] == trace[..a];
      }
    }
  }
}
