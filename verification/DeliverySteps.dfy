/** What a round does to each recipient, given what the outside answered: the meaning of the engine's loops. */
module DeliverySteps {
  import opened Wrappers
  import opened ByteOrder
  import opened DeliveryEngine
  import opened PushTasks
  import L = LeaseScript

  /** What a failed call does to its recipients. */
  predicate Permanent(error: RpcError) {
    || error.code in {InvalidArgument, PermissionDenied, Unauthenticated, AlreadyExists, Unimplemented}
    || DoNotRetry in error.details || Reauthenticate in error.details
  }

  /** The last directive about the route decides whether it is looked up again. */
  function WantsRefresh(details: seq<Directive>, refresh: bool): bool {
    if details == [] then refresh
    else
      var last := details[|details| - 1];
      if last == SameRequest then false
      else if last == RefreshRoute then true
      else WantsRefresh(details[..|details| - 1], refresh)
  }

  function Failed(s: Recipient, error: RpcError, refresh: bool): Recipient {
    if Permanent(error) then s.(reason := DeliveryRejected, stopped := true)
    else if WantsRefresh(error.details, refresh) then Repaired(s, DependencyFailure)
    else s.(reason := DependencyFailure)
  }

  function Repaired(s: Recipient, reason: Reason): Recipient {
    s.(route := None, routeDeadline := None, repair := true, reason := reason)
  }

  /** What a validated lookup entry does to its recipient. */
  function Looked(s: Recipient, state: RouteState): Recipient
    requires !state.NoRouteState?
  {
    if state.HasRoute? then s.(route := state.identity, routeDeadline := state.deadline, repair := false)
    else s.(outcome := Offline, reason := NoReason)
  }

  /** What a validated delivery result does to its recipient. */
  function Delivered(s: Recipient, code: int): Recipient {
    if OutcomeOf(code) == Unresolved then Repaired(s, RouteChanged)
    else s.(outcome := OutcomeOf(code), reason := NoReason)
  }

  /** Strictly ascending positions: their order is the recipients' order. */
  predicate Ordered(batch: seq<nat>) {
    forall i, j | 0 <= i < j < |batch| :: batch[i] < batch[j]
  }

  // ----- the lookup half of a round -----

  predicate NeedsRoute(s: Recipient) {
    s.outcome == Unresolved && !s.stopped && s.route.None?
  }

  /** The one repair of the task went to somebody else. */
  predicate Spent(s: Recipient, repaired: bool) {
    NeedsRoute(s) && s.repair && repaired
  }

  predicate Chosen(s: Recipient, repaired: bool) {
    NeedsRoute(s) && !(s.repair && repaired)
  }

  /** The batch is all recipients to look up, in order. */
  ghost predicate Picks(batch: seq<nat>, states: seq<Recipient>, repaired: bool) {
    Ordered(batch) && forall n: nat :: n in batch <==> n < |states| && Chosen(states[n], repaired)
  }

  function StopSpent(s: Recipient, repaired: bool): Recipient {
    if Spent(s, repaired) then s.(stopped := true) else s
  }

  /** What the lookup's answer makes of a recipient it asked for. */
  predicate Asked(s: Recipient, t: Recipient, c: Call) {
    && c.LookupCall?
    && match c.found
       case Error(error) => t == Failed(s, error, false)
       case Reply(reply) =>
         if !ValidLookups(reply, c.users, c.now) then t == s.(reason := InvalidResponse)
         else
           exists j :: 0 <= j < |c.users| && c.users[j] == s.userId && !reply.value[j].value.state.NoRouteState?
                       && t == Looked(s, reply.value[j].value.state)
  }

  /** A recipient under repair that still has no route is given up. */
  function GiveUp(s: Recipient): Recipient {
    if s.repair && s.route.None? then s.(stopped := true) else s
  }

  /** One recipient across the lookup half. */
  ghost predicate LookupStep(s: Recipient, t: Recipient, repaired: bool, lookup: Option<Call>) {
    if !Chosen(s, repaired) then t == StopSpent(s, repaired)
    else lookup.Some? && exists answered :: Asked(s, answered, lookup.value) && t == GiveUp(answered)
  }

  /** The call asks for exactly the batch, in order, and is labelled with those of it under repair. */
  predicate LookupOf(c: Call, states: seq<Recipient>, batch: seq<nat>, round: nat)
    requires forall j | 0 <= j < |batch| :: batch[j] < |states|
  {
    && c.LookupCall? && c.round == round && |c.users| == |batch|
    && (forall j | 0 <= j < |batch| :: c.users[j] == states[batch[j]].userId)
    && c.repairs == set j | 0 <= j < |batch| && states[batch[j]].repair :: states[batch[j]].userId
  }

  ghost predicate LookupHalf(start: seq<Recipient>, repaired: bool, round: nat, batch: seq<nat>, lookup: Option<Call>,
                             mid: seq<Recipient>) {
    && |mid| == |start| && Picks(batch, start, repaired)
    && (lookup.Some? <==> batch != [])
    && (lookup.Some? ==>
          (forall j | 0 <= j < |batch| :: batch[j] < |start|) && LookupOf(lookup.value, start, batch, round))
    && forall i | 0 <= i < |start| :: LookupStep(start[i], mid[i], repaired, lookup)
  }

  // ----- the delivery half -----

  predicate Routable(s: Recipient) {
    s.outcome == Unresolved && !s.stopped && s.route.Some?
  }

  predicate RoutableTo(s: Recipient, instance: string) {
    Routable(s) && s.route.value.instance == instance
  }

  /** Two readings of the clock: for the instance's lease and for the routes. */
  datatype Reading = Reading(lease: int, route: int)

  predicate Timely(s: Recipient, now: int) {
    s.routeDeadline.None? || now < s.routeDeadline.value
  }

  predicate Alive(s: Recipient, lease: Lease, r: Reading) {
    Future(lease.deadline, r.lease) && Timely(s, r.route)
  }

  /** The recipients of the batch whose lease and route are still good, in order. */
  ghost predicate Survive(kept: seq<nat>, states: seq<Recipient>, batch: seq<nat>, lease: Lease, r: Reading)
    requires forall j | 0 <= j < |batch| :: batch[j] < |states|
  {
    Ordered(kept) && forall n: nat :: n in kept <==> n in batch && Alive(states[n], lease, r)
  }

  /** What an instance's turn finds: the clock at its two checks, whether the address answers, whether time runs out. */
  datatype Circumstances = Circumstances(first: Reading, dialled: bool, second: Reading, late: bool)

  /**
   The outside, whatever it is: what each call is answered, with the clock its validator reads; what each turn finds;
   and at which of the engine's looks at its budget the time is up.
   */
  datatype World = World(
    lookups: (nat, seq<string>) -> (Answer<seq<Option<LookupItem>>>, int),
    resolutions: (nat, seq<string>) -> (Answer<seq<Option<ResolveItem>>>, int),
    deliveries: (nat, Lease, seq<L.Tuple>) -> Answer<DeliverReply>,
    turns: (nat, string) -> Circumstances,
    expired: nat -> bool)

  datatype Job = Job(task: PushTask, world: World)

  /** The answer is the outside's, not the engine's own. */
  predicate Answered(world: World, c: Call) {
    match c
    case LookupCall(round, users, _, found, now) => (found, now) == world.lookups(round, users)
    case ResolveCall(round, instances, resolved, now) => (resolved, now) == world.resolutions(round, instances)
    case DeliverCall(round, lease, _, _, targets, delivered) => delivered == world.deliveries(round, lease, targets)
  }

  predicate AllAnswered(world: World, trace: seq<Call>) {
    forall a | 0 <= a < |trace| :: Answered(world, trace[a])
  }

  lemma AnsweredMore(world: World, trace: seq<Call>, c: Call)
    requires AllAnswered(world, trace) && Answered(world, c)
    ensures AllAnswered(world, trace + [c])
  {
    hide Answered;
  }

  /**
   One instance's turn: two checks with the dialling between them, the recipients left after both, and the delivery
   unless the call's time ran out or the task's own (`cut`).
   */
  datatype Visit = Visit(
    first: Reading, dialled: bool, second: Reading, late: bool, cut: bool, kept: seq<nat>, sent: Option<Call>)

  predicate At(v: Visit, at: Circumstances) {
    v.first == at.first && v.dialled == at.dialled && v.second == at.second && v.late == at.late
  }

  predicate Reachable(s: Recipient, lease: Lease, v: Visit) {
    Alive(s, lease, v.first) && v.dialled && Alive(s, lease, v.second)
  }

  function RoutesOf(states: seq<Recipient>, batch: seq<nat>): (targets: seq<L.Tuple>)
    requires forall j | 0 <= j < |batch| :: batch[j] < |states| && states[batch[j]].route.Some?
    ensures |targets| == |batch| && forall j | 0 <= j < |batch| :: targets[j] == states[batch[j]].route.value
  {
    seq(|batch|, j requires 0 <= j < |batch| => states[batch[j]].route.value)
  }

  /** The call carries exactly the reachable recipients' routes, in order, to the lease. */
  ghost predicate Sent(v: Visit, lease: Lease, task: PushTask, states: seq<Recipient>, batch: seq<nat>, round: nat)
    requires forall j | 0 <= j < |batch| :: batch[j] < |states| && states[batch[j]].route.Some?
  {
    && Ordered(v.kept) && (forall n: nat :: n in v.kept <==> n in batch && Reachable(states[n], lease, v))
    && (v.sent.Some? <==> v.kept != [] && !v.late && !v.cut)
    && (v.sent.Some? ==>
          && v.sent.value.DeliverCall? && v.sent.value.round == round && v.sent.value.lease == lease
          && v.sent.value.taskId == task.taskId && v.sent.value.messageId == task.message.messageId
          && (forall j | 0 <= j < |v.kept| :: v.kept[j] in batch)
          && v.sent.value.targets == RoutesOf(states, v.kept))
  }

  /** What the delivery's answer makes of a recipient it was for. */
  predicate Served(s: Recipient, t: Recipient, c: Call) {
    && c.DeliverCall?
    && match c.delivered
       case Error(error) => t == Failed(s, error, true)
       case Reply(reply) =>
         if !ValidDelivery(reply, c.taskId, c.messageId, c.targets) then t == Repaired(s, InvalidResponse)
         else
           exists j :: 0 <= j < |c.targets| && s.route == Some(c.targets[j])
                       && t == Delivered(s, reply.value.results[j].value.outcome)
  }

  /** One recipient across its instance's turn. */
  predicate VisitStep(s: Recipient, t: Recipient, lease: Lease, v: Visit) {
    if !Alive(s, lease, v.first) then t == Repaired(s, RouteChanged)
    else if !v.dialled then t == s.(reason := DependencyFailure)
    else if !Alive(s, lease, v.second) then t == Repaired(s, RouteChanged)
    else if v.sent.None? then t == s
    else Served(s, t, v.sent.value)
  }

  /** One recipient across its instance's turn after a valid resolution. */
  predicate TurnStep(s: Recipient, t: Recipient, state: CometState, v: Visit) {
    match state
    case HasLease(lease) => lease.Some? && VisitStep(s, t, lease.value, v)
    case IsMissing(_) => t == Repaired(s, RouteChanged)
    case NoCometState => false
  }

  ghost predicate TurnSent(v: Visit, state: CometState, job: Job, states: seq<Recipient>, batch: seq<nat>,
                           round: nat)
    requires forall j | 0 <= j < |batch| :: batch[j] < |states| && states[batch[j]].route.Some?
  {
    match state
    case HasLease(lease) =>
      && lease.Some? && At(v, job.world.turns(round, lease.value.instance))
      && Sent(v, lease.value, job.task, states, batch, round)
    case IsMissing(_) => v.sent.None?
    case NoCometState => false
  }

  predicate InGroup(groups: map<string, seq<nat>>, id: string, n: nat) {
    id in groups && n in groups[id]
  }

  /** The groups are the routable recipients by instance, each in order: none missing, none twice. */
  ghost predicate GroupsOf(groups: map<string, seq<nat>>, states: seq<Recipient>) {
    && (forall id | id in groups :: Ordered(groups[id]) && groups[id] != [])
    && forall id, n: nat :: InGroup(groups, id, n) <==> n < |states| && RoutableTo(states[n], id)
  }

  lemma GroupHasRoutes(groups: map<string, seq<nat>>, states: seq<Recipient>, id: string)
    requires GroupsOf(groups, states) && id in groups
    ensures forall j | 0 <= j < |groups[id]| :: groups[id][j] < |states| && states[groups[id][j]].route.Some?
  {
    forall j | 0 <= j < |groups[id]| ensures groups[id][j] < |states| && states[groups[id][j]].route.Some? {
      assert InGroup(groups, id, groups[id][j]);
    }
  }

  /** The resolution asks for exactly the groups' instances. */
  ghost predicate ResolutionOf(c: Call, groups: map<string, seq<nat>>, round: nat) {
    && c.ResolveCall? && c.round == round && Ascending(c.instances)
    && forall id :: id in c.instances <==> id in groups
  }

  predicate Resolved(c: Call) {
    c.ResolveCall? && c.resolved.Reply? && ValidResolutions(c.resolved.value, c.instances, c.now)
  }

  function ResolvedState(c: Call, k: nat): CometState
    requires Resolved(c) && k < |c.instances|
  {
    assert ValidResolveItem(c.resolved.value.value[k], c.instances[k], c.now);
    c.resolved.value.value[k].value.state
  }

  /** The `k`-th instance had its turn; its group is as the recipients were before the resolution. */
  ghost predicate TurnOk(c: Call, k: nat, groups: map<string, seq<nat>>, job: Job, mid: seq<Recipient>, v: Visit)
    requires Resolved(c) && k < |c.instances| && GroupsOf(groups, mid)
  {
    && c.instances[k] in groups
    && (GroupHasRoutes(groups, mid, c.instances[k]);
        TurnSent(v, ResolvedState(c, k), job, mid, groups[c.instances[k]], c.round))
  }

  /** One routable recipient across the resolution's answer; whoever had no turn is left alone. */
  ghost predicate DeliverStep(s: Recipient, t: Recipient, c: Call, visits: seq<Visit>) {
    && c.ResolveCall? && s.route.Some?
    && match c.resolved
       case Error(error) => t == Failed(s, error, false)
       case Reply(reply) =>
         if !ValidResolutions(reply, c.instances, c.now) then t == s.(reason := InvalidResponse)
         else
           exists k :: 0 <= k < |c.instances| && c.instances[k] == s.route.value.instance
                       && if k < |visits| then TurnStep(s, t, ResolvedState(c, k), visits[k]) else t == s
  }

  ghost predicate DeliverHalf(job: Job, mid: seq<Recipient>, round: nat, groups: map<string, seq<nat>>,
                              resolve: Option<Call>, visits: seq<Visit>, end: seq<Recipient>, over: bool) {
    && |end| == |mid| && GroupsOf(groups, mid)
    && (resolve.None? ==> visits == [] && (over || groups == map[]))
    && (resolve.Some? ==>
          && ResolutionOf(resolve.value, groups, round) && groups != map[]
          && (if Resolved(resolve.value)
              then
                && |visits| <= |resolve.value.instances| && (over || |visits| == |resolve.value.instances|)
                && (forall k | 0 <= k < |visits| && visits[k].cut :: over)
                && forall k | 0 <= k < |visits| :: TurnOk(resolve.value, k, groups, job, mid, visits[k])
              else visits == []))
    && forall i | 0 <= i < |mid| ::
         if Routable(mid[i]) && resolve.Some? then DeliverStep(mid[i], end[i], resolve.value, visits)
         else end[i] == mid[i]
  }

  // ----- whole rounds -----

  /** Everything about one round: where it started, what was asked and answered, where it ended. */
  datatype RoundLog = RoundLog(
    start: seq<Recipient>, repaired: bool, batch: seq<nat>, lookup: Option<Call>, mid: seq<Recipient>,
    groups: map<string, seq<nat>>, resolve: Option<Call>, visits: seq<Visit>, end: seq<Recipient>)

  function Listed(c: Option<Call>): seq<Call> {
    if c.Some? then [c.value] else []
  }

  function SentCalls(visits: seq<Visit>): seq<Call> {
    if visits == [] then [] else SentCalls(visits[..|visits| - 1]) + Listed(visits[|visits| - 1].sent)
  }

  function CallsOf(log: RoundLog): seq<Call> {
    Listed(log.lookup) + Listed(log.resolve) + SentCalls(log.visits)
  }

  ghost predicate RoundOk(job: Job, round: nat, log: RoundLog, over: bool) {
    && LookupHalf(log.start, log.repaired, round, log.batch, log.lookup, log.mid)
    && DeliverHalf(job, log.mid, round, log.groups, log.resolve, log.visits, log.end, over)
  }

  predicate RepairsNow(log: RoundLog) {
    log.lookup.Some? && IsRepair(log.lookup.value)
  }
}
