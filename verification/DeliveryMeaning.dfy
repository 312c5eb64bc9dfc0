/**
 What whole runs of the engine mean for one user: why it was given up, what a delivery to it rested on, and that nobody
 who can be helped is passed over. All of it is said of the calls and of the recipients' own fields.
 */
module DeliveryMeaning {
  import opened Wrappers
  import opened ByteOrder
  import opened PushTasks
  import opened DeliveryEngine
  import opened DeliverySteps
  import opened DeliveryRun
  import L = LeaseScript

  // ----- failures -----

  /** No further attempt can help. */
  predicate Final(error: RpcError) {
    || error.code == InvalidArgument || error.code == PermissionDenied || error.code == Unauthenticated
    || error.code == AlreadyExists || error.code == Unimplemented
    || DoNotRetry in error.details || Reauthenticate in error.details
  }

  function ErrorOf(c: Call): Option<RpcError> {
    match c
    case LookupCall(_, _, _, found, _) => if found.Error? then Some(found.error) else None
    case ResolveCall(_, _, resolved, _) => if resolved.Error? then Some(resolved.error) else None
    case DeliverCall(_, _, _, _, _, delivered) => if delivered.Error? then Some(delivered.error) else None
  }

  predicate Fails(c: Call) {
    ErrorOf(c).Some? && Final(ErrorOf(c).value)
  }

  /** The route is to be looked up again: that was asked for and not taken back afterwards. */
  predicate LooksAgain(details: seq<Directive>, refresh: bool) {
    || (refresh && SameRequest !in details)
    || exists k :: 0 <= k < |details| && details[k] == RefreshRoute && SameRequest !in details[k + 1..]
  }

  lemma {:induction false} LastDirectiveDecides(details: seq<Directive>, refresh: bool)
    ensures WantsRefresh(details, refresh) <==> LooksAgain(details, refresh)
    decreases |details|
  {
    if details != [] {
      var n := |details| - 1;
      LastDirectiveDecides(details[..n], refresh);
      assert details == details[..n] + [details[n]];
      if details[n] == RefreshRoute {
        assert details[n + 1..] == [];
      }
      forall k | 0 <= k < n && details[k] == RefreshRoute
        ensures SameRequest in details[k + 1..] <==> SameRequest in details[..n][k + 1..] || details[n] == SameRequest
      {
        assert details[k + 1..] == details[..n][k + 1..] + [details[n]];
      }
    }
  }

  /** A failed call settles nobody; it gives its recipients up, drops their routes, or only notes the reason. */
  lemma FailureMeaning(s: Recipient, error: RpcError, refresh: bool)
    ensures var t := Failed(s, error, refresh);
            && t.userId == s.userId && t.outcome == s.outcome
            && (t.stopped <==> s.stopped || Final(error))
            && (t.reason == if Final(error) then DeliveryRejected else DependencyFailure)
            && (if Final(error) || !LooksAgain(error.details, refresh)
                then t.route == s.route && t.routeDeadline == s.routeDeadline && t.repair == s.repair
                else t.route.None? && t.routeDeadline.None? && t.repair)
  {
    LastDirectiveDecides(error.details, refresh);
  }

  // ----- what ties a recipient to the calls -----

  /** The lookup's entry for the user gave this very route, with a deadline still ahead and within authentication. */
  predicate Gave(c: Call, t: L.Tuple, deadline: Option<int>) {
    && c.LookupCall? && c.found.Reply? && c.found.value.Some? && |c.found.value.value| == |c.users|
    && exists j :: 0 <= j < |c.users| && c.users[j] == t.user && Entry(c.found.value.value[j], t, deadline, c.now)
  }

  predicate Entry(item: Option<LookupItem>, t: L.Tuple, deadline: Option<int>, now: int) {
    && item.Some? && item.value.userId == t.user && item.value.state.HasRoute?
    && item.value.state.identity == Some(t) && item.value.state.deadline == deadline
    && deadline.Some? && item.value.state.auth.Some? && now < deadline.value <= item.value.state.auth.value
  }

  /** A hint of the task's own, or what a lookup gave. */
  predicate Source(task: PushTask, calls: seq<Call>, t: L.Tuple, deadline: Option<int>) {
    || (deadline.None? && task.pending.None? && t in task.targets)
    || exists c :: c in calls && Gave(c, t, deadline)
  }

  predicate Rejects(c: Call, user: string) {
    Asks(c, user) && Fails(c)
  }

  /** Why a user is given up: a call for it, or the resolution, failed for good; or its route cannot be repaired. */
  predicate WhyStopped(c: Call, user: string) {
    || Rejects(c, user)
    || (c.ResolveCall? && Fails(c))
    || (c.LookupCall? && c.repairs != {})
    || (c.LookupCall? && user in c.users && ErrorOf(c).Some? && RefreshRoute in ErrorOf(c).value.details)
  }

  ghost predicate Explained(task: PushTask, calls: seq<Call>, s: Recipient) {
    && (s.route.Some? ==> s.route.value.user == s.userId && Source(task, calls, s.route.value, s.routeDeadline))
    && (s.stopped ==> exists c :: c in calls && WhyStopped(c, s.userId))
    && forall c | c in calls && Rejects(c, s.userId) :: s.stopped
  }

  /** Calls that reject nobody here change nothing of it. */
  lemma ExplainedMore(task: PushTask, calls: seq<Call>, more: seq<Call>, s: Recipient)
    requires Explained(task, calls, s) && forall c | c in more && Rejects(c, s.userId) :: s.stopped
    ensures Explained(task, calls + more, s)
  {
    hide Final, Gave, Rejects, WhyStopped;
    if c :| c in calls && WhyStopped(c, s.userId) {
      assert c in calls + more;
    }
    if s.route.Some? {
      var t, deadline := s.route.value, s.routeDeadline;
      if c :| c in calls && Gave(c, t, deadline) {
        assert c in calls + more;
      }
    }
  }

  // ----- the lookup half -----

  lemma LookupExplains(task: PushTask, calls: seq<Call>, repaired: bool, lookup: Option<Call>, s: Recipient,
                       t: Recipient)
    requires Explained(task, calls, s) && LookupStep(s, t, repaired, lookup)
    requires repaired ==> exists c :: c in calls && c.LookupCall? && c.repairs != {}
    requires lookup.Some? ==>
               && lookup.value.LookupCall? && (s.userId in lookup.value.users <==> Chosen(s, repaired))
               && (Chosen(s, repaired) && s.repair ==> lookup.value.repairs != {})
    ensures t.userId == s.userId && Explained(task, calls + Listed(lookup), t)
  {
    var more := calls + Listed(lookup);
    if !Chosen(s, repaired) {
      hide Final, Gave;
      ExplainedMore(task, calls, Listed(lookup), s);
      if repaired {
        var c :| c in calls && c.LookupCall? && c.repairs != {};
        assert c in more && WhyStopped(c, s.userId);
      }
    } else {
      var c := lookup.value;
      var answered :| Asked(s, answered, c) && t == GiveUp(answered);
      AskedExplains(s, answered, c);
      hide Asked, Final, Gave;
      assert c in more;
    }
  }

  /** What an answer makes of a recipient it was asked for. */
  lemma AskedExplains(s: Recipient, t: Recipient, c: Call)
    requires Asked(s, t, c) && s.route.None? && !s.stopped && s.userId in c.users
    ensures t.userId == s.userId && (t.stopped <==> Rejects(c, s.userId))
    ensures t.route.Some? ==> t.route.value.user == s.userId && Gave(c, t.route.value, t.routeDeadline) && !t.repair
    ensures t.repair && !s.repair ==> ErrorOf(c).Some? && RefreshRoute in ErrorOf(c).value.details
  {
    hide L.ValidConnection;
    match c.found
    case Error(error) =>
      LastDirectiveDecides(error.details, false);
    case Reply(reply) =>
      if ValidLookups(reply, c.users, c.now) {
        var j :| 0 <= j < |c.users| && c.users[j] == s.userId && !reply.value[j].value.state.NoRouteState?
            && t == Looked(s, reply.value[j].value.state);
        assert ValidLookupItem(reply.value[j], c.users[j], c.now);
        assert t.route.Some? ==> Entry(reply.value[j], t.route.value, t.routeDeadline, c.now);
      }
  }

  /** Each user is at one position. */
  predicate OneEach(states: seq<Recipient>) {
    forall i, j | 0 <= i < j < |states| :: states[i].userId != states[j].userId
  }

  /** The lookup asks for exactly the chosen recipients, and says so if one of them is under repair. */
  lemma LookupAsksChosen(start: seq<Recipient>, repaired: bool, round: nat, batch: seq<nat>, lookup: Option<Call>,
                         mid: seq<Recipient>, i: nat)
    requires LookupHalf(start, repaired, round, batch, lookup, mid) && OneEach(start) && i < |start|
    ensures Chosen(start[i], repaired) ==> lookup.Some?
    ensures lookup.Some? ==>
              && lookup.value.LookupCall? && (start[i].userId in lookup.value.users <==> Chosen(start[i], repaired))
              && (Chosen(start[i], repaired) && start[i].repair ==> lookup.value.repairs != {})
  {
    hide LookupStep;
    if lookup.Some? {
      var users := lookup.value.users;
      if Chosen(start[i], repaired) {
        assert i in batch;
        var j :| 0 <= j < |batch| && batch[j] == i;
        assert users[j] == start[i].userId;
        assert start[i].repair ==> start[i].userId in lookup.value.repairs;
      }
      if start[i].userId in users {
        var j :| 0 <= j < |users| && users[j] == start[i].userId;
        assert batch[j] in batch;
        assert batch[j] == i;
      }
    }
  }

  // ----- the delivery half -----

  /** A change that keeps or forgets the route, and gives up exactly on a failure in the new calls. */
  lemma StepExplains(task: PushTask, calls: seq<Call>, more: seq<Call>, s: Recipient, t: Recipient)
    requires Explained(task, calls, s) && !s.stopped && t.userId == s.userId
    requires t.route.None? || (t.route == s.route && t.routeDeadline == s.routeDeadline)
    requires t.stopped ==> exists c :: c in more && WhyStopped(c, s.userId)
    requires forall c | c in more && Rejects(c, s.userId) :: t.stopped
    ensures Explained(task, calls + more, t)
  {
    hide Final, Gave, Rejects, WhyStopped;
    if t.route.Some? {
      var route, deadline := t.route.value, t.routeDeadline;
      if c :| c in calls && Gave(c, route, deadline) {
        assert c in calls + more;
      }
    }
    if c :| c in more && WhyStopped(c, s.userId) {
      assert c in calls + more;
    }
  }

  lemma {:induction false} SentMember(visits: seq<Visit>, c: Call)
    ensures c in SentCalls(visits) <==> exists k :: 0 <= k < |visits| && visits[k].sent == Some(c)
  {
    if visits != [] {
      var n := |visits| - 1;
      SentMember(visits[..n], c);
      if c in SentCalls(visits[..n]) {
        var k :| 0 <= k < n && visits[..n][k].sent == Some(c);
        assert visits[k].sent == Some(c);
      }
    }
  }

  /** The turn sends exactly the routes to the instance that it reaches, unless time ran out. */
  ghost predicate SendsReached(mid: seq<Recipient>, id: string, lease: Lease, v: Visit) {
    && (v.sent.Some? ==> v.sent.value.DeliverCall?)
    && (forall t | v.sent.Some? && t in v.sent.value.targets ::
          exists n :: 0 <= n < |mid| && RoutableTo(mid[n], id) && mid[n].route == Some(t)
                      && Reachable(mid[n], lease, v))
    && (forall n: nat | n < |mid| && RoutableTo(mid[n], id) && Reachable(mid[n], lease, v) ::
          if v.sent.Some? then mid[n].route.value in v.sent.value.targets else v.late || v.cut)
  }

  lemma BatchSends(task: PushTask, mid: seq<Recipient>, round: nat, batch: seq<nat>, id: string, lease: Lease, v: Visit)
    requires forall n: nat :: n in batch <==> n < |mid| && RoutableTo(mid[n], id)
    requires forall j | 0 <= j < |batch| :: batch[j] < |mid| && mid[batch[j]].route.Some?
    requires Sent(v, lease, task, mid, batch, round)
    ensures SendsReached(mid, id, lease, v)
  {
    hide Reachable, RoutableTo;
    if v.sent.Some? {
      var targets := v.sent.value.targets;
      forall t | t in targets
        ensures exists n :: 0 <= n < |mid| && RoutableTo(mid[n], id) && mid[n].route == Some(t)
                            && Reachable(mid[n], lease, v)
      {
        var j :| 0 <= j < |targets| && targets[j] == t;
        assert v.kept[j] in v.kept && mid[v.kept[j]].route == Some(t);
      }
      forall n: nat | n < |mid| && n in v.kept ensures mid[n].route.value in targets {
        var j :| 0 <= j < |v.kept| && v.kept[j] == n;
        assert targets[j] == mid[n].route.value;
      }
    }
  }

  /** What the `k`-th turn finds and sends. */
  ghost predicate TurnMeans(job: Job, mid: seq<Recipient>, round: nat, c: Call, k: nat, v: Visit) {
    && c.ResolveCall? && Resolved(c) && k < |c.instances|
    && match ResolvedState(c, k)
       case HasLease(lease) =>
         && lease.Some? && lease.value.instance == c.instances[k] && Future(lease.value.deadline, c.now)
         && At(v, job.world.turns(round, c.instances[k])) && SendsReached(mid, c.instances[k], lease.value, v)
         && (v.sent.Some? ==> v.sent.value.DeliverCall? && v.sent.value.lease == lease.value
                              && v.sent.value.round == round && v.sent.value.targets != [] && !v.late && !v.cut)
       case _ => v.sent.None?
  }

  lemma TurnHasMeaning(job: Job, mid: seq<Recipient>, round: nat, groups: map<string, seq<nat>>, c: Call,
                       visits: seq<Visit>, end: seq<Recipient>, over: bool, k: nat)
    requires DeliverHalf(job, mid, round, groups, Some(c), visits, end, over) && k < |visits|
    ensures TurnMeans(job, mid, round, c, k, visits[k])
  {
    hide DeliverStep, Reachable, SendsReached;
    assert TurnOk(c, k, groups, job, mid, visits[k]);
    var id := c.instances[k];
    GroupHasRoutes(groups, mid, id);
    assert forall n: nat :: InGroup(groups, id, n) <==> n in groups[id];
    assert ValidResolveItem(c.resolved.value.value[k], id, c.now);
    if ResolvedState(c, k).HasLease? {
      BatchSends(job.task, mid, round, groups[id], id, ResolvedState(c, k).lease.value, visits[k]);
    }
  }

  /** Of the round's delivery calls, only the turn of its own instance can ask for a recipient. */
  lemma AskedByOwnTurn(job: Job, task: PushTask, calls: seq<Call>, mid: seq<Recipient>, round: nat, c: Call, k: nat,
                       v: Visit, i: nat)
    requires TurnMeans(job, mid, round, c, k, v) && OneEach(mid) && i < |mid| && v.sent.Some?
    requires forall n | 0 <= n < |mid| :: Explained(task, calls, mid[n])
    ensures Asks(v.sent.value, mid[i].userId) <==>
              v.sent.value.DeliverCall? && Routable(mid[i]) && mid[i].route.value in v.sent.value.targets
              && mid[i].route.value.instance == c.instances[k]
              && ResolvedState(c, k).HasLease? && Reachable(mid[i], ResolvedState(c, k).lease.value, v)
  {
    hide Source, Rejects, WhyStopped, Reachable, Resolved;
    if Asks(v.sent.value, mid[i].userId) {
      var t :| t in v.sent.value.targets && t.user == mid[i].userId;
      var n :| 0 <= n < |mid| && RoutableTo(mid[n], c.instances[k]) && mid[n].route == Some(t)
          && Reachable(mid[n], ResolvedState(c, k).lease.value, v);
      assert n == i;
    }
  }

  /** One recipient across its own instance's turn. */
  lemma TurnExplains(job: Job, task: PushTask, calls: seq<Call>, mid: seq<Recipient>, round: nat, c: Call, k: nat,
                     v: Visit, i: nat, t: Recipient)
    requires TurnMeans(job, mid, round, c, k, v) && OneEach(mid) && i < |mid| && RoutableTo(mid[i], c.instances[k])
    requires forall n | 0 <= n < |mid| :: Explained(task, calls, mid[n])
    requires TurnStep(mid[i], t, ResolvedState(c, k), v)
    ensures t.userId == mid[i].userId
    ensures t.route.None? || (t.route == mid[i].route && t.routeDeadline == mid[i].routeDeadline)
    ensures t.stopped <==> v.sent.Some? && Rejects(v.sent.value, mid[i].userId)
  {
    if v.sent.Some? {
      AskedByOwnTurn(job, task, calls, mid, round, c, k, v, i);
    }
    hide Explained, SendsReached, Resolved, ValidDelivery, Timely, OneEach;
  }

  lemma DeliverExplains(job: Job, calls: seq<Call>, mid: seq<Recipient>, round: nat, groups: map<string, seq<nat>>,
                        resolve: Option<Call>, visits: seq<Visit>, end: seq<Recipient>, over: bool, i: nat)
    requires DeliverHalf(job, mid, round, groups, resolve, visits, end, over) && OneEach(mid) && i < |mid|
    requires forall n | 0 <= n < |mid| :: Explained(job.task, calls, mid[n])
    ensures |end| == |mid| && end[i].userId == mid[i].userId
    ensures Explained(job.task, calls + (Listed(resolve) + SentCalls(visits)), end[i])
  {
    var more, user := Listed(resolve) + SentCalls(visits), mid[i].userId;
    if resolve.None? || !Routable(mid[i]) {
      NobodyAsked(job, calls, mid, round, groups, resolve, visits, end, over, i);
      ExplainedMore(job.task, calls, more, mid[i]);
    } else {
      RoutableExplains(job, calls, mid, round, groups, resolve.value, visits, end, over, i);
      StepExplains(job.task, calls, more, mid[i], end[i]);
    }
  }

  lemma NobodyAsked(job: Job, calls: seq<Call>, mid: seq<Recipient>, round: nat, groups: map<string, seq<nat>>,
                    resolve: Option<Call>, visits: seq<Visit>, end: seq<Recipient>, over: bool, i: nat)
    requires DeliverHalf(job, mid, round, groups, resolve, visits, end, over) && OneEach(mid) && i < |mid|
    requires forall n | 0 <= n < |mid| :: Explained(job.task, calls, mid[n])
    requires resolve.None? || !Routable(mid[i])
    ensures forall c | c in Listed(resolve) + SentCalls(visits) :: !Asks(c, mid[i].userId)
  {
    hide DeliverHalf, Explained, OneEach, Asks;
    HalfShape(job, mid, round, groups, resolve, visits, end, over);
    forall c | c in SentCalls(visits) ensures !Asks(c, mid[i].userId) {
      SentMember(visits, c);
      var k :| 0 <= k < |visits| && visits[k].sent == Some(c);
      TurnHasMeaning(job, mid, round, groups, resolve.value, visits, end, over, k);
      AskedByOwnTurn(job, job.task, calls, mid, round, resolve.value, k, visits[k], i);
    }
    NotAResolve(resolve, mid[i].userId);
  }

  lemma NotAResolve(resolve: Option<Call>, user: string)
    requires resolve.Some? ==> resolve.value.ResolveCall?
    ensures forall c | c in Listed(resolve) :: !Asks(c, user)
  {
  }

  lemma HalfShape(job: Job, mid: seq<Recipient>, round: nat, groups: map<string, seq<nat>>, resolve: Option<Call>,
                  visits: seq<Visit>, end: seq<Recipient>, over: bool)
    requires DeliverHalf(job, mid, round, groups, resolve, visits, end, over)
    ensures |end| == |mid| && (resolve.None? ==> visits == [] && SentCalls(visits) == [])
    ensures resolve.Some? ==> resolve.value.ResolveCall? && Ascending(resolve.value.instances)
    ensures resolve.Some? && !Resolved(resolve.value) ==> visits == [] && SentCalls(visits) == []
    ensures forall i | 0 <= i < |mid| ::
              if Routable(mid[i]) && resolve.Some? then DeliverStep(mid[i], end[i], resolve.value, visits)
              else end[i] == mid[i]
  {
  }

  lemma RejectionStops(c: Call, user: string)
    requires Rejects(c, user)
    ensures Asks(c, user) && WhyStopped(c, user)
  {
  }

  lemma OnlyOwnTurnAsks(job: Job, calls: seq<Call>, mid: seq<Recipient>, round: nat, groups: map<string, seq<nat>>,
                        c: Call, visits: seq<Visit>, end: seq<Recipient>, over: bool, i: nat, k: nat)
    requires DeliverHalf(job, mid, round, groups, Some(c), visits, end, over) && OneEach(mid) && i < |mid|
    requires forall n | 0 <= n < |mid| :: Explained(job.task, calls, mid[n])
    requires c.ResolveCall? && k < |c.instances| && Routable(mid[i]) && c.instances[k] == mid[i].route.value.instance
    ensures forall d | d in SentCalls(visits) && Asks(d, mid[i].userId) :: k < |visits| && visits[k].sent == Some(d)
  {
    hide DeliverHalf, Explained, OneEach, Asks, SentCalls;
    HalfShape(job, mid, round, groups, Some(c), visits, end, over);
    AscendingDistinct(c.instances);
    forall d | d in SentCalls(visits) && Asks(d, mid[i].userId) ensures k < |visits| && visits[k].sent == Some(d) {
      SentMember(visits, d);
      var j :| 0 <= j < |visits| && visits[j].sent == Some(d);
      TurnHasMeaning(job, mid, round, groups, c, visits, end, over, j);
      AskedByOwnTurn(job, job.task, calls, mid, round, c, j, visits[j], i);
    }
  }

  lemma RoutableExplains(job: Job, calls: seq<Call>, mid: seq<Recipient>, round: nat, groups: map<string, seq<nat>>,
                         c: Call, visits: seq<Visit>, end: seq<Recipient>, over: bool, i: nat)
    requires DeliverHalf(job, mid, round, groups, Some(c), visits, end, over) && OneEach(mid) && i < |mid|
    requires forall n | 0 <= n < |mid| :: Explained(job.task, calls, mid[n])
    requires Routable(mid[i])
    ensures |end| == |mid| && end[i].userId == mid[i].userId
    ensures end[i].route.None? || (end[i].route == mid[i].route && end[i].routeDeadline == mid[i].routeDeadline)
    ensures end[i].stopped ==> exists d :: d in Listed(Some(c)) + SentCalls(visits) && WhyStopped(d, mid[i].userId)
    ensures forall d | d in Listed(Some(c)) + SentCalls(visits) && Rejects(d, mid[i].userId) :: end[i].stopped
  {
    hide DeliverHalf, Explained, OneEach, Asks, Final;
    var more, user := Listed(Some(c)) + SentCalls(visits), mid[i].userId;
    HalfShape(job, mid, round, groups, Some(c), visits, end, over);
    NotAResolve(Some(c), user);
    if !Resolved(c) {
      Unresolvable(mid[i], end[i], c, visits);
    } else {
      var k :| 0 <= k < |c.instances| && c.instances[k] == mid[i].route.value.instance
          && if k < |visits| then TurnStep(mid[i], end[i], ResolvedState(c, k), visits[k]) else end[i] == mid[i];
      OnlyOwnTurnAsks(job, calls, mid, round, groups, c, visits, end, over, i, k);
      hide Rejects, WhyStopped, DeliverStep, Resolved, SentCalls;
      if k < |visits| {
        TurnHasMeaning(job, mid, round, groups, c, visits, end, over, k);
        TurnExplains(job, job.task, calls, mid, round, c, k, visits[k], i, end[i]);
        if end[i].stopped {
          SentMember(visits, visits[k].sent.value);
          RejectionStops(visits[k].sent.value, user);
          assert visits[k].sent.value in more;
        }
      }
      forall d | d in more && Rejects(d, user) ensures end[i].stopped {
        RejectionStops(d, user);
        assert d in Listed(Some(c)) || d in SentCalls(visits);
      }
    }
  }

  /** A resolution that fails leaves the routes alone, forgets them, or gives its recipients up for good. */
  lemma Unresolvable(s: Recipient, t: Recipient, c: Call, visits: seq<Visit>)
    requires DeliverStep(s, t, c, visits) && !Resolved(c) && Routable(s)
    ensures t.userId == s.userId
    ensures t.route.None? || (t.route == s.route && t.routeDeadline == s.routeDeadline)
    ensures t.stopped ==> WhyStopped(c, s.userId)
  {
    hide ValidResolutions;
  }

  // ----- whole runs -----

  predicate SameUsers(a: seq<Recipient>, b: seq<Recipient>) {
    |a| == |b| && forall i | 0 <= i < |a| :: a[i].userId == b[i].userId
  }

  ghost predicate AllExplained(task: PushTask, calls: seq<Call>, states: seq<Recipient>) {
    forall n | 0 <= n < |states| :: Explained(task, calls, states[n])
  }

  lemma LookupHalfExplains(job: Job, calls: seq<Call>, start: seq<Recipient>, repaired: bool, round: nat,
                           batch: seq<nat>, lookup: Option<Call>, mid: seq<Recipient>)
    requires LookupHalf(start, repaired, round, batch, lookup, mid) && OneEach(start)
    requires AllExplained(job.task, calls, start) && (repaired ==> HasRepair(calls))
    ensures SameUsers(start, mid) && AllExplained(job.task, calls + Listed(lookup), mid)
  {
    if a :| repaired && 0 <= a < |calls| && calls[a].LookupCall? && calls[a].repairs != {} {
      assert calls[a] in calls;
    }
    forall i | 0 <= i < |start|
      ensures mid[i].userId == start[i].userId && Explained(job.task, calls + Listed(lookup), mid[i])
    {
      LookupAsksChosen(start, repaired, round, batch, lookup, mid, i);
      hide Explained, LookupStep, Chosen, HasRepair, OneEach, Picks, LookupOf, Listed;
      LookupExplains(job.task, calls, repaired, lookup, start[i], mid[i]);
    }
  }

  lemma RoundExplains(job: Job, round: nat, log: RoundLog, over: bool, calls: seq<Call>)
    requires RoundOk(job, round, log, over) && OneEach(log.start)
    requires AllExplained(job.task, calls, log.start) && (log.repaired ==> HasRepair(calls))
    ensures SameUsers(log.start, log.mid) && AllExplained(job.task, calls + Listed(log.lookup), log.mid)
    ensures SameUsers(log.start, log.end) && AllExplained(job.task, calls + CallsOf(log), log.end)
  {
    hide LookupHalf, DeliverHalf, Explained, HasRepair, Listed, SentCalls;
    LookupHalfExplains(job, calls, log.start, log.repaired, round, log.batch, log.lookup, log.mid);
    var sofar := calls + Listed(log.lookup);
    forall i | 0 <= i < |log.mid|
      ensures |log.end| == |log.mid| && log.end[i].userId == log.mid[i].userId
      ensures Explained(job.task, sofar + (Listed(log.resolve) + SentCalls(log.visits)), log.end[i])
    {
      DeliverExplains(job, sofar, log.mid, round, log.groups, log.resolve, log.visits, log.end, over, i);
    }
    HalfLength(job, round, log, over);
    assert sofar + (Listed(log.resolve) + SentCalls(log.visits)) == calls + CallsOf(log);
  }

  lemma HalfLength(job: Job, round: nat, log: RoundLog, over: bool)
    requires RoundOk(job, round, log, over)
    ensures |log.end| == |log.mid| == |log.start|
  {
    hide LookupStep, Picks, DeliverStep, GroupsOf;
  }

  lemma FirstExplained(task: PushTask, first: seq<Recipient>)
    requires Initial(task, first) && L.Distinct(Scope(task))
    ensures OneEach(first) && AllExplained(task, [], first)
  {
  }

  lemma {:induction false} RunExplained(job: Job, first: seq<Recipient>, logs: seq<RoundLog>, over: bool)
    requires Rounds(job, first, logs, over) && Initial(job.task, first) && L.Distinct(Scope(job.task))
    ensures OneEach(first) && SameUsers(first, LastStates(first, logs))
    ensures AllExplained(job.task, AllCalls(logs), LastStates(first, logs))
  {
    FirstExplained(job.task, first);
    if logs != [] {
      var earlier, log := logs[..|logs| - 1], logs[|logs| - 1];
      RunExplained(job, first, earlier, false);
      RepairedMeans(job, first, earlier, false);
      hide RoundOk, Initial, CallsOf, HasRepair, AllExplained;
      RoundExplains(job, |logs|, log, over, AllCalls(earlier));
    }
  }

  /** A run's round: it is one of the engine's, on what the earlier ones left. */
  lemma {:induction false} AtRound(job: Job, first: seq<Recipient>, logs: seq<RoundLog>, over: bool, p: nat)
    requires Rounds(job, first, logs, over) && p < |logs|
    ensures Rounds(job, first, logs[..p], false) && RoundOk(job, p + 1, logs[p], over && p + 1 == |logs|)
    ensures logs[p].start == LastStates(first, logs[..p]) && (logs[p].repaired <==> RepairedIn(logs[..p]))
    ensures AllCalls(logs[..p + 1]) == AllCalls(logs[..p]) + CallsOf(logs[p])
    decreases |logs|
  {
    hide RoundOk, CallsOf, RepairsNow;
    var n := |logs| - 1;
    assert logs[..p + 1][..p] == logs[..p];
    if p < n {
      AtRound(job, first, logs[..n], false, p);
      assert logs[..n][..p] == logs[..p] && logs[..n][..p + 1] == logs[..p + 1];
    } else {
      assert logs[..p + 1] == logs;
    }
  }

  /** Where a round of a run starts, and what ties its recipients to the calls before it and in it. */
  lemma RoundFacts(job: Job, h: History, p: nat)
    requires HistoryOf(job, h) && L.Distinct(Scope(job.task)) && p < |h.logs|
    ensures var log, before := h.logs[p], AllCalls(h.logs[..p]);
            && RoundOk(job, p + 1, log, h.cancelled && p + 1 == |h.logs|)
            && OneEach(log.start) && OneEach(log.mid)
            && SameUsers(h.first, log.start) && SameUsers(log.start, log.mid)
            && AllExplained(job.task, before, log.start)
            && AllExplained(job.task, before + Listed(log.lookup), log.mid)
            && (log.repaired <==> HasRepair(before))
  {
    hide Initial, RoundOk, AllCalls, LastStates, RepairedIn, HasRepair, AllExplained, CallsOf, Listed;
    AtRound(job, h.first, h.logs, h.cancelled, p);
    RunExplained(job, h.first, h.logs[..p], false);
    RepairedMeans(job, h.first, h.logs[..p], false);
    RoundExplains(job, p + 1, h.logs[p], h.cancelled && p + 1 == |h.logs|, AllCalls(h.logs[..p]));
  }

  // ----- what a run guarantees -----

  /**
   Nobody is given up without a reason among the calls: one for it, or a resolution, failed for good, or a repair was
   made or wanted that brought no route.
   */
  lemma StoppedForAReason(job: Job, h: History, i: nat)
    requires HistoryOf(job, h) && L.Distinct(Scope(job.task)) && i < |h.final|
    ensures h.final[i].stopped ==> exists c :: c in h.trace && WhyStopped(c, h.final[i].userId)
  {
    hide Initial, Rounds, AllCalls, LastStates, WhyStopped, Rejects, Source;
    RunExplained(job, h.first, h.logs, h.cancelled);
    assert Explained(job.task, h.trace, h.final[i]);
  }

  /** Once a call for a user failed for good, no later round asks for that user again, nor does its own round. */
  lemma NoRetryAfterRejection(job: Job, h: History, p: nat, user: string, c: Call, d: Call)
    requires HistoryOf(job, h) && L.Distinct(Scope(job.task)) && p < |h.logs| && Rejects(c, user)
    requires (c in AllCalls(h.logs[..p]) && d in CallsOf(h.logs[p]))
             || (h.logs[p].lookup == Some(c) && d in SentCalls(h.logs[p].visits))
    ensures !Asks(d, user)
  {
    hide HistoryOf, AllCalls, Rejects, Asks, LookupHalf, DeliverHalf, OneEach, HasRepair, Source, WhyStopped;
    RoundFacts(job, h, p);
    var log, before, over := h.logs[p], AllCalls(h.logs[..p]), h.cancelled && p + 1 == |h.logs|;
    if Asks(d, user) {
      if d in SentCalls(log.visits) {
        SentMember(log.visits, d);
        var k :| 0 <= k < |log.visits| && log.visits[k].sent == Some(d);
        RoutableWhenSent(job, before + Listed(log.lookup), p + 1, log, over, k, user);
      } else {
        HalfShape(job, log.mid, p + 1, log.groups, log.resolve, log.visits, log.end, over);
        NotAResolve(log.resolve, user);
        ChosenWhenAsked(p + 1, log, user);
      }
    }
  }

  lemma RoutableWhenSent(job: Job, calls: seq<Call>, round: nat, log: RoundLog, over: bool, k: nat, user: string)
    requires RoundOk(job, round, log, over) && OneEach(log.mid) && AllExplained(job.task, calls, log.mid)
    requires k < |log.visits| && log.visits[k].sent.Some? && Asks(log.visits[k].sent.value, user)
    ensures forall c | c in calls :: !Rejects(c, user)
  {
    hide LookupHalf, DeliverHalf, Rejects, WhyStopped, Source;
    HalfShape(job, log.mid, round, log.groups, log.resolve, log.visits, log.end, over);
    TurnHasMeaning(job, log.mid, round, log.groups, log.resolve.value, log.visits, log.end, over, k);
    var d := log.visits[k].sent.value;
    var t :| t in d.targets && t.user == user;
    var n :| 0 <= n < |log.mid| && RoutableTo(log.mid[n], log.resolve.value.instances[k])
        && log.mid[n].route == Some(t);
    assert Explained(job.task, calls, log.mid[n]);
  }

  lemma ChosenWhenAsked(round: nat, log: RoundLog, user: string)
    requires log.lookup.Some? && Asks(log.lookup.value, user)
    requires LookupHalf(log.start, log.repaired, round, log.batch, log.lookup, log.mid)
    ensures exists n :: 0 <= n < |log.start| && log.start[n].userId == user && !log.start[n].stopped
  {
    hide LookupStep;
    var j :| 0 <= j < |log.lookup.value.users| && log.lookup.value.users[j] == user;
    assert log.batch[j] in log.batch;
  }

  /** The deadline, if there is one, lies behind neither reading. */
  predicate Outlives(deadline: Option<int>, first: int, second: int) {
    deadline.Some? ==> first < deadline.value && second < deadline.value
  }

  /**
   A delivery is made only after its address answered, to a lease that both readings of the clock find live, and every
   route in it is a hint or what an earlier lookup gave for that user, with a deadline that both readings find ahead.
   */
  lemma DeliveredOnTime(job: Job, h: History, p: nat, d: Call)
    requires HistoryOf(job, h) && L.Distinct(Scope(job.task)) && p < |h.logs|
    requires d.DeliverCall? && d in CallsOf(h.logs[p])
    ensures var at, earlier := job.world.turns(d.round, d.lease.instance),
              AllCalls(h.logs[..p]) + Listed(h.logs[p].lookup);
            && d.round == p + 1 && at.dialled && !at.late
            && d.lease.deadline.Some? && Outlives(d.lease.deadline, at.first.lease, at.second.lease)
            && forall t | t in d.targets ::
                 exists deadline :: Source(job.task, earlier, t, deadline)
                                    && Outlives(deadline, at.first.route, at.second.route)
  {
    hide HistoryOf, AllCalls, LookupHalf, DeliverHalf, AllExplained, OneEach, SameUsers, HasRepair, TurnMeans, Source;
    RoundFacts(job, h, p);
    var log, over := h.logs[p], h.cancelled && p + 1 == |h.logs|;
    var calls := AllCalls(h.logs[..p]) + Listed(log.lookup);
    HalfShape(job, log.mid, p + 1, log.groups, log.resolve, log.visits, log.end, over);
    LookupNotDelivery(p + 1, log);
    SentMember(log.visits, d);
    var k :| 0 <= k < |log.visits| && log.visits[k].sent == Some(d);
    TurnHasMeaning(job, log.mid, p + 1, log.groups, log.resolve.value, log.visits, log.end, over, k);
    TargetsOnTime(job, calls, log.mid, p + 1, log.resolve.value, k, log.visits[k]);
  }

  lemma LookupNotDelivery(round: nat, log: RoundLog)
    requires LookupHalf(log.start, log.repaired, round, log.batch, log.lookup, log.mid)
    ensures forall c | c in Listed(log.lookup) :: c.LookupCall?
  {
    hide LookupStep, Picks;
  }

  lemma TargetsOnTime(job: Job, calls: seq<Call>, mid: seq<Recipient>, round: nat, c: Call, k: nat, v: Visit)
    requires TurnMeans(job, mid, round, c, k, v) && AllExplained(job.task, calls, mid) && v.sent.Some?
    ensures var d := v.sent.value;
            && d.DeliverCall? && d.round == round
            && var at := job.world.turns(round, d.lease.instance);
            && at.dialled && !at.late
            && d.lease.deadline.Some? && Outlives(d.lease.deadline, at.first.lease, at.second.lease)
            && forall t | t in d.targets ::
                 exists deadline :: Source(job.task, calls, t, deadline)
                                    && Outlives(deadline, at.first.route, at.second.route)
  {
    hide Resolved, Source, Rejects, WhyStopped;
    assert v.sent.value.targets[0] in v.sent.value.targets;
    forall t | t in v.sent.value.targets
      ensures exists deadline :: Source(job.task, calls, t, deadline)
                                 && Outlives(deadline, v.first.route, v.second.route)
    {
      var n :| 0 <= n < |mid| && RoutableTo(mid[n], c.instances[k]) && mid[n].route == Some(t)
          && Reachable(mid[n], ResolvedState(c, k).lease.value, v);
      assert Explained(job.task, calls, mid[n]);
      assert Source(job.task, calls, t, mid[n].routeDeadline);
    }
  }

  /**
   Nobody who can be helped is passed over. In each round, whoever is unresolved and not given up, without a route, is
   looked up, unless it waits for a repair and one was made before. And whoever then has a route is in the round's
   resolution, unless time ran out; if the answer names a lease that lasts through both checks, as the route does, and
   the address answers in time, then the route is delivered to.
   */
  lemma NobodyForgotten(job: Job, h: History, p: nat, i: nat)
    requires HistoryOf(job, h) && L.Distinct(Scope(job.task)) && p < |h.logs| && i < |h.logs[p].start|
    ensures var log, s := h.logs[p], h.logs[p].start[i];
            && (s.outcome == Unresolved && !s.stopped && s.route.None?
                && !(s.repair && HasRepair(AllCalls(h.logs[..p]))) ==>
                  log.lookup.Some? && log.lookup.value.LookupCall? && s.userId in log.lookup.value.users)
            && |log.mid| == |log.start| && log.mid[i].userId == s.userId
    ensures var log, t := h.logs[p], h.logs[p].mid[i];
            (p + 1 < |h.logs| || !h.cancelled) && t.outcome == Unresolved && !t.stopped && t.route.Some? ==>
              log.resolve.Some? && Helped(job, p + 1, log, t)
  {
    hide HistoryOf, AllCalls, LookupHalf, DeliverHalf, AllExplained, OneEach, HasRepair, Helped, CallsOf;
    RoundFacts(job, h, p);
    var log, over := h.logs[p], h.cancelled && p + 1 == |h.logs|;
    LookupAsksChosen(log.start, log.repaired, p + 1, log.batch, log.lookup, log.mid, i);
    if !over && Routable(log.mid[i]) {
      RoutedIsHelped(job, p + 1, log, i);
    }
  }

  /** The resolution asks for the route's instance, and a good answer and a turn that is in time bring the delivery. */
  ghost predicate Helped(job: Job, round: nat, log: RoundLog, t: Recipient)
    requires log.resolve.Some? && t.route.Some?
  {
    var c, id, at := log.resolve.value, t.route.value.instance, job.world.turns(round, t.route.value.instance);
    && c.ResolveCall? && id in c.instances
    && forall k: nat, lease: Lease | k < |c.instances| && c.instances[k] == id && Resolved(c)
         && ResolvedState(c, k) == HasLease(Some(lease)) && lease.deadline.Some?
         && Outlives(lease.deadline, at.first.lease, at.second.lease) && at.dialled && !at.late
         && Outlives(t.routeDeadline, at.first.route, at.second.route) ::
           exists d :: d in SentCalls(log.visits) && d.DeliverCall? && d.lease == lease && t.route.value in d.targets
  }

  lemma RoutedIsHelped(job: Job, round: nat, log: RoundLog, i: nat)
    requires RoundOk(job, round, log, false) && i < |log.mid| && Routable(log.mid[i])
    ensures log.resolve.Some? && Helped(job, round, log, log.mid[i])
  {
    var t, id := log.mid[i], log.mid[i].route.value.instance;
    AllResolved(job, round, log, i);
    hide LookupHalf, DeliverHalf, ValidResolutions;
    var c, at := log.resolve.value, job.world.turns(round, id);
    forall k: nat, lease: Lease | k < |c.instances| && c.instances[k] == id && Resolved(c)
      && ResolvedState(c, k) == HasLease(Some(lease)) && lease.deadline.Some?
      && Outlives(lease.deadline, at.first.lease, at.second.lease) && at.dialled && !at.late
      && Outlives(t.routeDeadline, at.first.route, at.second.route)
      ensures exists d :: d in SentCalls(log.visits) && d.DeliverCall? && d.lease == lease && t.route.value in d.targets
    {
      TurnHasMeaning(job, log.mid, round, log.groups, c, log.visits, log.end, false, k);
      assert Reachable(t, lease, log.visits[k]);
      SentMember(log.visits, log.visits[k].sent.value);
    }
  }

  lemma AllResolved(job: Job, round: nat, log: RoundLog, i: nat)
    requires RoundOk(job, round, log, false) && i < |log.mid| && Routable(log.mid[i])
    ensures log.resolve.Some? && log.resolve.value.ResolveCall?
    ensures log.mid[i].route.value.instance in log.resolve.value.instances
    ensures Resolved(log.resolve.value) ==> |log.visits| == |log.resolve.value.instances|
    ensures forall k | 0 <= k < |log.visits| :: !log.visits[k].cut
  {
    hide LookupHalf, DeliverStep, TurnOk, ValidResolutions;
    assert InGroup(log.groups, log.mid[i].route.value.instance, i);
  }

  // ----- what is reported -----

  /** A delivery's answer for the call's own task and targets, one by one and in order, gives the user this code. */
  predicate Told(c: Call, user: string, code: int) {
    && c.DeliverCall? && c.delivered.Reply? && c.delivered.value.Some?
    && c.delivered.value.value.taskId == c.taskId && c.delivered.value.value.messageId == c.messageId
    && var results := c.delivered.value.value.results;
    && |results| == |c.targets|
    && (forall j | 0 <= j < |results| ::
          && results[j].Some? && results[j].value.target == Some(c.targets[j]) && 1 <= results[j].value.outcome <= 6)
    && exists j :: 0 <= j < |results| && c.targets[j].user == user && results[j].value.outcome == code
  }

  /** A lookup's answer, good for every user asked for, says that this one is offline. */
  predicate ToldOffline(c: Call, user: string) {
    && c.LookupCall? && c.found.Reply? && ValidLookups(c.found.value, c.users, c.now)
    && exists j :: 0 <= j < |c.users| && c.users[j] == user && c.found.value.value[j].value.state.IsOffline?
  }

  /**
   A user is reported enqueued exactly if a delivery said so (code 1), duplicate exactly if one said so (code 2), and
   offline exactly if a lookup did; whoever is none of these is unresolved, with a reason.
   */
  lemma ReportMeaning(trace: seq<Call>, r: RecipientResult)
    requires Grounded(trace, r)
    ensures r.outcome == Enqueued <==> exists c :: c in trace && Told(c, r.userId, 1)
    ensures r.outcome == Duplicate <==> exists c :: c in trace && Told(c, r.userId, 2)
    ensures r.outcome == Offline <==> exists c :: c in trace && ToldOffline(c, r.userId)
    ensures r.outcome == Unresolved <==> r.reason != NoReason
  {
    SettledMeans(trace, r.userId);
    assert r.outcome == Enqueued <==> SettledBy(trace, r.userId, Enqueued);
    assert r.outcome == Duplicate <==> SettledBy(trace, r.userId, Duplicate);
    assert r.outcome == Offline <==> SettledBy(trace, r.userId, Offline);
    hide SettledBy, Told, ToldOffline;
  }

  lemma SettledMeans(trace: seq<Call>, user: string)
    ensures SettledBy(trace, user, Enqueued) <==> exists c :: c in trace && Told(c, user, 1)
    ensures SettledBy(trace, user, Duplicate) <==> exists c :: c in trace && Told(c, user, 2)
    ensures SettledBy(trace, user, Offline) <==> exists c :: c in trace && ToldOffline(c, user)
  {
    forall c: Call
      ensures SettledAs(c, user, Enqueued) <==> Told(c, user, 1)
      ensures SettledAs(c, user, Duplicate) <==> Told(c, user, 2)
      ensures SettledAs(c, user, Offline) <==> ToldOffline(c, user)
    {
      CallMeans(c, user);
    }
    hide SettledAs, Told, ToldOffline;
    forall c | c in trace ensures exists a :: 0 <= a < |trace| && trace[a] == c {
    }
  }

  lemma CallMeans(c: Call, user: string)
    ensures SettledAs(c, user, Enqueued) <==> Told(c, user, 1)
    ensures SettledAs(c, user, Duplicate) <==> Told(c, user, 2)
    ensures SettledAs(c, user, Offline) <==> ToldOffline(c, user)
  {
    hide L.ValidConnection;
    if Told(c, user, 1) {
      var j: nat :| j < |c.targets| && c.targets[j].user == user
                    && c.delivered.value.value.results[j].value.outcome == 1;
      assert DeliveredAt(c, j, user, Enqueued);
    }
    if Told(c, user, 2) {
      var j: nat :| j < |c.targets| && c.targets[j].user == user
                    && c.delivered.value.value.results[j].value.outcome == 2;
      assert DeliveredAt(c, j, user, Duplicate);
    }
    if ToldOffline(c, user) {
      var j: nat :| j < |c.users| && c.users[j] == user && c.found.value.value[j].value.state.IsOffline?;
      assert OfflineAt(c, j, user);
    }
  }
}
