/** One run of Job's engine over one task: recipients are updated in place, round by round. */
module DeliveryRun {
  import opened Wrappers
  import opened Identifiers
  import opened ByteOrder
  import opened PushTasks
  import opened DeliveryEngine
  import opened DeliverySteps
  import opened DeliveryLemmas
  import L = LeaseScript

  const ROUNDS := 3

  datatype Result = Result(task: PushTask, recipients: seq<RecipientResult>, attempts: nat)

  function PendingRecipients(results: seq<RecipientResult>): (ids: seq<string>) {
    if results == [] then []
    else
      var last := results[|results| - 1];
      PendingRecipients(results[..|results| - 1]) + (if last.outcome == Unresolved then [last.userId] else [])
  }

  /** Before the first round: nobody settled, and routes only from the hints of a task that was not replayed. */
  predicate Initial(task: PushTask, states: seq<Recipient>) {
    && |states| == |Scope(task)|
    && forall i | 0 <= i < |states| ::
         && states[i] == Recipient(Scope(task)[i], Unresolved, NoReason, states[i].route, None, false, false)
         && (states[i].route.Some? ==>
               task.pending.None? && states[i].route.value in task.targets
               && states[i].route.value.user == Scope(task)[i])
         && (states[i].route.None? && task.pending.None? ==> forall t | t in task.targets :: t.user != Scope(task)[i])
  }

  function Fresh(user: string, hints: map<string, L.Tuple>): Recipient {
    Recipient(user, Unresolved, NoReason, if user in hints then Some(hints[user]) else None, None, false, false)
  }

  /** The hints by user; a replayed task has none. */
  predicate HintMap(task: PushTask, hints: map<string, L.Tuple>) {
    && (forall u | u in hints :: task.pending.None? && hints[u].user == u && hints[u] in task.targets)
    && (task.pending.None? ==> forall t | t in task.targets :: t.user in hints)
  }

  method Hints(task: PushTask) returns (hints: map<string, L.Tuple>)
    ensures HintMap(task, hints)
  {
    hints := map[];
    if task.pending.None? {
      for k := 0 to |task.targets|
        invariant forall u | u in hints :: hints[u].user == u && hints[u] in task.targets
        invariant forall j | 0 <= j < k :: task.targets[j].user in hints
      {
        hints := hints[task.targets[k].user := task.targets[k]];
      }
    }
  }

  lemma FreshIs(user: string, hints: map<string, L.Tuple>, s: Recipient)
    requires s == Recipient(user, Unresolved, NoReason, s.route, None, false, false)
    requires s.route == if user in hints then Some(hints[user]) else None
    ensures s == Fresh(user, hints)
  {
  }

  lemma FreshStart(task: PushTask, hints: map<string, L.Tuple>, states: seq<Recipient>)
    requires HintMap(task, hints) && L.Distinct(Scope(task)) && |states| == |Scope(task)|
    requires forall i | 0 <= i < |states| :: states[i] == Fresh(Scope(task)[i], hints)
    ensures Initial(task, states) && Tracked(task, Scope(task), states, []) && GoodTrace(task, [])
    ensures Budget(false, [], 0)
  {
    hide Settles, Asks, SettledAs;
  }

  class Run {
    const task: PushTask
    const world: World
    const ids: seq<string>
    var states: seq<Recipient>
    var repaired: bool
    var attempts: nat
    var cancelled: bool
    /** How often the engine has looked at its time budget. */
    var polls: nat
    ghost var trace: seq<Call>

    ghost predicate Valid()
      reads this
    {
      && Tracked(task, ids, states, trace) && GoodTrace(task, trace)
      && Budget(repaired, trace, attempts)
      && ids == Scope(task) && AllAnswered(world, trace) && (cancelled ==> exists k: nat :: world.expired(k))
    }

    constructor (task: PushTask, world: World)
      requires L.Distinct(Scope(task))
      requires ValidTargets(task.recipients, task.targets)
      ensures Valid() && this.task == task && this.world == world && ids == Scope(task)
      ensures attempts == 0 && trace == [] && !repaired && !cancelled && Initial(task, states)
    {
      this.task, this.world, ids, polls := task, world, Scope(task), 0;
      states, repaired, attempts, cancelled, trace := [], false, 0, false, [];
      new;
      hide Tracked, GoodTrace, Initial, HintMap, L.ValidConnection, Budget, Scope, Fresh;
      var hints := Hints(task);
      for k := 0 to |ids|
        invariant |states| == k && attempts == 0 && trace == [] && !repaired && !cancelled
        invariant forall i | 0 <= i < k :: states[i] == Fresh(ids[i], hints)
      {
        var route := if ids[k] in hints then Some(hints[ids[k]]) else None;
        states := states + [Recipient(ids[k], Unresolved, NoReason, route, None, false, false)];
        FreshIs(ids[k], hints, states[k]);
      }
      FreshStart(task, hints, states);
    }

    /** The task's budget may run out at any moment and never comes back. */
    method Poll() returns (over: bool)
      requires cancelled ==> exists k: nat :: world.expired(k)
      modifies this`cancelled, this`polls
      ensures cancelled == over && (old(cancelled) ==> over)
      ensures cancelled ==> exists k: nat :: world.expired(k)
    {
      if world.expired(polls) {
        cancelled := true;
      }
      polls := polls + 1;
      over := cancelled;
    }

    method Mark(batch: seq<nat>, reason: Reason)
      requires Open(states, batch)
      modifies this`states
      ensures OnlyChanges(old(states), states, batch) && SoftAll(old(states), states)
      ensures forall n | n in batch :: states[n] == old(states)[n].(reason := reason)
    {
      for k := 0 to |batch|
        invariant OnlyChanges(old(states), states, batch[..k])
        invariant forall j | 0 <= j < k :: states[batch[j]] == old(states)[batch[j]].(reason := reason)
      {
        states := states[batch[k] := states[batch[k]].(reason := reason)];
      }
    }

    method Repair(batch: seq<nat>, reason: Reason)
      requires Open(states, batch)
      modifies this`states
      ensures OnlyChanges(old(states), states, batch) && SoftAll(old(states), states)
      ensures forall n | n in batch :: states[n] == Repaired(old(states)[n], reason)
    {
      for k := 0 to |batch|
        invariant OnlyChanges(old(states), states, batch[..k])
        invariant forall j | 0 <= j < k :: states[batch[j]] == Repaired(old(states)[batch[j]], reason)
      {
        states := states[batch[k] :=
          states[batch[k]].(route := None, routeDeadline := None, repair := true, reason := reason)];
      }
    }

    method RpcFailure(batch: seq<nat>, error: RpcError, refresh: bool)
      requires Open(states, batch)
      modifies this`states
      ensures OnlyChanges(old(states), states, batch) && SoftAll(old(states), states)
      ensures forall n | n in batch :: states[n] == Failed(old(states)[n], error, refresh)
    {
      var permanent := error.code in {InvalidArgument, PermissionDenied, Unauthenticated, AlreadyExists, Unimplemented};
      var again := refresh;
      for k := 0 to |error.details|
        invariant permanent <==> Permanent(RpcError(error.code, error.details[..k]))
        invariant again == WantsRefresh(error.details[..k], refresh)
      {
        assert error.details[..k + 1] == error.details[..k] + [error.details[k]];
        match error.details[k]
        case DoNotRetry => permanent := true;
        case Reauthenticate => permanent := true;
        case SameRequest => again := false;
        case RefreshRoute => again := true;
        case _ =>
      }
      assert error.details[..|error.details|] == error.details;
      if permanent {
        for k := 0 to |batch|
          invariant OnlyChanges(old(states), states, batch[..k])
          invariant forall j | 0 <= j < k ::
                      states[batch[j]] == old(states)[batch[j]].(reason := DeliveryRejected, stopped := true)
        {
          states := states[batch[k] := states[batch[k]].(reason := DeliveryRejected, stopped := true)];
        }
      } else if again {
        Repair(batch, DependencyFailure);
      } else {
        Mark(batch, DependencyFailure);
      }
    }

    /** Drops recipients whose route or instance lease has run out; dropped ones need a repair. */
    method Eligible(batch: seq<nat>, lease: Lease, r: Reading) returns (kept: seq<nat>)
      requires Open(states, batch)
      modifies this`states
      ensures SoftAll(old(states), states) && Sifted(kept, old(states), states, batch, lease, r)
    {
      ghost var before := states;
      if !Future(lease.deadline, r.lease) {
        Repair(batch, RouteChanged);
        return [];
      }
      kept := [];
      for k := 0 to |batch|
        invariant SiftedBelow(kept, before, states, batch, k, r.route)
      {
        var s := states[batch[k]];
        ghost var sofar, fewer := states, kept;
        if s.routeDeadline.Some? && s.routeDeadline.value <= r.route {
          states := states[batch[k] :=
            s.(route := None, routeDeadline := None, repair := true, reason := RouteChanged)];
        } else {
          kept := kept + [batch[k]];
        }
        SiftedNext(fewer, kept, before, sofar, states, batch, k, r.route);
      }
      AllSifted(kept, before, states, batch, lease, r);
    }

    /** Asks for the batch's routes and takes the answer in, each user by its own entry. */
    method Lookup(batch: seq<nat>) returns (ghost c: Call)
      requires Valid() && Open(states, batch)
      requires forall j | 0 <= j < |batch| :: states[batch[j]].route.None?
      requires (exists j | 0 <= j < |batch| :: states[batch[j]].repair) ==>
                 repaired && forall a | 0 <= a < |trace| :: !IsRepair(trace[a])
      requires forall a | 0 <= a < |trace| :: trace[a].round < attempts
      modifies this`states, this`trace
      ensures Valid() && OnlyChanges(old(states), states, batch)
      ensures trace == old(trace) + [c] && LookupOf(c, old(states), batch, attempts)
      ensures forall n | n in batch :: Asked(old(states)[n], states[n], c)
    {
      var users := UsersOf(ids, batch);
      ghost var before := states;
      ghost var repairs := set j | 0 <= j < |batch| && states[batch[j]].repair :: users[j];
      var (found, now) := world.lookups(attempts, users);
      c := LookupCall(attempts, users, repairs, found, now);
      AnsweredMore(world, trace, c);
      LookupKeepsTrace(task, ids, states, trace, repaired, attempts, batch, c);
      LabelsUsers(ids, states, batch, c, attempts);
      hide Tracked, GoodTrace, ValidLookups, SoftAll, Settles, Asks, IsRepair, LookupOf;
      match found {
        case Error(error) =>
          RpcFailure(batch, error, false);
          QuietLookup(c);
          RecordQuiet(task, ids, before, states, trace, c);
        case Reply(reply) =>
          if !ValidLookups(reply, users, now) {
            Mark(batch, InvalidResponse);
            QuietLookup(c);
            RecordQuiet(task, ids, before, states, trace, c);
          } else {
            TakeLookups(batch, users, reply.value, now);
            LookupTracked(task, ids, before, states, trace, batch, c);
            AskedEntries(ids, before, states, batch, c);
          }
      }
      trace := trace + [c];
    }

    method TakeLookups(batch: seq<nat>, users: seq<string>, items: seq<Option<LookupItem>>, now: int)
      requires Open(states, batch) && |users| == |batch| && ValidLookups(Some(items), users, now)
      modifies this`states
      ensures OnlyChanges(old(states), states, batch)
      ensures forall j | 0 <= j < |batch| ::
                !items[j].value.state.NoRouteState?
                && states[batch[j]] == Looked(old(states)[batch[j]], items[j].value.state)
    {
      hide L.ValidConnection;
      for k := 0 to |batch|
        invariant OnlyChanges(old(states), states, batch[..k])
        invariant forall j | 0 <= j < k ::
                    !items[j].value.state.NoRouteState?
                    && states[batch[j]] == Looked(old(states)[batch[j]], items[j].value.state)
      {
        var s := states[batch[k]];
        assert ValidLookupItem(items[k], users[k], now);
        match items[k].value.state
        case HasRoute(identity, _, deadline) =>
          states := states[batch[k] := s.(route := identity, routeDeadline := deadline, repair := false)];
        case IsOffline(_) =>
          states := states[batch[k] := s.(outcome := Offline, reason := NoReason)];
      }
    }

    /** Delivers one instance's batch, if its members and the lease are still good when it comes to that. */
    method DeliverTo(lease: Lease, batch: seq<nat>, at: Circumstances) returns (ghost v: Visit)
      requires Valid() && Routed(states, batch, lease.instance)
      requires ResolvedBefore(trace, attempts, lease)
      requires NotYetServed(ids, trace, attempts, batch) && Unvisited(trace, attempts, lease.instance)
      modifies this`states, this`trace, this`cancelled, this`polls
      ensures Valid() && (old(cancelled) ==> cancelled)
      ensures At(v, at) && (v.cut ==> cancelled)
      ensures trace == old(trace) + Listed(v.sent) && Visited(task, old(states), states, batch, lease, v, attempts)
      ensures v.sent.Some? ==> forall u | Asks(v.sent.value, u) :: exists j :: 0 <= j < |batch| && ids[batch[j]] == u
    {
      TrackedParts(task, ids, states, trace);
      hide Tracked, GoodTrace, SoftAll, Asks, ResolvedBefore, NotYetServed, Unvisited, Served, LocalOk, Budget, Sifted;
      hide VisitStep, Sent, Visited;
      ghost var start := states;
      v := Visit(at.first, at.dialled, at.second, at.late, false, [], None);
      var ready := Eligible(batch, lease, at.first);
      ghost var sifted := states;
      TrackedSoft(task, ids, start, states, trace);
      if ready == [] {
        VisitedNobody(task, start, states, batch, lease, v, attempts);
        return;
      }
      ReadyRouted(start, states, batch, ready, lease, at.first);
      if !at.dialled {
        Mark(ready, DependencyFailure);
        TrackedSoft(task, ids, sifted, states, trace);
        Undialled(task, start, sifted, states, batch, ready, lease, v, attempts);
        return;
      }
      var kept := Eligible(ready, lease, at.second);
      ghost var dialled := states;
      TrackedSoft(task, ids, sifted, states, trace);
      v := v.(kept := kept);
      if kept == [] {
        Dialled(task, start, sifted, states, batch, ready, kept, lease, v, attempts);
        return;
      }
      Dialled(task, start, sifted, states, batch, ready, kept, lease, v.(cut := true), attempts);
      var over := Poll();
      if over || at.late {
        v := v.(cut := over);
        Dialled(task, start, sifted, states, batch, ready, kept, lease, v, attempts);
        return;
      }
      ReadyRouted(sifted, states, ready, kept, lease, at.second);
      Unserved(ids, trace, attempts, batch, kept);
      ghost var c := Send(lease, kept);
      DialledServed(task, start, dialled, states, batch, lease, v.(cut := true), c, attempts);
      v := v.(sent := Some(c));
    }

    /** The delivery itself and what its answer does. */
    method Send(lease: Lease, batch: seq<nat>) returns (ghost c: Call)
      requires Valid() && Routed(states, batch, lease.instance)
      requires ResolvedBefore(trace, attempts, lease)
      requires NotYetServed(ids, trace, attempts, batch) && Unvisited(trace, attempts, lease.instance) && batch != []
      modifies this`states, this`trace
      ensures Valid() && OnlyChanges(old(states), states, batch)
      ensures trace == old(trace) + [c] && DeliveryOf(c, task, old(states), batch, lease) && c.round == attempts
      ensures forall n | n in batch :: Served(old(states)[n], states[n], c)
      ensures forall u | Asks(c, u) :: exists j :: 0 <= j < |batch| && ids[batch[j]] == u
    {
      ghost var before := states;
      var targets := RoutesOf(states, batch);
      var delivered := world.deliveries(attempts, lease, targets);
      c := DeliverCall(attempts, lease, task.taskId, task.message.messageId, targets, delivered);
      AnsweredMore(world, trace, c);
      DeliverKeepsTrace(task, ids, states, trace, repaired, attempts, batch, lease, c);
      hide Tracked, GoodTrace, ValidDelivery, SoftAll, Settles, Asks, IsRepair, ResolvedBefore, NotYetServed, Unvisited;
      match delivered {
        case Error(error) =>
          RpcFailure(batch, error, true);
          QuietDelivery(c);
          RecordQuiet(task, ids, before, states, trace, c);
        case Reply(reply) =>
          if !ValidDelivery(reply, task.taskId, task.message.messageId, targets) {
            Repair(batch, InvalidResponse);
            QuietDelivery(c);
            RecordQuiet(task, ids, before, states, trace, c);
          } else {
            TakeResults(batch, targets, reply.value);
            DeliverTracked(task, ids, before, states, trace, batch, lease, c);
            ServedEntries(before, states, batch, lease, task, c);
          }
      }
      trace := trace + [c];
    }

    method TakeResults(batch: seq<nat>, targets: seq<L.Tuple>, reply: DeliverReply)
      requires Open(states, batch) && |targets| == |batch|
      requires ValidDelivery(Some(reply), task.taskId, task.message.messageId, targets)
      modifies this`states
      ensures OnlyChanges(old(states), states, batch)
      ensures forall j | 0 <= j < |batch| ::
                states[batch[j]] == Delivered(old(states)[batch[j]], reply.results[j].value.outcome)
    {
      for k := 0 to |batch|
        invariant OnlyChanges(old(states), states, batch[..k])
        invariant forall j | 0 <= j < k ::
                    states[batch[j]] == Delivered(old(states)[batch[j]], reply.results[j].value.outcome)
      {
        var s := states[batch[k]];
        var outcome := reply.results[k].value.outcome;
        if outcome == ENQUEUED {
          states := states[batch[k] := s.(outcome := Enqueued, reason := NoReason)];
        } else if outcome == DUPLICATE {
          states := states[batch[k] := s.(outcome := Duplicate, reason := NoReason)];
        } else {
          states := states[batch[k] :=
            s.(route := None, routeDeadline := None, repair := true, reason := RouteChanged)];
        }
      }
    }

    /** Unresolved recipients without a route; those whose one repair is spent are stopped instead. */
    method SelectLookups() returns (batch: seq<nat>, isRepair: bool)
      requires Valid()
      modifies this`states
      ensures Valid() && Open(states, batch) && Picks(batch, old(states), repaired)
      ensures |states| == |old(states)|
      ensures forall i | 0 <= i < |states| :: states[i] == StopSpent(old(states)[i], repaired)
      ensures isRepair <==> exists j :: 0 <= j < |batch| && states[batch[j]].repair
    {
      batch, isRepair := [], false;
      ghost var before := states;
      for i := 0 to |states|
        invariant SelectedBelow(before, states, i, batch, isRepair, repaired)
      {
        ghost var sofar, shorter, wasRepair := states, batch, isRepair;
        var s := states[i];
        if s.outcome == Unresolved && !s.stopped && s.route.None? {
          if s.repair && repaired {
            states := states[i := s.(stopped := true)];
          } else {
            isRepair := isRepair || s.repair;
            batch := batch + [i];
          }
        }
        SelectedNext(before, sofar, states, i, shorter, batch, wasRepair, isRepair, repaired);
      }
      AllSelected(before, states, batch, isRepair, repaired);
      TrackedSoft(task, ids, before, states, trace);
    }

    /** Looked-up recipients that were under repair and still have no route are stopped. */
    method StopUnrepaired(batch: seq<nat>)
      requires Valid() && Ordered(batch)
      requires forall j | 0 <= j < |batch| :: batch[j] < |states|
      modifies this`states
      ensures Valid() && OnlyChanges(old(states), states, batch)
      ensures forall n | n in batch :: states[n] == GiveUp(old(states)[n])
    {
      ghost var before := states;
      for k := 0 to |batch|
        invariant OnlyChanges(before, states, batch[..k])
        invariant forall j | 0 <= j < k :: states[batch[j]] == GiveUp(before[batch[j]])
      {
        var s := states[batch[k]];
        if s.repair && s.route.None? {
          states := states[batch[k] := s.(stopped := true)];
        }
      }
      GivenUpSoft(before, states, batch);
      TrackedSoft(task, ids, before, states, trace);
    }

    /** Groups routed recipients by instance; `names` lists the groups in order of first appearance. */
    method Group() returns (groups: map<string, seq<nat>>, names: seq<string>)
      ensures GroupsOf(groups, states)
      ensures forall id :: id in names <==> id in groups
    {
      groups, names := map[], [];
      for i := 0 to |states|
        invariant GroupsOf(groups, states[..i])
        invariant forall id :: id in names <==> id in groups
      {
        var s := states[i];
        ghost var smaller := groups;
        if s.outcome == Unresolved && !s.stopped && s.route.Some? {
          var id := s.route.value.instance;
          if id in groups {
            groups := groups[id := groups[id] + [i]];
          } else {
            assert [] + [i] == [i];
            groups := groups[id := [i]];
            names := names + [id];
          }
        }
        GroupsNext(smaller, groups, states, i);
      }
      assert states[..|states|] == states;
    }

    /** The round's lookup, if anybody needs one; a repair can be among them only once per task. */
    method LookUpRoutes() returns (ghost batch: seq<nat>, ghost lookup: Option<Call>)
      requires Valid() && forall a | 0 <= a < |trace| :: trace[a].round < attempts
      modifies this`states, this`trace, this`repaired
      ensures Valid() && LookupHalf(old(states), old(repaired), attempts, batch, lookup, states)
      ensures trace == old(trace) + Listed(lookup) && (lookup.Some? ==> lookup.value.LookupCall?)
      ensures repaired <==> old(repaired) || (lookup.Some? && IsRepair(lookup.value))
    {
      hide Tracked, GoodTrace, Open, IsRepair, LookupOf, Asked;
      ghost var start, spent := states, repaired;
      var chosen, isRepair := SelectLookups();
      batch, lookup := chosen, None;
      if chosen != [] {
        if isRepair {
          repaired := true;
        }
        assert Valid();
        ghost var asked := states;
        OpenIndices(states, chosen, ids);
        ghost var c := Lookup(chosen);
        lookup := Some(c);
        LabelSaysRepair(c, asked, chosen, attempts);
        ghost var answered := states;
        StopUnrepaired(chosen);
        LookupSteps(start, asked, answered, states, spent, chosen, c, attempts);
      }
    }

    /** Resolves the instances of all groups in one call and handles the answer. */
    method ResolveAndDeliver(groups: map<string, seq<nat>>, instances: seq<string>)
        returns (ghost c: Call, ghost visits: seq<Visit>)
      requires Valid() && GroupsOf(groups, states) && groups != map[]
      requires Ascending(instances) && forall id :: id in instances <==> id in groups
      requires forall a | 0 <= a < |trace| :: trace[a].round < attempts || trace[a].LookupCall?
      modifies this`states, this`trace, this`cancelled, this`polls
      ensures Valid() && (old(cancelled) ==> cancelled)
      ensures DeliverHalf(Job(task, world), old(states), attempts, groups, Some(c), visits, states, cancelled)
      ensures trace == old(trace) + Listed(Some(c)) + SentCalls(visits)
    {
      AscendingDistinct(instances);
      var (resolved, now) := world.resolutions(attempts, instances);
      ghost var mid := states;
      c := ResolveCall(attempts, instances, resolved, now);
      visits := [];
      AnsweredMore(world, trace, c);
      ResolveKeepsTrace(task, ids, states, trace, repaired, attempts, c);
      trace := trace + [c];
      hide Budget, Tracked, GoodTrace, ValidResolutions, GroupsOf, Ascending, Failed, Turned, Unserviced, DeliverHalf;
      match resolved {
        case Error(error) =>
          FailGroups(groups, instances, Some(error));
        case Reply(reply) =>
          if !ValidResolutions(reply, instances, now) {
            FailGroups(groups, instances, None);
          } else {
            ResolutionsPresent(reply, instances, now);
            visits := DeliverGroups(groups, instances, reply.value, |trace| - 1);
          }
      }
      HalfDone(Job(task, world), mid, attempts, groups, c, visits, states, cancelled);
    }

    /** The calls of one round: at most one lookup, one resolution, and one delivery for each instance. */
    method Round() returns (ghost log: RoundLog)
      requires Valid() && forall a | 0 <= a < |trace| :: trace[a].round < attempts
      modifies this`states, this`trace, this`repaired, this`cancelled, this`polls
      ensures Valid() && (old(cancelled) ==> cancelled)
      ensures RoundOk(Job(task, world), attempts, log, cancelled) && trace == old(trace) + CallsOf(log)
      ensures log.start == old(states) && log.end == states && log.repaired == old(repaired)
      ensures repaired <==> old(repaired) || RepairsNow(log)
    {
      hide Tracked, GoodTrace, GroupsOf, Ascending, IsRepair, LookupHalf, DeliverHalf, SentCalls, RoundOk, Listed;
      ghost var start, spent, calls := states, repaired, trace;
      ghost var batch, lookup := LookUpRoutes();
      ghost var mid := states;
      OnlyLookup(calls, trace, lookup, attempts);
      var groups, names := Group();
      var instances := SortedUnique(names);
      ghost var resolve: Option<Call>, visits: seq<Visit> := None, [];
      var over := Poll();
      if instances != [] && !over {
        assert instances[0] in instances;
        ghost var c;
        c, visits := ResolveAndDeliver(groups, instances);
        resolve := Some(c);
      } else {
        assert groups == map[] || over;
        Undelivered(Job(task, world), mid, attempts, groups, over);
      }
      log := RoundLog(start, spent, batch, lookup, mid, groups, resolve, visits, states);
      RoundDone(Job(task, world), attempts, log, cancelled, calls, trace);
    }

    /** No instance was resolved: every group carries the failure, or is marked when the answer was malformed. */
    method FailGroups(groups: map<string, seq<nat>>, instances: seq<string>, failure: Option<RpcError>)
      requires Valid() && L.Distinct(instances)
      requires GroupsOf(groups, states) && forall id :: id in instances <==> id in groups
      modifies this`states
      ensures Valid() && |states| == |old(states)|
      ensures forall i | 0 <= i < |states| ::
                states[i] == if Routable(old(states)[i]) then Unserviced(old(states)[i], failure) else old(states)[i]
    {
      ghost var mid := states;
      for k := 0 to |instances|
        invariant Tracked(task, ids, states, trace)
        invariant FailedGroups(instances, groups, mid, states, k, failure)
      {
        ghost var before := states;
        var batch := groups[instances[k]];
        assert instances[k] in instances;
        GroupRouted(groups, mid, states, instances[k]);
        if failure.Some? {
          RpcFailure(batch, failure.value, false);
        } else {
          Mark(batch, InvalidResponse);
        }
        TrackedSoft(task, ids, before, states, trace);
        FailedNext(instances, groups, mid, before, states, k, failure);
      }
      AllFailed(instances, groups, mid, states, failure);
    }

    /** One instance after another, in the order they were resolved. */
    method DeliverGroups(groups: map<string, seq<nat>>, instances: seq<string>, items: seq<Option<ResolveItem>>,
                         ghost r: nat)
        returns (ghost visits: seq<Visit>)
      requires Valid() && L.Distinct(instances)
      requires GroupsOf(groups, states) && forall id :: id in instances <==> id in groups
      requires r < |trace| && Resolved(trace[r]) && trace[r].round == attempts && trace[r].instances == instances
      requires trace[r].resolved == Reply(Some(items))
      requires forall a | 0 <= a < |trace| && trace[a].DeliverCall? :: trace[a].round < attempts
      modifies this`states, this`trace, this`cancelled, this`polls
      ensures Valid() && (old(cancelled) ==> cancelled)
      ensures trace == old(trace) + SentCalls(visits) && (cancelled || |visits| == |instances|)
      ensures forall k | 0 <= k < |visits| && visits[k].cut :: cancelled
      ensures Turned(old(trace)[r], groups, Job(task, world), old(states), states, visits)
    {
      TrackedParts(task, ids, states, trace);
      hide Tracked, GoodTrace, ResolvedState, GroupsOf, Free, TurnStep, TurnSent, Asks, LocalOk, Routed,
        ValidResolutions;
      hide Budget, Turned, SoFar, SentCalls;
      ghost var c, mid, calls := trace[r], states, trace;
      visits := [];
      NothingTurned(c, groups, Job(task, world), states);
      AllFree(ids, groups, states, instances, trace, attempts);
      StartTurns(c, groups, Job(task, world), ids, mid, trace);
      for k := 0 to |instances|
        invariant Valid() && (old(cancelled) ==> cancelled)
        invariant SoFar(c, groups, Job(task, world), ids, mid, states, calls, trace, visits) && |visits| == k
        invariant forall j | 0 <= j < |visits| && visits[j].cut :: cancelled
      {
        var over := Poll();
        if over {
          AllSoFar(c, groups, Job(task, world), ids, mid, states, calls, trace, visits);
          return;
        }
        ghost var before, earlier := states, trace;
        NextTurn(c, groups, Job(task, world), ids, mid, states, calls, trace, visits, r);
        ghost var v := VisitInstance(items[k].value.state, instances[k], groups[instances[k]], r, k);
        TurnTaken(c, groups, Job(task, world), ids, mid, before, states, calls, earlier, trace, visits, v);
        visits := visits + [v];
      }
      AllSoFar(c, groups, Job(task, world), ids, mid, states, calls, trace, visits);
    }

    /** One instance's turn: delivery to a lease, repair of the whole group if the instance is missing. */
    method VisitInstance(state: CometState, id: string, batch: seq<nat>, ghost r: nat, ghost k: nat)
        returns (ghost v: Visit)
      requires Valid() && Routed(states, batch, id) && Free(ids, trace, attempts, batch, id)
      requires r < |trace| && Resolved(trace[r]) && trace[r].round == attempts
      requires k < |trace[r].instances| && trace[r].instances[k] == id && ResolvedState(trace[r], k) == state
      modifies this`states, this`trace, this`cancelled, this`polls
      ensures Valid() && OnlyChanges(old(states), states, batch) && (old(cancelled) ==> cancelled)
      ensures trace == old(trace) + Listed(v.sent) && TurnSent(v, state, Job(task, world), old(states), batch, attempts)
      ensures v.cut ==> cancelled
      ensures forall n | n in batch :: TurnStep(old(states)[n], states[n], state, v)
      ensures v.sent.Some? ==>
                && v.sent.value.DeliverCall? && v.sent.value.lease.instance == id
                && forall u | Asks(v.sent.value, u) :: exists j :: 0 <= j < |batch| && ids[batch[j]] == u
    {
      hide Tracked, GoodTrace, ValidResolutions, VisitStep, Asks, NotYetServed, Unvisited, LocalOk, SoftAll;
      v := Visit(Reading(0, 0), false, Reading(0, 0), true, false, [], None);
      ghost var before := states;
      ResolvedEntry(trace[r], k);
      match state {
        case HasLease(lease) =>
          ResolvedHere(trace, r, k, attempts, lease.value);
          v := DeliverTo(lease.value, batch, world.turns(attempts, lease.value.instance));
        case IsMissing(_) =>
          Repair(batch, RouteChanged);
          TrackedSoft(task, ids, before, states, trace);
      }
    }
  }

  // ----- the whole task -----

  /** Somebody is unresolved, not stopped, and not waiting for a repair that is already spent. */
  predicate AnyoneRunnable(states: seq<Recipient>, repaired: bool) {
    exists s :: s in states && s.outcome == Unresolved && !s.stopped && !(s.repair && repaired)
  }

  function Summary(s: Recipient): RecipientResult {
    RecipientResult(s.userId, s.outcome,
                    if s.outcome == Unresolved && s.reason == NoReason then BudgetExhausted else s.reason)
  }

  ghost predicate SettledBy(trace: seq<Call>, user: string, o: Outcome) {
    exists a :: 0 <= a < |trace| && SettledAs(trace[a], user, o)
  }

  /** A user is reported settled exactly as some validated answer settled it, and unresolved exactly with a reason. */
  ghost predicate Grounded(trace: seq<Call>, r: RecipientResult) {
    && (r.outcome == Unresolved <==> r.reason != NoReason)
    && forall o: Outcome | o != Unresolved :: r.outcome == o <==> SettledBy(trace, r.userId, o)
  }

  /** A result of processing `task`: one entry for each user in scope, in order, each grounded in the calls made. */
  ghost predicate FaithfulResult(task: PushTask, trace: seq<Call>, r: Result) {
    && r.task == task
    && |r.recipients| == |Scope(task)|
    && (forall i | 0 <= i < |r.recipients| ::
          r.recipients[i].userId == Scope(task)[i] && Grounded(trace, r.recipients[i]))
    && r.attempts <= ROUNDS
  }

  function AllCalls(logs: seq<RoundLog>): seq<Call> {
    if logs == [] then [] else AllCalls(logs[..|logs| - 1]) + CallsOf(logs[|logs| - 1])
  }

  predicate RepairedIn(logs: seq<RoundLog>) {
    logs != [] && (RepairedIn(logs[..|logs| - 1]) || RepairsNow(logs[|logs| - 1]))
  }

  function LastStates(first: seq<Recipient>, logs: seq<RoundLog>): seq<Recipient> {
    if logs == [] then first else logs[|logs| - 1].end
  }

  /** Each round starts where the one before ended, with somebody who can still be helped; only the last may be cut. */
  ghost predicate Rounds(job: Job, first: seq<Recipient>, logs: seq<RoundLog>, over: bool) {
    if logs == [] then true
    else
      var earlier, log := logs[..|logs| - 1], logs[|logs| - 1];
      && Rounds(job, first, earlier, false) && RoundOk(job, |logs|, log, over)
      && log.start == LastStates(first, earlier) && (log.repaired <==> RepairedIn(earlier))
      && exists s :: s in log.start && s.outcome == Unresolved && !s.stopped && !(s.repair && log.repaired)
  }

  predicate HasRepair(calls: seq<Call>) {
    exists a :: 0 <= a < |calls| && calls[a].LookupCall? && calls[a].repairs != {}
  }

  lemma RepairConcat(before: seq<Call>, after: seq<Call>)
    ensures HasRepair(before + after) <==> HasRepair(before) || HasRepair(after)
  {
    var all := before + after;
    if a :| 0 <= a < |before| && before[a].LookupCall? && before[a].repairs != {} {
      assert all[a] == before[a];
    }
    if a :| 0 <= a < |after| && after[a].LookupCall? && after[a].repairs != {} {
      assert all[|before| + a] == after[a];
    }
  }

  /** The repair is spent exactly if one of the lookups was made for somebody under repair. */
  lemma {:induction false} RepairedMeans(job: Job, first: seq<Recipient>, logs: seq<RoundLog>, over: bool)
    requires Rounds(job, first, logs, over)
    ensures RepairedIn(logs) <==> HasRepair(AllCalls(logs))
  {
    if logs != [] {
      var earlier, log := logs[..|logs| - 1], logs[|logs| - 1];
      RepairedMeans(job, first, earlier, false);
      RoundLookups(job, |logs|, log, over);
      hide RoundOk, CallsOf, HasRepair, RepairsNow, LastStates;
      RepairConcat(AllCalls(earlier), CallsOf(log));
    }
  }

  /** Of a round's calls only the lookup can be one. */
  lemma RoundLookups(job: Job, round: nat, log: RoundLog, over: bool)
    requires RoundOk(job, round, log, over)
    ensures RepairsNow(log) <==> HasRepair(CallsOf(log))
  {
    hide LookupStep, Picks, DeliverStep, GroupsOf, Sent;
    if log.resolve.Some? && Resolved(log.resolve.value) {
      forall k | 0 <= k < |log.visits| && log.visits[k].sent.Some? ensures log.visits[k].sent.value.DeliverCall? {
        assert TurnOk(log.resolve.value, k, log.groups, job, log.mid, log.visits[k]);
        TurnDelivers(log.resolve.value, k, log.groups, job, log.mid, log.visits[k]);
      }
    }
    SentDelivers(log.visits);
    if RepairsNow(log) {
      assert CallsOf(log)[0] == log.lookup.value;
    }
  }

  lemma TurnDelivers(c: Call, k: nat, groups: map<string, seq<nat>>, job: Job, mid: seq<Recipient>, v: Visit)
    requires Resolved(c) && k < |c.instances| && GroupsOf(groups, mid) && TurnOk(c, k, groups, job, mid, v)
    ensures v.sent.Some? ==> v.sent.value.DeliverCall?
  {
    hide ValidResolutions, GroupsOf;
  }

  lemma {:induction false} SentDelivers(visits: seq<Visit>)
    requires forall k | 0 <= k < |visits| && visits[k].sent.Some? :: visits[k].sent.value.DeliverCall?
    ensures forall a | 0 <= a < |SentCalls(visits)| :: SentCalls(visits)[a].DeliverCall?
  {
    if visits != [] {
      SentDelivers(visits[..|visits| - 1]);
    }
  }

  lemma NoRounds(job: Job, first: seq<Recipient>, over: bool)
    ensures Rounds(job, first, [], over) && AllCalls([]) == [] && !RepairedIn([]) && LastStates(first, []) == first
  {
  }

  /** A new round has made no call yet. */
  lemma NextBudget(repaired: bool, trace: seq<Call>, round: nat)
    requires Budget(repaired, trace, round)
    ensures Budget(repaired, trace, round + 1) && forall a | 0 <= a < |trace| :: trace[a].round < round + 1
  {
  }

  lemma CutLater(job: Job, first: seq<Recipient>, logs: seq<RoundLog>, over: bool)
    requires Rounds(job, first, logs, false)
    ensures Rounds(job, first, logs, over)
  {
    hide LookupHalf, LastStates, RepairedIn;
  }

  lemma RoundsNext(job: Job, first: seq<Recipient>, logs: seq<RoundLog>, log: RoundLog, over: bool)
    requires Rounds(job, first, logs, false) && RoundOk(job, |logs| + 1, log, over)
    requires log.start == LastStates(first, logs) && (log.repaired <==> RepairedIn(logs))
    requires exists s :: s in log.start && s.outcome == Unresolved && !s.stopped && !(s.repair && log.repaired)
    ensures Rounds(job, first, logs + [log], over)
    ensures AllCalls(logs + [log]) == AllCalls(logs) + CallsOf(log) && LastStates(first, logs + [log]) == log.end
    ensures RepairedIn(logs + [log]) <==> RepairedIn(logs) || RepairsNow(log)
  {
    hide RoundOk, RepairsNow, CallsOf;
    var longer := logs + [log];
    assert longer[..|longer| - 1] == logs;
  }

  lemma ScopeDistinct(raw: Payload)
    requires Decode(raw).Some?
    ensures L.Distinct(Scope(Decode(raw).value))
    ensures ValidTargets(Decode(raw).value.recipients, Decode(raw).value.targets)
  {
    hide ValidMessage, ValidIdentity, L.ValidConnection, ValidRecipient;
    AscendingDistinct(Decode(raw).value.recipients);
  }

  method AnyRunnable(states: seq<Recipient>, repaired: bool) returns (runnable: bool)
    ensures runnable <==> AnyoneRunnable(states, repaired)
  {
    runnable := false;
    for i := 0 to |states|
      invariant runnable <==>
                  exists k :: 0 <= k < i && states[k].outcome == Unresolved && !states[k].stopped
                              && !(states[k].repair && repaired)
    {
      if states[i].outcome == Unresolved && !states[i].stopped && !(states[i].repair && repaired) {
        runnable := true;
      }
    }
  }

  /** At most three rounds, as long as there is time and somebody can still be helped. */
  method RunRounds(run: Run) returns (ghost logs: seq<RoundLog>)
    requires run.Valid() && run.attempts == 0 && run.trace == [] && !run.repaired
    modifies run
    ensures run.Valid() && run.attempts == |logs| <= ROUNDS
    ensures Rounds(Job(run.task, run.world), old(run.states), logs, run.cancelled) && run.trace == AllCalls(logs)
    ensures run.states == LastStates(old(run.states), logs) && (run.repaired <==> RepairedIn(logs))
    ensures run.attempts == 3 || run.cancelled
            || forall s | s in run.states :: s.outcome != Unresolved || s.stopped || (s.repair && run.repaired)
  {
    hide Tracked, GoodTrace, RoundOk, RepairsNow, RepairedIn, CallsOf, Rounds, AllCalls, LastStates, Budget;
    ghost var first := run.states;
    var attempt := 0;
    var over := run.Poll();
    logs := [];
    NoRounds(Job(run.task, run.world), first, over);
    while attempt < ROUNDS && !over
      invariant run.Valid() && run.attempts == attempt == |logs| <= ROUNDS
      invariant over == run.cancelled
      invariant Rounds(Job(run.task, run.world), first, logs, over) && run.trace == AllCalls(logs)
      invariant run.states == LastStates(first, logs) && (run.repaired <==> RepairedIn(logs))
    {
      var runnable := AnyRunnable(run.states, run.repaired);
      if !runnable {
        break;
      }
      if attempt > 0 {
        over := run.Poll();
        if over {
          CutLater(Job(run.task, run.world), first, logs, true);
          break;
        }
      }
      attempt := attempt + 1;
      NextBudget(run.repaired, run.trace, run.attempts);
      run.attempts := run.attempts + 1;
      ghost var log := run.Round();
      RoundsNext(Job(run.task, run.world), first, logs, log, run.cancelled);
      logs := logs + [log];
      ghost var cut := run.cancelled;
      over := run.Poll();
      if !cut {
        CutLater(Job(run.task, run.world), first, logs, over);
      }
    }
  }

  /** A user is reported settled exactly as the calls settled it. */
  lemma SettledReported(task: PushTask, ids: seq<string>, states: seq<Recipient>, trace: seq<Call>, i: nat)
    requires Tracked(task, ids, states, trace) && GoodTrace(task, trace) && i < |ids|
    ensures states[i].userId == ids[i] && Grounded(trace, Summary(states[i]))
    ensures states[i].outcome == Unresolved ==> forall a | 0 <= a < |trace| :: !Settles(trace[a], ids[i])
  {
    hide GoodTrace, SettledAs, Settles, RouteKnown;
    assert Justified(trace, states[i]) && LocalOk(states[i]);
    forall o, a | o != Unresolved && 0 <= a < |trace| && SettledAs(trace[a], ids[i], o) ensures states[i].outcome == o {
      SettledSettles(trace[a], ids[i], o);
      if states[i].outcome != Unresolved {
        var b :| 0 <= b < |trace| && SettledAs(trace[b], ids[i], states[i].outcome);
        OneOutcome(task, trace, a, b, ids[i], o, states[i].outcome);
      }
    }
  }

  /** Whoever is reported unresolved was settled by none of the calls. */
  lemma UnresolvedUnsettled(trace: seq<Call>, r: RecipientResult, a: nat)
    requires Grounded(trace, r) && r.outcome == Unresolved && a < |trace|
    ensures !Settles(trace[a], r.userId)
  {
    hide SettledAs;
    forall o: Outcome | o != Unresolved ensures !SettledAs(trace[a], r.userId, o) {
      assert !SettledBy(trace, r.userId, o);
    }
  }

  /** Whoever is unresolved at the end without a reason ran out of budget. */
  method Report(run: Run) returns (recipients: seq<RecipientResult>)
    requires run.Valid()
    ensures |recipients| == |run.ids| == |run.states|
    ensures forall i | 0 <= i < |recipients| ::
              && recipients[i] == Summary(run.states[i])
              && recipients[i].userId == run.ids[i] && Grounded(run.trace, recipients[i])
  {
    TrackedParts(run.task, run.ids, run.states, run.trace);
    hide Tracked, GoodTrace, LocalOk, Grounded;
    recipients := [];
    for i := 0 to |run.states|
      invariant |recipients| == i
      invariant forall k | 0 <= k < i ::
                  && recipients[k] == Summary(run.states[k])
                  && recipients[k].userId == run.ids[k] && Grounded(run.trace, recipients[k])
    {
      SettledReported(run.task, run.ids, run.states, run.trace, i);
      recipients := recipients + [Summary(run.states[i])];
    }
  }

  /** What a run of the engine leaves behind, for the specification only. */
  datatype History = History(
    first: seq<Recipient>, logs: seq<RoundLog>, trace: seq<Call>, final: seq<Recipient>, cancelled: bool)

  /** The history is a run of rounds that stopped for one of the engine's three reasons. */
  ghost predicate HistoryOf(job: Job, h: History) {
    && Initial(job.task, h.first) && |h.logs| <= 3 && Rounds(job, h.first, h.logs, h.cancelled)
    && h.trace == AllCalls(h.logs) && h.final == LastStates(h.first, h.logs)
    && (|h.logs| < 3 && !h.cancelled ==>
          forall s | s in h.final ::
            || s.outcome != Unresolved || s.stopped
            || (s.repair && exists a :: 0 <= a < |h.trace| && h.trace[a].LookupCall? && h.trace[a].repairs != {}))
  }

  lemma HistoryKept(job: Job, h: History, repaired: bool)
    requires Initial(job.task, h.first) && |h.logs| <= 3 && Rounds(job, h.first, h.logs, h.cancelled)
    requires h.trace == AllCalls(h.logs) && h.final == LastStates(h.first, h.logs) && (repaired <==> RepairedIn(h.logs))
    requires |h.logs| == 3 || h.cancelled
             || forall s | s in h.final :: s.outcome != Unresolved || s.stopped || (s.repair && repaired)
    ensures HistoryOf(job, h)
  {
    hide Initial, Rounds, AllCalls, LastStates, RepairedIn;
    RepairedMeans(job, h.first, h.logs, h.cancelled);
  }

  lemma ResultFaithful(task: PushTask, trace: seq<Call>, recipients: seq<RecipientResult>, attempts: nat)
    requires |recipients| == |Scope(task)| && attempts <= ROUNDS
    requires forall i | 0 <= i < |recipients| ::
               recipients[i].userId == Scope(task)[i] && Grounded(trace, recipients[i])
    ensures FaithfulResult(task, trace, Result(task, recipients, attempts))
  {
    hide Grounded;
  }

  /** Processes one payload against an arbitrary outside. */
  method Process(raw: Payload, world: World) returns (result: Option<Result>, failed: bool, ghost h: History)
    ensures result.None? <==> Decode(raw).None?
    ensures result.None? ==> failed && h.trace == []
    ensures result.Some? ==> HistoryOf(Job(Decode(raw).value, world), h) && GoodTrace(Decode(raw).value, h.trace)
    ensures result.Some? ==> AllAnswered(world, h.trace) && (h.cancelled ==> exists k: nat :: world.expired(k))
    ensures result.Some? ==> FaithfulResult(Decode(raw).value, h.trace, result.value)
    ensures result.Some? ==> (failed <==> PendingRecipients(result.value.recipients) != [])
    ensures result.Some? ==>
              && result.value.attempts == |h.logs| && |h.final| == |result.value.recipients|
              && forall i | 0 <= i < |h.final| ::
                   && result.value.recipients[i].userId == h.final[i].userId
                   && result.value.recipients[i].outcome == h.final[i].outcome
                   && result.value.recipients[i].reason ==
                        if h.final[i].outcome == Unresolved && h.final[i].reason == NoReason then BudgetExhausted
                        else h.final[i].reason
  {
    h := History([], [], [], [], false);
    var decoded := DecodeTask(raw);
    if decoded.None? {
      return None, true, h;
    }
    ScopeDistinct(raw);
    hide Decode, Tracked, GoodTrace, ValidTargets, Grounded, Initial, Rounds, RepairedIn, AllCalls, LastStates;
    hide FaithfulResult, HistoryOf, PendingRecipients;
    var task := decoded.value;
    var run := new Run(task, world);
    ghost var first := run.states;
    ghost var logs := RunRounds(run);
    h := History(first, logs, run.trace, run.states, run.cancelled);
    HistoryKept(Job(task, world), h, run.repaired);
    var recipients := Report(run);
    ResultFaithful(task, run.trace, recipients, run.attempts);
    result := Some(Result(task, recipients, run.attempts));
    failed := PendingRecipients(recipients) != [];
  }

  // ----- what is pending -----

  /** The pending list is exactly the unresolved users, in the order of the results. */
  lemma {:induction false} PendingIsUnresolved(results: seq<RecipientResult>)
    ensures forall u :: u in PendingRecipients(results) <==>
              exists i :: 0 <= i < |results| && results[i].userId == u && results[i].outcome == Unresolved
  {
    if results != [] {
      PendingIsUnresolved(results[..|results| - 1]);
    }
  }

  lemma NothingPending(results: seq<RecipientResult>)
    requires PendingRecipients(results) == []
    ensures forall r | r in results :: r.outcome != Unresolved
  {
    PendingIsUnresolved(results);
  }

  lemma {:induction false} PendingDistinct(results: seq<RecipientResult>)
    requires forall i, j | 0 <= i < j < |results| :: results[i].userId != results[j].userId
    ensures L.Distinct(PendingRecipients(results))
  {
    if results != [] {
      var front := results[..|results| - 1];
      PendingDistinct(front);
      PendingIsUnresolved(front);
      assert results[|results| - 1].userId !in PendingRecipients(front);
    }
  }

  /** The unresolved users of a faithful result are a duplicate-free part of the task's scope. */
  lemma PendingWithinScope(task: PushTask, results: seq<RecipientResult>)
    requires L.Distinct(Scope(task)) && |results| == |Scope(task)|
    requires forall i | 0 <= i < |results| :: results[i].userId == Scope(task)[i]
    ensures Subset(PendingRecipients(results), Scope(task))
  {
    PendingIsUnresolved(results);
    PendingDistinct(results);
  }
}
