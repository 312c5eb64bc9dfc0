/** What the engine's loops and calls keep: the lookup of a batch, the groups, and the instances' turns. */
module DeliveryLemmas {
  import opened Wrappers
  import opened Identifiers
  import opened ByteOrder
  import opened PushTasks
  import opened DeliveryEngine
  import opened DeliverySteps
  import L = LeaseScript

  /** Positions of recipients still unresolved, in order. */
  predicate Open(states: seq<Recipient>, batch: seq<nat>) {
    && (forall j | 0 <= j < |batch| :: batch[j] < |states| && states[batch[j]].outcome == Unresolved)
    && Ordered(batch)
  }

  predicate Routed(states: seq<Recipient>, batch: seq<nat>, instance: string) {
    && Open(states, batch)
    && forall j | 0 <= j < |batch| ::
         states[batch[j]].route.Some? && states[batch[j]].route.value.instance == instance
  }

  predicate OnlyChanges(before: seq<Recipient>, after: seq<Recipient>, batch: seq<nat>) {
    |after| == |before| && forall i | 0 <= i < |before| && i !in batch :: after[i] == before[i]
  }

  function UsersOf(ids: seq<string>, batch: seq<nat>): (users: seq<string>)
    requires forall j | 0 <= j < |batch| :: batch[j] < |ids|
    ensures |users| == |batch| && forall j | 0 <= j < |batch| :: users[j] == ids[batch[j]]
  {
    seq(|batch|, j requires 0 <= j < |batch| => ids[batch[j]])
  }

  /** A user sits at one position of a batch only. */
  lemma OnePosition(ids: seq<string>, batch: seq<nat>, i: nat, j: nat, k: nat)
    requires L.Distinct(ids) && Ordered(batch)
    requires forall j | 0 <= j < |batch| :: batch[j] < |ids|
    requires i < |ids| && j < |batch| && k < |batch|
    requires ids[batch[j]] == ids[i] && batch[k] == i
    ensures j == k
  {
    assert batch[j] == i;
  }

  /** A call that settles nobody is recorded after a soft change of its own recipients. */
  lemma RecordQuiet(task: PushTask, ids: seq<string>, states: seq<Recipient>, next: seq<Recipient>,
                    trace: seq<Call>, c: Call)
    requires Tracked(task, ids, states, trace) && SoftAll(states, next)
    requires forall u :: !Settles(c, u)
    requires forall u | Asks(c, u) :: u in ids
    ensures Tracked(task, ids, next, trace + [c])
  {
    TrackedSoft(task, ids, states, next, trace);
    hide Settles, Asks, KnownRoute, Justified;
    TrackedCall(task, ids, next, next, trace, c);
  }

  lemma TrackedParts(task: PushTask, ids: seq<string>, states: seq<Recipient>, trace: seq<Call>)
    requires Tracked(task, ids, states, trace)
    ensures |states| == |ids| && L.Distinct(ids)
    ensures forall i | 0 <= i < |ids| :: states[i].userId == ids[i] && LocalOk(states[i])
  {
  }

  lemma KnownNow(task: PushTask, trace: seq<Call>, c: Call, j: nat, t: L.Tuple)
    requires RouteAt(c, j, t)
    ensures KnownRoute(task, trace + [c], t)
  {
    assert (trace + [c])[|trace|] == c;
  }

  /** What one validated lookup entry means for the recipient at its position. */
  lemma LookupEntry(task: PushTask, ids: seq<string>, before: Recipient, trace: seq<Call>, batch: seq<nat>, c: Call,
                    k: nat)
    requires c.LookupCall? && L.Distinct(ids) && Ordered(batch) && k < |batch|
    requires forall j | 0 <= j < |batch| :: batch[j] < |ids|
    requires c.users == UsersOf(ids, batch) && c.found.Reply? && ValidLookups(c.found.value, c.users, c.now)
    requires before.userId == ids[batch[k]] && before.outcome == Unresolved
    ensures var item := c.found.value.value[k].value;
            !item.state.NoRouteState?
            && var after := Looked(before, item.state);
            && LocalOk(after) && after.userId == before.userId
            && (after.outcome == Unresolved ==> !Settles(c, before.userId))
            && (after.outcome != Unresolved ==> SettledAs(c, before.userId, after.outcome))
            && (after.route.Some? ==> after.route == before.route || KnownRoute(task, trace + [c], after.route.value))
    requires LocalOk(before)
  {
    hide L.ValidConnection, KnownRoute;
    var item := c.found.value.value[k];
    assert ValidLookupItem(item, c.users[k], c.now);
    if item.value.state.IsOffline? {
      assert OfflineAt(c, k, before.userId);
    } else {
      forall j: nat | OfflineAt(c, j, before.userId) ensures false {
      }
      KnownNow(task, trace, c, k, item.value.state.identity.value);
    }
  }

  lemma LookupTracked(task: PushTask, ids: seq<string>, before: seq<Recipient>, after: seq<Recipient>,
                      trace: seq<Call>, batch: seq<nat>, c: Call)
    requires Tracked(task, ids, before, trace) && Open(before, batch) && OnlyChanges(before, after, batch)
    requires c.LookupCall? && c.users == UsersOf(ids, batch) && c.found.Reply?
    requires ValidLookups(c.found.value, c.users, c.now)
    requires forall j | 0 <= j < |batch| ::
               !c.found.value.value[j].value.state.NoRouteState?
               && after[batch[j]] == Looked(before[batch[j]], c.found.value.value[j].value.state)
    ensures Tracked(task, ids, after, trace + [c])
  {
    TrackedParts(task, ids, before, trace);
    forall i | 0 <= i < |ids|
      ensures after[i].userId == ids[i] && LocalOk(after[i])
      ensures after[i].outcome == Unresolved ==> before[i].outcome == Unresolved && !Settles(c, ids[i])
      ensures after[i].outcome != Unresolved ==> after[i] == before[i] || SettledAs(c, ids[i], after[i].outcome)
      ensures after[i].route.Some? ==>
                after[i].route == before[i].route || KnownRoute(task, trace + [c], after[i].route.value)
    {
      hide Tracked, KnownRoute, ValidLookups, LocalOk, Looked, RouteAt;
      if i in batch {
        var k :| 0 <= k < |batch| && batch[k] == i;
        LookupEntry(task, ids, before[i], trace, batch, c, k);
      } else {
        NotAsked(ids, batch, c, i);
      }
    }
    hide *;
    TrackedCall(task, ids, before, after, trace, c);
  }

  lemma NotAsked(ids: seq<string>, batch: seq<nat>, c: Call, i: nat)
    requires c.LookupCall? && L.Distinct(ids) && i < |ids| && i !in batch
    requires forall j | 0 <= j < |batch| :: batch[j] < |ids|
    requires c.users == UsersOf(ids, batch)
    ensures !Settles(c, ids[i])
  {
    forall j | 0 <= j < |batch| ensures c.users[j] != ids[i] {
      assert batch[j] in batch;
    }
  }

  /** The recipients carry their users, so the call asks for them and is labelled with those under repair. */
  lemma LabelsUsers(ids: seq<string>, states: seq<Recipient>, batch: seq<nat>, c: Call, round: nat)
    requires |states| == |ids| && Open(states, batch)
    requires forall i | 0 <= i < |ids| :: states[i].userId == ids[i]
    requires c.LookupCall? && c.round == round && c.users == UsersOf(ids, batch)
    requires c.repairs == set j | 0 <= j < |batch| && states[batch[j]].repair :: c.users[j]
    ensures LookupOf(c, states, batch, round)
  {
  }

  lemma LabelSaysRepair(c: Call, states: seq<Recipient>, batch: seq<nat>, round: nat)
    requires (forall j | 0 <= j < |batch| :: batch[j] < |states|) && LookupOf(c, states, batch, round)
    ensures c.LookupCall? && (IsRepair(c) <==> exists j :: 0 <= j < |batch| && states[batch[j]].repair)
  {
    if j :| 0 <= j < |batch| && states[batch[j]].repair {
      assert states[batch[j]].userId in c.repairs;
    }
  }

  lemma AskedEntries(ids: seq<string>, before: seq<Recipient>, after: seq<Recipient>, batch: seq<nat>, c: Call)
    requires |before| == |ids| == |after| && Open(before, batch) && c.LookupCall? && c.users == UsersOf(ids, batch)
    requires forall i | 0 <= i < |ids| :: before[i].userId == ids[i]
    requires c.found.Reply? && ValidLookups(c.found.value, c.users, c.now)
    requires forall j | 0 <= j < |batch| ::
               !c.found.value.value[j].value.state.NoRouteState?
               && after[batch[j]] == Looked(before[batch[j]], c.found.value.value[j].value.state)
    ensures forall n | n in batch :: Asked(before[n], after[n], c)
  {
    hide Looked, ValidLookupItem;
    forall n | n in batch ensures Asked(before[n], after[n], c) {
      var j :| 0 <= j < |batch| && batch[j] == n;
      assert c.users[j] == before[n].userId;
    }
  }

  /** A failed or malformed lookup answer settles nobody. */
  lemma QuietLookup(c: Call)
    requires c.LookupCall? && (c.found.Reply? ==> !ValidLookups(c.found.value, c.users, c.now))
    ensures forall u :: !Settles(c, u)
  {
  }

  /** The lookup of an open batch asks only unresolved users, and repairs only if no earlier lookup did. */
  lemma LookupKeepsTrace(task: PushTask, ids: seq<string>, states: seq<Recipient>, trace: seq<Call>, repaired: bool,
                         attempts: nat, batch: seq<nat>, c: Call)
    requires Tracked(task, ids, states, trace) && GoodTrace(task, trace) && Budget(repaired, trace, attempts)
    requires Open(states, batch) && c.LookupCall? && c.users == UsersOf(ids, batch) && c.round == attempts
    requires c.repairs == set j | 0 <= j < |batch| && states[batch[j]].repair :: c.users[j]
    requires forall a | 0 <= a < |trace| :: trace[a].round < attempts
    requires (exists j | 0 <= j < |batch| :: states[batch[j]].repair) ==>
               repaired && forall a | 0 <= a < |trace| :: !IsRepair(trace[a])
    ensures GoodTrace(task, trace + [c]) && Budget(repaired, trace + [c], attempts)
    ensures forall u | Asks(c, u) :: u in ids
  {
    TrackedParts(task, ids, states, trace);
    forall u | Asks(c, u) ensures exists i :: 0 <= i < |ids| && ids[i] == u && states[i].outcome == Unresolved {
      var j :| 0 <= j < |batch| && c.users[j] == u;
      assert ids[batch[j]] == u;
    }
    var spent := exists a :: 0 <= a < |trace| && IsRepair(trace[a]);
    if IsRepair(c) {
      var u :| u in c.repairs;
      assert exists j | 0 <= j < |batch| :: states[batch[j]].repair;
    }
    assert NamesOnce(c) by {
      forall i, j | 0 <= i < j < |batch| ensures c.users[i] != c.users[j] {
        assert batch[i] < batch[j];
      }
    }
    hide Tracked, GoodTrace, NamesOnce;
    GoodTraceCall(task, ids, states, trace, c, spent);
  }

  lemma ResolveKeepsTrace(task: PushTask, ids: seq<string>, states: seq<Recipient>, trace: seq<Call>, repaired: bool,
                          attempts: nat, c: Call)
    requires Tracked(task, ids, states, trace) && GoodTrace(task, trace) && Budget(repaired, trace, attempts)
    requires c.ResolveCall? && c.round == attempts && L.Distinct(c.instances)
    requires forall a | 0 <= a < |trace| :: trace[a].round < attempts || trace[a].LookupCall?
    ensures Tracked(task, ids, states, trace + [c]) && GoodTrace(task, trace + [c])
    ensures Budget(repaired, trace + [c], attempts) && (trace + [c])[|trace|] == c
    ensures forall a | 0 <= a < |trace + [c]| && (trace + [c])[a].DeliverCall? :: (trace + [c])[a].round < attempts
  {
    RecordQuiet(task, ids, states, states, trace, c);
    hide Tracked, GoodTrace;
    GoodTraceCall(task, ids, states, trace, c, repaired);
  }

  lemma QuietDelivery(c: Call)
    requires c.DeliverCall?
    requires c.delivered.Reply? ==> !ValidDelivery(c.delivered.value, c.taskId, c.messageId, c.targets)
    ensures forall u :: !Settles(c, u)
  {
  }

  ghost predicate NotYetServed(ids: seq<string>, trace: seq<Call>, round: nat, batch: seq<nat>)
    requires forall j | 0 <= j < |batch| :: batch[j] < |ids|
  {
    forall a, j | 0 <= a < |trace| && trace[a].DeliverCall? && trace[a].round == round && 0 <= j < |batch| ::
      !Asks(trace[a], ids[batch[j]])
  }

  /** The round has had no delivery to the instance. */
  predicate Unvisited(trace: seq<Call>, round: nat, instance: string) {
    forall a | 0 <= a < |trace| && trace[a].DeliverCall? && trace[a].round == round ::
      trace[a].lease.instance != instance
  }

  ghost predicate DeliveryOf(c: Call, task: PushTask, states: seq<Recipient>, batch: seq<nat>, lease: Lease)
    requires Routed(states, batch, lease.instance)
  {
    && c.DeliverCall? && c.lease == lease && c.taskId == task.taskId && c.messageId == task.message.messageId
    && c.targets == RoutesOf(states, batch)
  }

  lemma TargetsOnce(ids: seq<string>, states: seq<Recipient>, batch: seq<nat>, lease: Lease, c: Call)
    requires Routed(states, batch, lease.instance) && c.DeliverCall? && c.targets == RoutesOf(states, batch)
    requires L.Distinct(ids) && |states| == |ids|
    requires forall i | 0 <= i < |ids| :: states[i].userId == ids[i] && LocalOk(states[i])
    ensures NamesOnce(c)
  {
    forall i, j | 0 <= i < j < |c.targets| ensures c.targets[i].user != c.targets[j].user {
      assert LocalOk(states[batch[i]]) && LocalOk(states[batch[j]]);
      assert batch[i] < batch[j];
    }
  }

  lemma DeliveryAsks(ids: seq<string>, states: seq<Recipient>, batch: seq<nat>, lease: Lease, c: Call, u: string)
    requires Routed(states, batch, lease.instance) && c.DeliverCall? && c.targets == RoutesOf(states, batch)
               && Asks(c, u)
    requires |states| == |ids| && forall i | 0 <= i < |ids| :: states[i].userId == ids[i] && LocalOk(states[i])
    ensures exists j :: 0 <= j < |batch| && ids[batch[j]] == u && states[batch[j]].outcome == Unresolved
  {
    var t :| t in c.targets && t.user == u;
    var j :| 0 <= j < |batch| && c.targets[j] == t;
    assert ids[batch[j]] == u;
  }

  lemma DeliveryInScope(ids: seq<string>, states: seq<Recipient>, batch: seq<nat>, lease: Lease, c: Call)
    requires Routed(states, batch, lease.instance) && c.DeliverCall? && c.targets == RoutesOf(states, batch)
    requires |states| == |ids| && forall i | 0 <= i < |ids| :: states[i].userId == ids[i] && LocalOk(states[i])
    ensures |c.targets| == |batch| && forall t | t in c.targets :: t.user in ids
  {
    forall t | t in c.targets ensures t.user in ids {
      var j :| 0 <= j < |batch| && c.targets[j] == t;
      assert ids[batch[j]] == t.user;
    }
  }

  lemma DeliveryKnown(task: PushTask, trace: seq<Call>, states: seq<Recipient>, batch: seq<nat>, lease: Lease, c: Call)
    requires Routed(states, batch, lease.instance) && c.DeliverCall? && c.targets == RoutesOf(states, batch)
    requires forall i | 0 <= i < |states| :: RouteKnown(task, trace, states[i])
    ensures forall t | t in c.targets :: t.instance == lease.instance && KnownRoute(task, trace, t)
  {
    hide KnownRoute;
    forall t | t in c.targets ensures t.instance == lease.instance && KnownRoute(task, trace, t) {
      var j :| 0 <= j < |batch| && c.targets[j] == t;
      assert RouteKnown(task, trace, states[batch[j]]);
    }
  }

  lemma DeliverKeepsTrace(task: PushTask, ids: seq<string>, states: seq<Recipient>, trace: seq<Call>, repaired: bool,
                          attempts: nat, batch: seq<nat>, lease: Lease, c: Call)
    requires Tracked(task, ids, states, trace) && GoodTrace(task, trace) && Budget(repaired, trace, attempts)
    requires Routed(states, batch, lease.instance) && ResolvedBefore(trace, attempts, lease)
    requires batch != [] && ids == Scope(task)
    requires NotYetServed(ids, trace, attempts, batch) && Unvisited(trace, attempts, lease.instance)
    requires DeliveryOf(c, task, states, batch, lease) && c.round == attempts
    ensures GoodTrace(task, trace + [c]) && Budget(repaired, trace + [c], attempts)
    ensures forall u | Asks(c, u) :: u in ids && exists j :: 0 <= j < |batch| && ids[batch[j]] == u
  {
    TrackedParts(task, ids, states, trace);
    DeliveryKnown(task, trace, states, batch, lease, c);
    DeliveryInScope(ids, states, batch, lease, c);
    TargetsOnce(ids, states, batch, lease, c);
    hide Tracked, GoodTrace, KnownRoute, ResolvedBefore, NamesOnce, Asks, LocalOk, RoutesOf;
    forall u | Asks(c, u)
      ensures exists j :: 0 <= j < |batch| && ids[batch[j]] == u
      ensures exists i :: 0 <= i < |ids| && ids[i] == u && states[i].outcome == Unresolved
    {
      DeliveryAsks(ids, states, batch, lease, c, u);
    }
    GoodTraceCall(task, ids, states, trace, c, repaired);
  }

  lemma DeliverEntry(task: PushTask, ids: seq<string>, states: seq<Recipient>, batch: seq<nat>, lease: Lease, c: Call,
                     k: nat)
    requires Routed(states, batch, lease.instance) && DeliveryOf(c, task, states, batch, lease)
    requires L.Distinct(ids) && |states| == |ids| && k < |batch|
    requires forall i | 0 <= i < |ids| :: states[i].userId == ids[i] && LocalOk(states[i])
    requires c.delivered.Reply? && ValidDelivery(c.delivered.value, c.taskId, c.messageId, c.targets)
    ensures var before := states[batch[k]];
            var after := Delivered(before, c.delivered.value.value.results[k].value.outcome);
            && LocalOk(after) && after.userId == before.userId
            && (after.outcome == Unresolved ==> !Settles(c, before.userId))
            && (after.outcome != Unresolved ==> SettledAs(c, before.userId, after.outcome))
            && (after.route == before.route || after.route.None?)
  {
    hide ValidId;
    var code := c.delivered.value.value.results[k].value.outcome;
    var user := states[batch[k]].userId;
    if OutcomeOf(code) == Unresolved {
      forall j: nat, o | DeliveredAt(c, j, user, o) ensures false {
        OnePosition(ids, batch, batch[k], j, k);
      }
    } else {
      assert DeliveredAt(c, k, user, OutcomeOf(code));
    }
  }

  lemma DeliverTracked(task: PushTask, ids: seq<string>, before: seq<Recipient>, after: seq<Recipient>,
                       trace: seq<Call>, batch: seq<nat>, lease: Lease, c: Call)
    requires Tracked(task, ids, before, trace) && Routed(before, batch, lease.instance)
    requires OnlyChanges(before, after, batch) && DeliveryOf(c, task, before, batch, lease)
    requires c.delivered.Reply? && ValidDelivery(c.delivered.value, c.taskId, c.messageId, c.targets)
    requires forall j | 0 <= j < |batch| ::
               after[batch[j]] == Delivered(before[batch[j]], c.delivered.value.value.results[j].value.outcome)
    requires forall u | Asks(c, u) :: u in ids
    ensures Tracked(task, ids, after, trace + [c])
  {
    TrackedParts(task, ids, before, trace);
    forall i | 0 <= i < |ids|
      ensures after[i].userId == ids[i] && LocalOk(after[i])
      ensures after[i].outcome == Unresolved ==> before[i].outcome == Unresolved && !Settles(c, ids[i])
      ensures after[i].outcome != Unresolved ==> after[i] == before[i] || SettledAs(c, ids[i], after[i].outcome)
      ensures after[i].route.Some? ==> after[i].route == before[i].route
    {
      hide Tracked, ValidDelivery, LocalOk, Delivered;
      if i in batch {
        var k :| 0 <= k < |batch| && batch[k] == i;
        DeliverEntry(task, ids, before, batch, lease, c, k);
      } else {
        NotTargeted(task, ids, before, batch, lease, c, i);
      }
    }
    hide *;
    TrackedCall(task, ids, before, after, trace, c);
  }

  lemma NotTargeted(task: PushTask, ids: seq<string>, states: seq<Recipient>, batch: seq<nat>, lease: Lease, c: Call,
                    i: nat)
    requires Routed(states, batch, lease.instance) && DeliveryOf(c, task, states, batch, lease)
    requires L.Distinct(ids) && |states| == |ids| && i < |ids| && i !in batch
    requires forall i | 0 <= i < |ids| :: states[i].userId == ids[i] && LocalOk(states[i])
    ensures !Settles(c, ids[i])
  {
    forall j | 0 <= j < |batch| ensures c.targets[j].user != ids[i] {
      assert batch[j] in batch;
      assert LocalOk(states[batch[j]]);
    }
  }

  lemma ServedEntries(before: seq<Recipient>, after: seq<Recipient>, batch: seq<nat>, lease: Lease, task: PushTask,
                      c: Call)
    requires Routed(before, batch, lease.instance) && |after| == |before| && DeliveryOf(c, task, before, batch, lease)
    requires c.delivered.Reply? && ValidDelivery(c.delivered.value, c.taskId, c.messageId, c.targets)
    requires forall j | 0 <= j < |batch| ::
               after[batch[j]] == Delivered(before[batch[j]], c.delivered.value.value.results[j].value.outcome)
    ensures forall n | n in batch :: Served(before[n], after[n], c)
  {
    hide Delivered;
    forall n | n in batch ensures Served(before[n], after[n], c) {
      var j :| 0 <= j < |batch| && batch[j] == n;
      assert before[n].route == Some(c.targets[j]);
    }
  }

  lemma Unserved(ids: seq<string>, trace: seq<Call>, round: nat, batch: seq<nat>, kept: seq<nat>)
    requires forall j | 0 <= j < |batch| :: batch[j] < |ids|
    requires (forall n | n in kept :: n in batch) && NotYetServed(ids, trace, round, batch)
    ensures forall j | 0 <= j < |kept| :: kept[j] < |ids|
    ensures NotYetServed(ids, trace, round, kept)
  {
    hide Asks;
    forall j | 0 <= j < |kept| ensures kept[j] < |ids| {
      assert kept[j] in kept;
    }
    forall a, j | 0 <= a < |trace| && trace[a].DeliverCall? && trace[a].round == round && 0 <= j < |kept|
      ensures !Asks(trace[a], ids[kept[j]])
    {
      assert kept[j] in kept;
    }
  }

  /** The round's calls so far, with the place where `lease` was resolved. */
  lemma ResolvedHere(trace: seq<Call>, r: nat, j: nat, round: nat, lease: Lease)
    requires r < |trace| && ResolvedAt(trace[r], j, round, lease)
    ensures ResolvedBefore(trace, round, lease)
  {
  }

  lemma GroupsDisjoint(states: seq<Recipient>, x: seq<nat>, y: seq<nat>, ix: string, iy: string)
    requires Routed(states, x, ix) && Routed(states, y, iy) && ix != iy
    ensures forall n | n in x :: n !in y
  {
  }

  /** Later groups are untouched and unserved after one group was handled. */
  lemma OthersUnserved(ids: seq<string>, states: seq<Recipient>, before: seq<Call>, after: seq<Call>, round: nat,
                       done: seq<nat>, rest: seq<nat>)
    requires L.Distinct(ids) && |states| == |ids|
    requires forall j | 0 <= j < |done| :: done[j] < |ids|
    requires forall j | 0 <= j < |rest| :: rest[j] < |ids|
    requires forall n | n in done :: n !in rest
    requires NotYetServed(ids, before, round, rest) && before <= after
    requires forall a | |before| <= a < |after| ::
               forall u | Asks(after[a], u) :: exists j :: 0 <= j < |done| && ids[done[j]] == u
    ensures NotYetServed(ids, after, round, rest)
  {
    hide Asks;
    forall a, k | 0 <= a < |after| && after[a].DeliverCall? && after[a].round == round && 0 <= k < |rest|
      ensures !Asks(after[a], ids[rest[k]])
    {
      if a < |before| {
        assert after[a] == before[a];
      } else {
        assert rest[k] in rest;
        forall j | 0 <= j < |done| ensures ids[done[j]] != ids[rest[k]] {
          assert done[j] in done;
        }
      }
    }
  }

  lemma OpenIndices(states: seq<Recipient>, batch: seq<nat>, ids: seq<string>)
    ensures Open(states, batch) ==> forall j | 0 <= j < |batch| :: batch[j] < |states|
  {
  }

  lemma ResolutionsPresent(r: Option<seq<Option<ResolveItem>>>, ids: seq<string>, now: int)
    requires ValidResolutions(r, ids, now)
    ensures r.Some?
  {
  }

  /** The check of a batch: whoever survives stays as is, the others are under repair. */
  ghost predicate Sifted(kept: seq<nat>, before: seq<Recipient>, after: seq<Recipient>, batch: seq<nat>, lease: Lease,
                         r: Reading) {
    && OnlyChanges(before, after, batch) && (forall j | 0 <= j < |batch| :: batch[j] < |before|)
    && Survive(kept, before, batch, lease, r)
    && forall n | n in batch ::
         n < |before| && after[n] == if Alive(before[n], lease, r) then before[n] else Repaired(before[n], RouteChanged)
  }

  /** The routes of the batch's first `k` have been checked. */
  ghost predicate SiftedBelow(kept: seq<nat>, before: seq<Recipient>, after: seq<Recipient>, batch: seq<nat>, k: nat,
                              now: int) {
    && |after| == |before| && Open(before, batch) && k <= |batch|
    && (forall n | 0 <= n < |before| && n !in batch[..k] :: after[n] == before[n])
    && Ordered(kept) && (forall n: nat :: n in kept <==> n in batch[..k] && n < |before| && Timely(before[n], now))
    && forall j | 0 <= j < k ::
         after[batch[j]] == if Timely(before[batch[j]], now) then before[batch[j]]
                            else Repaired(before[batch[j]], RouteChanged)
  }

  lemma SiftedNext(fewer: seq<nat>, kept: seq<nat>, before: seq<Recipient>, states: seq<Recipient>,
                   after: seq<Recipient>, batch: seq<nat>, k: nat, now: int)
    requires SiftedBelow(fewer, before, states, batch, k, now) && k < |batch|
    requires if Timely(states[batch[k]], now) then kept == fewer + [batch[k]] && after == states
             else kept == fewer && after == states[batch[k] := Repaired(states[batch[k]], RouteChanged)]
    ensures SiftedBelow(kept, before, after, batch, k + 1, now)
  {
    hide Timely, Repaired;
    assert batch[..k + 1] == batch[..k] + [batch[k]];
    assert batch[k] !in batch[..k];
    forall j | 0 <= j < |fewer| ensures fewer[j] < batch[k] {
      assert fewer[j] in fewer;
    }
  }

  lemma AllSifted(kept: seq<nat>, before: seq<Recipient>, after: seq<Recipient>, batch: seq<nat>, lease: Lease,
                  r: Reading)
    requires SiftedBelow(kept, before, after, batch, |batch|, r.route) && Future(lease.deadline, r.lease)
    ensures SoftAll(before, after) && Sifted(kept, before, after, batch, lease, r)
  {
    hide Timely;
    assert batch[..|batch|] == batch;
    forall n | n in batch
      ensures n < |before| && before[n].outcome == Unresolved
      ensures after[n] == if Alive(before[n], lease, r) then before[n] else Repaired(before[n], RouteChanged)
    {
      var j :| 0 <= j < |batch| && batch[j] == n;
    }
  }

  /** What the check keeps of a routed batch is still routed. */
  lemma ReadyRouted(before: seq<Recipient>, after: seq<Recipient>, batch: seq<nat>, kept: seq<nat>, lease: Lease,
                    r: Reading)
    requires Routed(before, batch, lease.instance) && Sifted(kept, before, after, batch, lease, r)
    ensures Routed(after, kept, lease.instance) && forall n | n in kept :: n in batch
  {
    hide Alive, Repaired;
    forall j | 0 <= j < |kept|
      ensures kept[j] < |after| && after[kept[j]] == before[kept[j]] && before[kept[j]].outcome == Unresolved
      ensures before[kept[j]].route.Some? && before[kept[j]].route.value.instance == lease.instance
    {
      assert kept[j] in kept;
    }
  }

  /** The whole effect of an instance's turn on its group. */
  ghost predicate Visited(task: PushTask, start: seq<Recipient>, end: seq<Recipient>, batch: seq<nat>, lease: Lease,
                          v: Visit, round: nat) {
    && (forall j | 0 <= j < |batch| :: batch[j] < |start| && start[batch[j]].route.Some?)
    && OnlyChanges(start, end, batch) && Sent(v, lease, task, start, batch, round)
    && forall n | n in batch :: n < |start| && VisitStep(start[n], end[n], lease, v)
  }

  lemma VisitedNobody(task: PushTask, start: seq<Recipient>, end: seq<Recipient>, batch: seq<nat>, lease: Lease,
                      v: Visit, round: nat)
    requires Routed(start, batch, lease.instance) && Sifted([], start, end, batch, lease, v.first)
    requires v.kept == [] && v.sent.None?
    ensures Visited(task, start, end, batch, lease, v, round)
  {
    hide Alive, Repaired;
    forall n | n in batch ensures !Alive(start[n], lease, v.first) {
      assert n !in [];
    }
  }

  lemma Undialled(task: PushTask, start: seq<Recipient>, sifted: seq<Recipient>, end: seq<Recipient>, batch: seq<nat>,
                  ready: seq<nat>, lease: Lease, v: Visit, round: nat)
    requires Routed(start, batch, lease.instance) && Sifted(ready, start, sifted, batch, lease, v.first)
    requires !v.dialled && v.kept == [] && v.sent.None? && OnlyChanges(sifted, end, ready)
    requires forall n | n in ready :: n < |sifted| && end[n] == sifted[n].(reason := DependencyFailure)
    ensures Visited(task, start, end, batch, lease, v, round)
  {
    hide Alive, Repaired;
  }

  lemma Dialled(task: PushTask, start: seq<Recipient>, sifted: seq<Recipient>, end: seq<Recipient>, batch: seq<nat>,
                ready: seq<nat>, kept: seq<nat>, lease: Lease, v: Visit, round: nat)
    requires Routed(start, batch, lease.instance) && Sifted(ready, start, sifted, batch, lease, v.first)
    requires Sifted(kept, sifted, end, ready, lease, v.second)
    requires v.dialled && v.kept == kept && v.sent.None? && (kept == [] || v.late || v.cut)
    ensures Visited(task, start, end, batch, lease, v, round)
    ensures forall n | n in kept :: n in batch && n < |start| && end[n] == start[n] && Reachable(start[n], lease, v)
  {
    hide Alive, Repaired;
  }

  lemma DialledServed(task: PushTask, start: seq<Recipient>, dialled: seq<Recipient>, end: seq<Recipient>,
                      batch: seq<nat>, lease: Lease, before: Visit, c: Call, round: nat)
    requires Visited(task, start, dialled, batch, lease, before, round) && before.dialled && before.sent.None?
    requires Routed(dialled, before.kept, lease.instance) && OnlyChanges(dialled, end, before.kept) && before.kept != []
    requires forall n | n in before.kept ::
               n < |start| && dialled[n] == start[n] && n in batch && Reachable(start[n], lease, before)
    requires DeliveryOf(c, task, dialled, before.kept, lease) && c.round == round
    requires forall n | n in before.kept :: Served(dialled[n], end[n], c)
    ensures Visited(task, start, end, batch, lease, before.(late := false, cut := false, sent := Some(c)), round)
  {
    hide Alive, Repaired, Served;
    var v := before.(late := false, cut := false, sent := Some(c));
    forall j | 0 <= j < |v.kept| ensures v.kept[j] in batch && dialled[v.kept[j]] == start[v.kept[j]] {
      assert v.kept[j] in v.kept;
    }
    assert RoutesOf(dialled, v.kept) == RoutesOf(start, v.kept);
    forall n: nat ensures n in v.kept <==> n in batch && Reachable(start[n], lease, v) {
    }
  }

  // ----- the lookup half -----

  /** The selection has come to position `i`. */
  ghost predicate SelectedBelow(before: seq<Recipient>, states: seq<Recipient>, i: nat, batch: seq<nat>, isRepair: bool,
                                repaired: bool) {
    && |states| == |before| && i <= |before|
    && (forall k | 0 <= k < |states| :: states[k] == if k < i then StopSpent(before[k], repaired) else before[k])
    && Ordered(batch) && (forall n: nat :: n in batch <==> n < i && Chosen(before[n], repaired))
    && (isRepair <==> exists n :: n in batch && n < |before| && before[n].repair)
  }

  lemma SelectedNext(before: seq<Recipient>, states: seq<Recipient>, next: seq<Recipient>, i: nat, shorter: seq<nat>,
                     batch: seq<nat>, wasRepair: bool, isRepair: bool, repaired: bool)
    requires SelectedBelow(before, states, i, shorter, wasRepair, repaired) && i < |states|
    requires next == states[i := StopSpent(states[i], repaired)]
    requires batch == if Chosen(states[i], repaired) then shorter + [i] else shorter
    requires isRepair <==> wasRepair || (Chosen(states[i], repaired) && states[i].repair)
    ensures SelectedBelow(before, next, i + 1, batch, isRepair, repaired)
  {
    forall j | 0 <= j < |shorter| ensures shorter[j] < i {
      assert shorter[j] in shorter;
    }
    hide StopSpent, Chosen;
    assert i in shorter + [i];
  }

  lemma AllSelected(before: seq<Recipient>, states: seq<Recipient>, batch: seq<nat>, isRepair: bool, repaired: bool)
    requires SelectedBelow(before, states, |before|, batch, isRepair, repaired)
    ensures Open(states, batch) && Picks(batch, before, repaired) && SoftAll(before, states)
    ensures isRepair <==> exists j :: 0 <= j < |batch| && states[batch[j]].repair
  {
    forall j | 0 <= j < |batch| ensures batch[j] < |before| && Chosen(before[batch[j]], repaired) {
      assert batch[j] in batch;
    }
    if n :| n in batch && n < |before| && before[n].repair {
      var j :| 0 <= j < |batch| && batch[j] == n;
    }
  }

  lemma GivenUpSoft(before: seq<Recipient>, after: seq<Recipient>, batch: seq<nat>)
    requires OnlyChanges(before, after, batch) && forall n | n in batch :: n < |before| && after[n] == GiveUp(before[n])
    ensures SoftAll(before, after)
  {
    forall i | 0 <= i < |before| ensures Soft(before[i], after[i]) {
      if i !in batch {
        assert after[i] == before[i];
      }
    }
  }

  /** Stopping, asking and giving up together are the lookup half. */
  lemma LookupSteps(start: seq<Recipient>, asked: seq<Recipient>, answered: seq<Recipient>, mid: seq<Recipient>,
                    repaired: bool, batch: seq<nat>, c: Call, round: nat)
    requires |asked| == |start| && Picks(batch, start, repaired) && batch != []
    requires forall i | 0 <= i < |start| :: asked[i] == StopSpent(start[i], repaired)
    requires OnlyChanges(asked, answered, batch) && OnlyChanges(answered, mid, batch)
    requires forall n | n in batch :: Asked(asked[n], answered[n], c)
    requires forall n | n in batch :: mid[n] == GiveUp(answered[n])
    requires (forall j | 0 <= j < |batch| :: batch[j] < |asked|) && LookupOf(c, asked, batch, round)
    ensures LookupHalf(start, repaired, round, batch, Some(c), mid)
  {
    forall j | 0 <= j < |batch| ensures batch[j] < |start| && asked[batch[j]] == start[batch[j]] {
      assert batch[j] in batch;
    }
    hide Asked, GiveUp;
    forall i | 0 <= i < |start| ensures LookupStep(start[i], mid[i], repaired, Some(c)) {
      if i in batch {
        assert Asked(start[i], answered[i], c);
      }
    }
  }

  // ----- the groups -----

  lemma GroupsNext(groups: map<string, seq<nat>>, next: map<string, seq<nat>>, states: seq<Recipient>, i: nat)
    requires i < |states| && GroupsOf(groups, states[..i])
    requires next == if !Routable(states[i]) then groups
                     else
                       var id := states[i].route.value.instance;
                       groups[id := (if id in groups then groups[id] else []) + [i]]
    ensures GroupsOf(next, states[..i + 1])
  {
    forall id, j | id in groups && 0 <= j < |groups[id]| ensures groups[id][j] < i {
      assert InGroup(groups, id, groups[id][j]);
    }
    forall id, n: nat ensures InGroup(next, id, n) <==> n < i + 1 && RoutableTo(states[..i + 1][n], id) {
      assert n < i ==> states[..i + 1][n] == states[..i][n];
      assert InGroup(groups, id, n) <==> n < i && RoutableTo(states[..i][n], id);
    }
  }

  lemma GroupRouted(groups: map<string, seq<nat>>, mid: seq<Recipient>, states: seq<Recipient>, id: string)
    requires GroupsOf(groups, mid) && id in groups && |states| == |mid|
    requires forall n: nat | InGroup(groups, id, n) :: n < |states| && states[n] == mid[n]
    ensures Routed(states, groups[id], id)
    ensures forall n | n in groups[id] :: n < |states| && states[n] == mid[n]
  {
    forall j | 0 <= j < |groups[id]| ensures groups[id][j] < |states| && RoutableTo(states[groups[id][j]], id) {
      assert InGroup(groups, id, groups[id][j]);
    }
    forall n | n in groups[id] ensures n < |states| && states[n] == mid[n] {
      assert InGroup(groups, id, n);
    }
  }

  /** Nobody is in two groups, and only routable recipients are in one. */
  lemma OneGroup(groups: map<string, seq<nat>>, mid: seq<Recipient>, n: nat, id: string)
    requires GroupsOf(groups, mid) && id in groups && n < |mid|
    requires !RoutableTo(mid[n], id)
    ensures n !in groups[id]
  {
    assert !InGroup(groups, id, n);
  }

  /** What becomes of a routable recipient when no instance was resolved. */
  function Unserviced(s: Recipient, failure: Option<RpcError>): Recipient {
    if failure.Some? then Failed(s, failure.value, false) else s.(reason := InvalidResponse)
  }

  /** The first `k` groups carry the failure, nobody else does. */
  ghost predicate FailedGroups(instances: seq<string>, groups: map<string, seq<nat>>, mid: seq<Recipient>,
                               states: seq<Recipient>, k: nat, failure: Option<RpcError>) {
    && |states| == |mid|
    && (forall n | 0 <= n < |mid| && !Routable(mid[n]) :: states[n] == mid[n])
    && forall j, n: nat | 0 <= j < |instances| && InGroup(groups, instances[j], n) ::
         n < |mid| && states[n] == if j < k then Unserviced(mid[n], failure) else mid[n]
  }

  lemma FailedNext(instances: seq<string>, groups: map<string, seq<nat>>, mid: seq<Recipient>, before: seq<Recipient>,
                   after: seq<Recipient>, k: nat, failure: Option<RpcError>)
    requires k < |instances| && L.Distinct(instances) && instances[k] in groups && GroupsOf(groups, mid)
    requires FailedGroups(instances, groups, mid, before, k, failure)
    requires OnlyChanges(before, after, groups[instances[k]])
    requires forall n | n in groups[instances[k]] :: n < |mid| && after[n] == Unserviced(before[n], failure)
    ensures FailedGroups(instances, groups, mid, after, k + 1, failure)
  {
    hide Unserviced;
    forall n | 0 <= n < |mid| && !Routable(mid[n]) ensures after[n] == mid[n] {
      OneGroup(groups, mid, n, instances[k]);
    }
    forall j, n: nat | 0 <= j < |instances| && InGroup(groups, instances[j], n)
      ensures n < |mid| && after[n] == if j < k + 1 then Unserviced(mid[n], failure) else mid[n]
    {
      assert RoutableTo(mid[n], instances[j]);
      if j != k {
        OneGroup(groups, mid, n, instances[k]);
      }
    }
  }

  lemma AllFailed(instances: seq<string>, groups: map<string, seq<nat>>, mid: seq<Recipient>, states: seq<Recipient>,
                  failure: Option<RpcError>)
    requires GroupsOf(groups, mid) && forall id :: id in instances <==> id in groups
    requires FailedGroups(instances, groups, mid, states, |instances|, failure)
    ensures forall i | 0 <= i < |mid| :: states[i] == if Routable(mid[i]) then Unserviced(mid[i], failure) else mid[i]
  {
    hide Unserviced;
    forall i | 0 <= i < |mid| && Routable(mid[i]) ensures states[i] == Unserviced(mid[i], failure) {
      var id := mid[i].route.value.instance;
      assert InGroup(groups, id, i);
      var j :| 0 <= j < |instances| && instances[j] == id;
    }
  }

  /** Without a resolution nothing changes. */
  lemma Undelivered(job: Job, mid: seq<Recipient>, round: nat, groups: map<string, seq<nat>>, over: bool)
    requires GroupsOf(groups, mid) && (over || groups == map[])
    ensures Listed(None) == [] && SentCalls([]) == []
    ensures DeliverHalf(job, mid, round, groups, None, [], mid, over)
  {
    hide GroupsOf;
  }

  lemma OnlyLookup(before: seq<Call>, after: seq<Call>, lookup: Option<Call>, round: nat)
    requires after == before + Listed(lookup) && (lookup.Some? ==> lookup.value.LookupCall?)
    requires forall a | 0 <= a < |before| :: before[a].round < round
    ensures forall a | 0 <= a < |after| :: after[a].round < round || after[a].LookupCall?
  {
  }

  lemma RoundDone(job: Job, round: nat, log: RoundLog, over: bool, before: seq<Call>, after: seq<Call>)
    requires LookupHalf(log.start, log.repaired, round, log.batch, log.lookup, log.mid)
    requires DeliverHalf(job, log.mid, round, log.groups, log.resolve, log.visits, log.end, over)
    requires after == before + Listed(log.lookup) + Listed(log.resolve) + SentCalls(log.visits)
    ensures RoundOk(job, round, log, over) && after == before + CallsOf(log)
  {
    hide LookupHalf, DeliverHalf, Listed, SentCalls;
    assert after == before + (Listed(log.lookup) + Listed(log.resolve) + SentCalls(log.visits));
  }

  // ----- the instances' turns -----

  /** The instances before `|visits|` had their turns; the groups of the others are as they were. */
  ghost predicate Turned(c: Call, groups: map<string, seq<nat>>, job: Job, mid: seq<Recipient>,
                         states: seq<Recipient>, visits: seq<Visit>) {
    && Resolved(c) && GroupsOf(groups, mid) && |states| == |mid| && |visits| <= |c.instances|
    && (forall k | 0 <= k < |visits| :: TurnOk(c, k, groups, job, mid, visits[k]))
    && (forall n | 0 <= n < |mid| && !Routable(mid[n]) :: states[n] == mid[n])
    && forall j: nat, n: nat | j < |c.instances| && InGroup(groups, c.instances[j], n) ::
         && n < |mid|
         && if j < |visits| then TurnStep(mid[n], states[n], ResolvedState(c, j), visits[j]) else states[n] == mid[n]
  }

  lemma NothingTurned(c: Call, groups: map<string, seq<nat>>, job: Job, mid: seq<Recipient>)
    requires Resolved(c) && GroupsOf(groups, mid)
    ensures Turned(c, groups, job, mid, mid, [])
  {
    hide ValidResolutions, TurnStep, TurnOk;
  }

  lemma StillRouted(c: Call, groups: map<string, seq<nat>>, job: Job, mid: seq<Recipient>, states: seq<Recipient>,
                    visits: seq<Visit>, k: nat)
    requires Turned(c, groups, job, mid, states, visits) && |visits| <= k < |c.instances| && c.instances[k] in groups
    ensures |states| == |mid| && GroupsOf(groups, mid) && Resolved(c)
    ensures Routed(states, groups[c.instances[k]], c.instances[k])
    ensures forall n | n in groups[c.instances[k]] :: n < |mid| && states[n] == mid[n]
  {
    hide ValidResolutions, TurnStep, TurnOk;
    GroupRouted(groups, mid, states, c.instances[k]);
  }

  lemma ResolvedEntry(c: Call, k: nat)
    requires Resolved(c) && k < |c.instances|
    ensures c.resolved.value.Some? && |c.resolved.value.value| == |c.instances|
    ensures c.resolved.value.value[k].Some? && c.resolved.value.value[k].value.state == ResolvedState(c, k)
    ensures match ResolvedState(c, k)
            case HasLease(lease) =>
              lease.Some? && lease.value.instance == c.instances[k] && ResolvedAt(c, k, c.round, lease.value)
            case IsMissing(_) => true
            case NoCometState => false
  {
    assert ValidResolveItem(c.resolved.value.value[k], c.instances[k], c.now);
  }

  /** What was sent depends on the batch's own recipients only. */
  lemma SentAlike(v: Visit, lease: Lease, task: PushTask, states: seq<Recipient>, mid: seq<Recipient>, batch: seq<nat>,
                  round: nat)
    requires |states| == |mid| && forall n | n in batch :: n < |states| && states[n] == mid[n]
    requires forall j | 0 <= j < |batch| :: batch[j] < |states| && states[batch[j]].route.Some?
    requires Sent(v, lease, task, states, batch, round)
    ensures forall j | 0 <= j < |batch| :: mid[batch[j]].route.Some?
    ensures Sent(v, lease, task, mid, batch, round)
  {
    hide Reachable;
    forall j | 0 <= j < |batch| ensures mid[batch[j]].route.Some? {
      assert batch[j] in batch;
    }
    if v.sent.Some? {
      assert RoutesOf(states, v.kept) == RoutesOf(mid, v.kept);
    }
  }

  lemma TurnedNext(c: Call, groups: map<string, seq<nat>>, job: Job, mid: seq<Recipient>, before: seq<Recipient>,
                   after: seq<Recipient>, visits: seq<Visit>, v: Visit)
    requires Turned(c, groups, job, mid, before, visits) && |visits| < |c.instances| && L.Distinct(c.instances)
    requires c.instances[|visits|] in groups && OnlyChanges(before, after, groups[c.instances[|visits|]])
    requires forall n | n in groups[c.instances[|visits|]] ::
               n < |after| && TurnStep(before[n], after[n], ResolvedState(c, |visits|), v)
    requires TurnOk(c, |visits|, groups, job, mid, v)
    ensures Turned(c, groups, job, mid, after, visits + [v])
  {
    hide ValidResolutions, ResolvedState, TurnStep, TurnOk;
    var k, longer := |visits|, visits + [v];
    forall n | 0 <= n < |mid| && !Routable(mid[n]) ensures after[n] == mid[n] {
      OneGroup(groups, mid, n, c.instances[k]);
    }
    forall j: nat, n: nat | j < |c.instances| && InGroup(groups, c.instances[j], n)
      ensures n < |mid|
      ensures if j < |longer| then TurnStep(mid[n], after[n], ResolvedState(c, j), longer[j]) else after[n] == mid[n]
    {
      assert RoutableTo(mid[n], c.instances[j]);
      if j != k {
        OneGroup(groups, mid, n, c.instances[k]);
        assert j < k ==> longer[j] == visits[j];
      }
    }
  }

  /** A turn taken on the current recipients is a turn on those from before the resolution. */
  lemma TurnOver(c: Call, groups: map<string, seq<nat>>, job: Job, mid: seq<Recipient>, before: seq<Recipient>,
                 after: seq<Recipient>, visits: seq<Visit>, v: Visit)
    requires Turned(c, groups, job, mid, before, visits) && |visits| < |c.instances| && L.Distinct(c.instances)
    requires c.instances[|visits|] in groups && OnlyChanges(before, after, groups[c.instances[|visits|]])
    requires Routed(before, groups[c.instances[|visits|]], c.instances[|visits|])
    requires forall n | n in groups[c.instances[|visits|]] ::
               TurnStep(before[n], after[n], ResolvedState(c, |visits|), v)
    requires TurnSent(v, ResolvedState(c, |visits|), job, before, groups[c.instances[|visits|]], c.round)
    ensures Turned(c, groups, job, mid, after, visits + [v])
  {
    hide ValidResolutions, ResolvedState, TurnStep, Sent, GroupsOf, Turned;
    StillRouted(c, groups, job, mid, before, visits, |visits|);
    var batch, state := groups[c.instances[|visits|]], ResolvedState(c, |visits|);
    forall j | 0 <= j < |batch| ensures mid[batch[j]].route.Some? {
      assert batch[j] in batch;
    }
    if state.HasLease? {
      SentAlike(v, state.lease.value, job.task, before, mid, batch, c.round);
    }
    TurnedNext(c, groups, job, mid, before, after, visits, v);
  }

  /** Once the turns are over, every routable recipient has made its step. */
  lemma TurnsDeliver(c: Call, groups: map<string, seq<nat>>, mid: seq<Recipient>, states: seq<Recipient>,
                     visits: seq<Visit>, job: Job)
    requires Turned(c, groups, job, mid, states, visits) && forall id :: id in c.instances <==> id in groups
    ensures forall i | 0 <= i < |mid| ::
              if Routable(mid[i]) then DeliverStep(mid[i], states[i], c, visits) else states[i] == mid[i]
  {
    hide ValidResolutions, ResolvedState, TurnStep, TurnOk;
    forall i | 0 <= i < |mid| && Routable(mid[i]) ensures DeliverStep(mid[i], states[i], c, visits) {
      var id := mid[i].route.value.instance;
      assert InGroup(groups, id, i);
      var k :| 0 <= k < |c.instances| && c.instances[k] == id;
    }
  }

  function FailureOf(c: Call): Option<RpcError>
    requires c.ResolveCall?
  {
    if c.resolved.Error? then Some(c.resolved.error) else None
  }

  /** The turns, or the failure of all groups, are the delivery half. */
  lemma HalfDone(job: Job, mid: seq<Recipient>, round: nat, groups: map<string, seq<nat>>, c: Call,
                 visits: seq<Visit>, end: seq<Recipient>, over: bool)
    requires GroupsOf(groups, mid) && groups != map[] && ResolutionOf(c, groups, round) && |end| == |mid|
    requires if Resolved(c)
             then
               && Turned(c, groups, job, mid, end, visits) && (over || |visits| == |c.instances|)
               && forall k | 0 <= k < |visits| && visits[k].cut :: over
             else
               && visits == []
               && forall i | 0 <= i < |mid| ::
                    end[i] == if Routable(mid[i]) then Unserviced(mid[i], FailureOf(c)) else mid[i]
    ensures DeliverHalf(job, mid, round, groups, Some(c), visits, end, over)
  {
    hide ValidResolutions, ResolvedState, TurnStep, TurnOk, GroupsOf, Failed;
    if Resolved(c) {
      TurnsDeliver(c, groups, mid, end, visits, job);
    }
  }

  /** Nobody of the group and nothing at the instance has been served in this round. */
  ghost predicate Free(ids: seq<string>, trace: seq<Call>, round: nat, group: seq<nat>, instance: string) {
    && (forall j | 0 <= j < |group| :: group[j] < |ids|)
    && NotYetServed(ids, trace, round, group) && Unvisited(trace, round, instance)
  }

  ghost predicate LaterFree(ids: seq<string>, trace: seq<Call>, round: nat, groups: map<string, seq<nat>>,
                            instances: seq<string>, k: nat) {
    forall j | k <= j < |instances| ::
      instances[j] in groups && Free(ids, trace, round, groups[instances[j]], instances[j])
  }

  lemma AllFree(ids: seq<string>, groups: map<string, seq<nat>>, states: seq<Recipient>, instances: seq<string>,
                trace: seq<Call>, round: nat)
    requires GroupsOf(groups, states) && |states| == |ids| && forall id :: id in instances <==> id in groups
    requires forall a | 0 <= a < |trace| && trace[a].DeliverCall? :: trace[a].round < round
    ensures LaterFree(ids, trace, round, groups, instances, 0)
  {
    hide Asks;
    forall j | 0 <= j < |instances|
      ensures instances[j] in groups && Free(ids, trace, round, groups[instances[j]], instances[j])
    {
      assert instances[j] in instances;
      GroupRouted(groups, states, states, instances[j]);
    }
  }

  /** A turn leaves the later groups and instances free. */
  lemma FreeNext(ids: seq<string>, groups: map<string, seq<nat>>, mid: seq<Recipient>, instances: seq<string>,
                 before: seq<Call>, after: seq<Call>, round: nat, k: nat, sent: Option<Call>)
    requires L.Distinct(ids) && |mid| == |ids| && GroupsOf(groups, mid) && L.Distinct(instances) && k < |instances|
    requires LaterFree(ids, before, round, groups, instances, k) && after == before + Listed(sent)
    requires sent.Some? ==>
               && sent.value.DeliverCall? && sent.value.lease.instance == instances[k]
               && forall u | Asks(sent.value, u) ::
                    exists i :: 0 <= i < |groups[instances[k]]| && ids[groups[instances[k]][i]] == u
    ensures LaterFree(ids, after, round, groups, instances, k + 1)
  {
    hide Asks, NotYetServed;
    forall j | k < j < |instances|
      ensures instances[j] in groups && Free(ids, after, round, groups[instances[j]], instances[j])
    {
      GroupRouted(groups, mid, mid, instances[j]);
      GroupRouted(groups, mid, mid, instances[k]);
      GroupsDisjoint(mid, groups[instances[k]], groups[instances[j]], instances[k], instances[j]);
      OthersUnserved(ids, mid, before, after, round, groups[instances[k]], groups[instances[j]]);
    }
  }

  // ----- the turns so far -----

  ghost predicate SoFar(c: Call, groups: map<string, seq<nat>>, job: Job, ids: seq<string>, mid: seq<Recipient>,
                        states: seq<Recipient>, calls: seq<Call>, trace: seq<Call>, visits: seq<Visit>) {
    && L.Distinct(ids) && |mid| == |ids| && Turned(c, groups, job, mid, states, visits) && L.Distinct(c.instances)
    && LaterFree(ids, trace, c.round, groups, c.instances, |visits|)
    && trace == calls + SentCalls(visits)
  }

  lemma StartTurns(c: Call, groups: map<string, seq<nat>>, job: Job, ids: seq<string>, mid: seq<Recipient>,
                   trace: seq<Call>)
    requires L.Distinct(ids) && |mid| == |ids| && Turned(c, groups, job, mid, mid, []) && L.Distinct(c.instances)
    requires LaterFree(ids, trace, c.round, groups, c.instances, 0)
    ensures SoFar(c, groups, job, ids, mid, mid, trace, trace, [])
  {
    hide Turned, LaterFree;
  }

  lemma AllSoFar(c: Call, groups: map<string, seq<nat>>, job: Job, ids: seq<string>, mid: seq<Recipient>,
                 states: seq<Recipient>, calls: seq<Call>, trace: seq<Call>, visits: seq<Visit>)
    requires SoFar(c, groups, job, ids, mid, states, calls, trace, visits)
    ensures Turned(c, groups, job, mid, states, visits) && trace == calls + SentCalls(visits)
  {
    hide Turned, LaterFree, SentCalls;
  }

  /** The next instance's group is still routed and free, and the resolution has its entry. */
  lemma NextTurn(c: Call, groups: map<string, seq<nat>>, job: Job, ids: seq<string>, mid: seq<Recipient>,
                 states: seq<Recipient>, calls: seq<Call>, trace: seq<Call>, visits: seq<Visit>, r: nat)
    requires SoFar(c, groups, job, ids, mid, states, calls, trace, visits) && Resolved(c)
    requires |visits| < |c.instances| && r < |calls| && calls[r] == c
    ensures r < |trace| && trace[r] == c && c.instances[|visits|] in groups
    ensures Routed(states, groups[c.instances[|visits|]], c.instances[|visits|])
    ensures Free(ids, trace, c.round, groups[c.instances[|visits|]], c.instances[|visits|])
    ensures c.resolved.value.Some? && |c.resolved.value.value| == |c.instances|
    ensures c.resolved.value.value[|visits|].Some?
    ensures c.resolved.value.value[|visits|].value.state == ResolvedState(c, |visits|)
  {
    hide Turned, SentCalls, ValidResolutions, Free;
    ResolvedEntry(c, |visits|);
    StillRouted(c, groups, job, mid, states, visits, |visits|);
  }

  lemma TurnTaken(c: Call, groups: map<string, seq<nat>>, job: Job, ids: seq<string>, mid: seq<Recipient>,
                  before: seq<Recipient>, after: seq<Recipient>, calls: seq<Call>, earlier: seq<Call>, trace: seq<Call>,
                  visits: seq<Visit>, v: Visit)
    requires SoFar(c, groups, job, ids, mid, before, calls, earlier, visits) && Resolved(c) && |visits| < |c.instances|
    requires c.instances[|visits|] in groups && OnlyChanges(before, after, groups[c.instances[|visits|]])
    requires Routed(before, groups[c.instances[|visits|]], c.instances[|visits|])
    requires forall n | n in groups[c.instances[|visits|]] ::
               TurnStep(before[n], after[n], ResolvedState(c, |visits|), v)
    requires TurnSent(v, ResolvedState(c, |visits|), job, before, groups[c.instances[|visits|]], c.round)
    requires trace == earlier + Listed(v.sent)
    requires v.sent.Some? ==>
               && v.sent.value.DeliverCall? && v.sent.value.lease.instance == c.instances[|visits|]
               && forall u | Asks(v.sent.value, u) ::
                    exists i :: 0 <= i < |groups[c.instances[|visits|]]| && ids[groups[c.instances[|visits|]][i]] == u
    requires forall i | 0 <= i < |groups[c.instances[|visits|]]| :: groups[c.instances[|visits|]][i] < |ids|
    ensures SoFar(c, groups, job, ids, mid, after, calls, trace, visits + [v])
  {
    hide Turned, SentCalls, ValidResolutions, TurnStep, TurnSent, LaterFree, Asks, ResolvedState, Routed, OnlyChanges;
    StillRouted(c, groups, job, mid, before, visits, |visits|);
    TurnOver(c, groups, job, mid, before, after, visits, v);
    FreeNext(ids, groups, mid, c.instances, earlier, trace, c.round, |visits|, v.sent);
    SentMore(visits, v);
  }

  lemma SentMore(visits: seq<Visit>, v: Visit)
    ensures SentCalls(visits + [v]) == SentCalls(visits) + Listed(v.sent)
  {
    assert (visits + [v])[..|visits|] == visits;
  }
}
