/**
 What each call of the lease script does to the stored records and what it answers, in terms of the records alone: who
 is refused and why, what a success writes, and that nothing else changes.
 */
module LeaseEffects {
  import opened Wrappers
  import opened Identifiers
  import opened RouteToken
  import opened LeaseScript
  import opened LeaseRuns

  // ----- what the records say -----

  predicate LiveLease(st: Store, instance: string, now: int) {
    instance in st.instances && now < st.instances[instance].deadline
  }

  predicate HeldBy(st: Store, instance: string, boot: string, now: int) {
    LiveLease(st, instance, now) && st.instances[instance].boot == boot
  }

  /** The user's route and its authentication are both live. */
  predicate LiveUser(st: Store, user: string, now: int) {
    user in st.routes && now < st.routes[user].deadline && now < st.routes[user].auth
  }

  predicate Stored(st: Store, id: Tuple) {
    id.user in st.routes && st.routes[id.user].id == id
  }

  /** The boot that accepted the user's route still holds the instance's lease. */
  predicate Accepted(st: Store, user: string, now: int)
    requires user in st.routes
  {
    HeldBy(st, st.routes[user].id.instance, st.routes[user].boot, now)
  }

  /** The reachable stores, at a time the clock can show. */
  predicate Working(st: Store, ttl: Ttl, now: int) {
    Intact(st, ttl, now) && ttl.Positive() && ClockInRange(ttl, now)
  }

  predicate OneInstance(st: Store, after: Store, v: Instance) {
    after.routes == st.routes && after.instances == st.instances[v.instance := v]
  }

  predicate OneRoute(st: Store, after: Store, v: Route) {
    after.instances == st.instances && after.routes == st.routes[v.id.user := v]
  }

  /** What the script reads of a store whose records are all valid. */
  lemma ReadsInstance(st: Store, ttl: Ttl, now: int, key: string)
    requires Working(st, ttl, now)
    ensures ReadInstance(st, key) == if key in st.instances then Present(st.instances[key]) else Absent
    ensures key in st.instances ==> st.instances[key].instance == key
  {
    hide LuaUuid, ValidInstance;
  }

  lemma ReadsRoute(st: Store, ttl: Ttl, now: int, user: string)
    requires Working(st, ttl, now)
    ensures ReadRoute(st, user) == if user in st.routes then Present(st.routes[user]) else Absent
    ensures user in st.routes ==> st.routes[user].id.user == user
  {
    hide LuaUuid, LuaUser, LuaToken, ValidInstance;
  }

  /** The two records that decide about a user. */
  lemma ReadsUser(st: Store, ttl: Ttl, now: int, user: string)
    requires Working(st, ttl, now)
    ensures ReadRoute(st, user) == if user in st.routes then Present(st.routes[user]) else Absent
    ensures user in st.routes ==>
              var instance := st.routes[user].id.instance;
              && st.routes[user].id.user == user
              && ReadInstance(st, instance)
                   == if instance in st.instances then Present(st.instances[instance]) else Absent
  {
    hide Working;
    ReadsRoute(st, ttl, now, user);
    if user in st.routes {
      ReadsInstance(st, ttl, now, st.routes[user].id.instance);
    }
  }

  // ----- instances -----

  /** Only a live lease of another boot or address stands in the way; otherwise the caller gets a full lifetime. */
  lemma RegisterEffect(st: Store, ttl: Ttl, now: int, instance: string, boot: string, address: string)
    requires Working(st, ttl, now) && ValidCommand(Register(instance, boot, address))
    ensures var (after, reply) := Execute(st, ttl, now, Register(instance, boot, address));
            && (reply.InstanceLease? || reply == Failed(Conflict))
            && (reply == Failed(Conflict) <==>
                  && LiveLease(st, instance, now)
                  && !(st.instances[instance].boot == boot && st.instances[instance].address == address))
            && (reply.Failed? ==> after == st)
            && (reply.InstanceLease? ==>
                  && OneInstance(st, after, reply.lease)
                  && reply.lease.instance == instance && reply.lease.boot == boot && reply.lease.address == address
                  && reply.lease.deadline == now + ttl.instance
                  && (reply.lease.draining <==> LiveLease(st, instance, now) && st.instances[instance].draining))
  {
    ReadsInstance(st, ttl, now, instance);
    hide ReadInstance, ReadRoute, Intact, LuaUuid, ValidUuid, ValidInstance, ClockInRange;
    ClockLater(ttl, now);
  }

  lemma ClockLater(ttl: Ttl, now: int)
    requires ttl.Positive()
    ensures now < now + ttl.instance && now < now + ttl.route
  {
  }

  /** A renewal by the holder extends the lease and may start draining, never end it; everybody else is refused. */
  lemma RenewEffect(st: Store, ttl: Ttl, now: int, instance: string, boot: string, draining: bool)
    requires Working(st, ttl, now) && ValidCommand(Renew(instance, boot, draining))
    ensures var (after, reply) := Execute(st, ttl, now, Renew(instance, boot, draining));
            && (reply.InstanceLease? || reply == Failed(NotRegistered))
            && (reply.InstanceLease? <==> HeldBy(st, instance, boot, now))
            && (reply.Failed? ==> after == st)
            && (reply.InstanceLease? ==>
                  && OneInstance(st, after, reply.lease)
                  && reply.lease.instance == instance && reply.lease.boot == boot
                  && reply.lease.address == st.instances[instance].address
                  && reply.lease.deadline == now + ttl.instance
                  && (reply.lease.draining <==> draining || st.instances[instance].draining))
  {
    ReadsInstance(st, ttl, now, instance);
    hide ReadInstance, ReadRoute, Intact, LuaUuid, ValidUuid, ValidInstance, ClockInRange;
    ClockLater(ttl, now);
  }

  /** Only the holder removes its lease; nobody else's call changes anything. */
  lemma UnregisterEffect(st: Store, ttl: Ttl, now: int, instance: string, boot: string)
    requires Working(st, ttl, now) && ValidCommand(Unregister(instance, boot))
    ensures var (after, reply) := Execute(st, ttl, now, Unregister(instance, boot));
            && (reply == Deleted(Removed) || reply == Deleted(NotCurrent) || reply == Deleted(NotFound))
            && (reply == Deleted(NotFound) <==> !LiveLease(st, instance, now))
            && (reply == Deleted(Removed) <==> HeldBy(st, instance, boot, now))
            && after.routes == st.routes
            && after.instances == if reply == Deleted(Removed) then st.instances - {instance} else st.instances
  {
    ReadsInstance(st, ttl, now, instance);
    hide ReadInstance, ReadRoute, Intact, LuaUuid, ValidUuid, ValidInstance, ClockInRange;
  }

  // ----- routes -----

  /** What a connect asks of the instance before it looks at the user. */
  predicate Takes(st: Store, id: Tuple, boot: string, now: int) {
    HeldBy(st, id.instance, boot, now) && !st.instances[id.instance].draining
  }

  /**
   A connect succeeds exactly on a live instance of that boot that is not draining and with more than five seconds of
   authentication left. It installs the route for the route's lifetime or until authentication ends, whichever is
   sooner, whoever was there before, and hands back what was live.
   */
  lemma ConnectEffect(st: Store, ttl: Ttl, now: int, id: Tuple, boot: string, auth: int)
    requires Working(st, ttl, now) && ValidCommand(Connect(id, boot, auth))
    ensures var (after, reply) := Execute(st, ttl, now, Connect(id, boot, auth));
            && (reply.Connected? <==> Takes(st, id, boot, now) && auth != 0 && now + 5000 < auth)
            && (reply == Failed(NotRegistered) <==> !HeldBy(st, id.instance, boot, now))
            && (reply == Failed(Draining) <==>
                  HeldBy(st, id.instance, boot, now) && st.instances[id.instance].draining)
            && (reply == Failed(Dependency) <==> Takes(st, id, boot, now) && auth == 0)
            && (reply == Failed(Expired) <==> Takes(st, id, boot, now) && auth != 0 && auth <= now + 5000)
            && (!reply.Connected? ==> after == st)
            && (reply.Connected? ==>
                  && OneRoute(st, after, reply.installed)
                  && reply.installed.id == id && reply.installed.boot == boot && reply.installed.auth == auth
                  && Sooner(reply.installed.deadline, now + ttl.route, auth)
                  && (reply.previous.Some? <==> LiveUser(st, id.user, now))
                  && (reply.previous.Some? ==> reply.previous.value == st.routes[id.user]))
  {
    ReadsInstance(st, ttl, now, id.instance);
    ReadsRoute(st, ttl, now, id.user);
    hide ReadInstance, ReadRoute, Intact, LuaUuid, ValidUuid, ValidInstance, ClockInRange, LuaToken;
    ClockLater(ttl, now);
  }

  /** `t` is the smaller of the two. */
  predicate Sooner(t: int, a: int, b: int) {
    t <= a && t <= b && (t == a || t == b)
  }

  /** Who is refused a check or a heartbeat, and why; each refusal has its own condition. */
  predicate CheckVerdict(st: Store, now: int, id: Tuple, reply: Reply) {
    && (reply.RouteLease? <==> Stored(st, id) && LiveUser(st, id.user, now) && Accepted(st, id.user, now))
    && (reply == Failed(Superseded) <==> id.user in st.routes && !Stored(st, id))
    && (reply == Failed(Expired) <==> id.user !in st.routes || (Stored(st, id) && !LiveUser(st, id.user, now)))
    && (reply == Failed(NotRegistered) <==>
          Stored(st, id) && LiveUser(st, id.user, now) && !Accepted(st, id.user, now))
  }

  /** A check answers with the stored route and changes nothing. */
  lemma CheckEffect(st: Store, ttl: Ttl, now: int, id: Tuple)
    requires Working(st, ttl, now) && ValidCommand(Check(id))
    ensures var (after, reply) := Execute(st, ttl, now, Check(id));
            && CheckVerdict(st, now, id, reply) && after == st
            && (reply.RouteLease? ==> reply.route == st.routes[id.user])
  {
    ReadsUser(st, ttl, now, id.user);
    hide ReadInstance, ReadRoute, Intact, LuaUuid, ValidUuid, ValidInstance, ClockInRange, LuaToken;
  }

  /** A heartbeat extends the stored route by a full lifetime, up to the end of its authentication. */
  lemma HeartbeatEffect(st: Store, ttl: Ttl, now: int, id: Tuple)
    requires Working(st, ttl, now) && ValidCommand(Heartbeat(id))
    ensures var (after, reply) := Execute(st, ttl, now, Heartbeat(id));
            && CheckVerdict(st, now, id, reply)
            && (reply.Failed? ==> after == st)
            && (reply.RouteLease? ==>
                  && OneRoute(st, after, reply.route)
                  && reply.route.id == id && reply.route.boot == st.routes[id.user].boot
                  && reply.route.auth == st.routes[id.user].auth
                  && Sooner(reply.route.deadline, now + ttl.route, st.routes[id.user].auth))
  {
    ReadsUser(st, ttl, now, id.user);
    hide ReadInstance, ReadRoute, Intact, LuaUuid, ValidUuid, ValidInstance, ClockInRange, LuaToken;
    ClockLater(ttl, now);
  }

  /** Only the very tuple is removed, and only while it is live. */
  lemma DisconnectEffect(st: Store, ttl: Ttl, now: int, id: Tuple)
    requires Working(st, ttl, now) && ValidCommand(Disconnect(id))
    ensures var (after, reply) := Execute(st, ttl, now, Disconnect(id));
            && (reply == Deleted(Removed) || reply == Deleted(NotCurrent) || reply == Deleted(NotFound))
            && (reply == Deleted(NotFound) <==> !(id.user in st.routes && now < st.routes[id.user].deadline))
            && (reply == Deleted(Removed) <==> Stored(st, id) && now < st.routes[id.user].deadline)
            && after.instances == st.instances
            && after.routes == if reply == Deleted(Removed) then st.routes - {id.user} else st.routes
  {
    ReadsRoute(st, ttl, now, id.user);
    hide ReadInstance, ReadRoute, Intact, LuaUuid, ValidUuid, ValidInstance, ClockInRange, LuaToken;
  }

  // ----- queries -----

  /** A user is online exactly on a live route whose boot holds a live lease; otherwise one of three reasons applies. */
  predicate LookedUp(st: Store, now: int, user: string, r: LookupResult) {
    && r.user == user
    && (r.Online? <==> LiveUser(st, user, now) && Accepted(st, user, now))
    && (r == Offline(user, NoRoute) <==> user !in st.routes)
    && (r == Offline(user, RouteExpired) <==> user in st.routes && !LiveUser(st, user, now))
    && (r == Offline(user, InstanceExpired) <==> LiveUser(st, user, now) && !Accepted(st, user, now))
    && (r.Online? ==> r.route == st.routes[user])
  }

  lemma LookupOneEffect(st: Store, ttl: Ttl, now: int, user: string)
    requires Working(st, ttl, now)
    ensures LookupOne(st, now, user).Some? && LookedUp(st, now, user, LookupOne(st, now, user).value)
  {
    ReadsUser(st, ttl, now, user);
    hide ReadInstance, ReadRoute, Intact, ClockInRange;
  }

  /** A lookup says of each user, in order, whether it is online, draining or not; it changes nothing. */
  lemma LookupEffect(st: Store, ttl: Ttl, now: int, ids: seq<string>)
    requires Working(st, ttl, now) && ValidCommand(Lookup(ids))
    ensures var (after, reply) := Execute(st, ttl, now, Lookup(ids));
            && after == st && reply.Routes? && |reply.routes| == |ids|
            && forall k | 0 <= k < |ids| :: LookedUp(st, now, ids[k], reply.routes[k])
  {
    forall k | 0 <= k < |ids|
      ensures LookupOne(st, now, ids[k]).Some? && LookedUp(st, now, ids[k], LookupOne(st, now, ids[k]).value)
    {
      LookupOneEffect(st, ttl, now, ids[k]);
    }
    hide LookupOne, LookedUp, Intact, ClockInRange, ValidUuid, ValidInstance, ValidId;
    forall k | 0 <= k < |ids| ensures LookedUp(st, now, ids[k], LookupAll(st, now, ids).value[k]) {
      assert LookupOne(st, now, ids[k]) == Some(LookupAll(st, now, ids).value[k]);
    }
  }

  predicate ResolvedTo(st: Store, now: int, id: string, r: Resolution) {
    && r.id == id
    && (r.Available? <==> LiveLease(st, id, now))
    && (r == Missing(id, Unregistered) <==> id !in st.instances)
    && (r == Missing(id, LeaseExpired) <==> id in st.instances && !LiveLease(st, id, now))
    && (r.Available? ==> r.lease == st.instances[id])
  }

  /** A resolution hands out each live lease, draining or not, and says why the others are missing. */
  lemma ResolveEffect(st: Store, ttl: Ttl, now: int, ids: seq<string>)
    requires Working(st, ttl, now) && ValidCommand(Resolve(ids))
    ensures var (after, reply) := Execute(st, ttl, now, Resolve(ids));
            && after == st && reply.Comets? && |reply.comets| == |ids|
            && forall k | 0 <= k < |ids| :: ResolvedTo(st, now, ids[k], reply.comets[k])
  {
    forall k | 0 <= k < |ids|
      ensures ResolveOne(st, now, ids[k]).Some? && ResolvedTo(st, now, ids[k], ResolveOne(st, now, ids[k]).value)
    {
      ReadsInstance(st, ttl, now, ids[k]);
    }
    hide ResolveOne, ResolvedTo, Intact, ClockInRange, ValidInstance;
    forall k | 0 <= k < |ids| ensures ResolvedTo(st, now, ids[k], ResolveAll(st, now, ids).value[k]) {
      assert ResolveOne(st, now, ids[k]) == Some(ResolveAll(st, now, ids).value[k]);
    }
  }

  // ----- records that are not valid -----

  /** The record under the key is there but fails the script's checks. */
  predicate BadInstance(st: Store, key: string) {
    key in st.instances && !LuaInstanceRecord(key, st.instances[key])
  }

  predicate BadRoute(st: Store, key: string) {
    key in st.routes && !LuaRouteRecord(key, st.routes[key])
  }

  /** The first record a call reads. */
  predicate FirstIsBad(st: Store, cmd: Command) {
    match cmd
    case Register(instance, _, _) => BadInstance(st, instance)
    case Renew(instance, _, _) => BadInstance(st, instance)
    case Unregister(instance, _) => BadInstance(st, instance)
    case Connect(id, _, _) => BadInstance(st, id.instance)
    case Check(id) => BadRoute(st, id.user)
    case Heartbeat(id) => BadRoute(st, id.user)
    case Disconnect(id) => BadRoute(st, id.user)
    case Lookup(ids) => exists k :: 0 <= k < |ids| && BadRoute(st, ids[k])
    case Resolve(ids) => exists k :: 0 <= k < |ids| && BadInstance(st, ids[k])
  }

  /** On any store, a call whose record is bad fails and changes nothing; refused arguments do not even read it. */
  lemma BadRecordFails(st: Store, ttl: Ttl, now: int, cmd: Command)
    requires FirstIsBad(st, cmd)
    ensures Execute(st, ttl, now, cmd) == (st, Failed(if ValidCommand(cmd) then Dependency else Invalid))
  {
    hide ValidCommand, LuaInstanceRecord, LuaRouteRecord;
    match cmd
    case Lookup(ids) =>
      var k :| 0 <= k < |ids| && BadRoute(st, ids[k]);
      assert LookupOne(st, now, ids[k]).None?;
    case Resolve(ids) =>
      var k :| 0 <= k < |ids| && BadInstance(st, ids[k]);
      assert ResolveOne(st, now, ids[k]).None?;
    case _ =>
  }

  // ----- staying online -----

  /** The tuple's own route is stored as its boot accepted it, and good until `until` at least. */
  predicate GoodUntil(st: Store, id: Tuple, boot: string, auth: int, until: int) {
    Stored(st, id) && st.routes[id.user].boot == boot && st.routes[id.user].auth == auth
    && until <= st.routes[id.user].deadline
  }

  /** Calls that can end a connection: another connect of the user, or its own disconnect. */
  predicate MayEnd(cmd: Command, id: Tuple) {
    (cmd.Connect? && cmd.id.user == id.user) || cmd == Disconnect(id)
  }

  lemma GoodStep(st: Store, ttl: Ttl, now: int, cmd: Command, id: Tuple, boot: string, auth: int, until: int)
    requires GoodUntil(st, id, boot, auth, until) && !MayEnd(cmd, id)
    requires until <= now + ttl.route && until <= auth
    ensures GoodUntil(Execute(st, ttl, now, cmd).0, id, boot, auth, until)
  {
    hide ValidCommand, LuaInstanceRecord, LuaRouteRecord;
    match cmd
    case Heartbeat(other) => HeartbeatKeeps(st, ttl, now, other, id, boot, auth, until);
    case _ =>
  }

  lemma HeartbeatKeeps(st: Store, ttl: Ttl, now: int, other: Tuple, id: Tuple, boot: string, auth: int, until: int)
    requires GoodUntil(st, id, boot, auth, until) && until <= now + ttl.route && until <= auth
    ensures GoodUntil(CheckOp(st, ttl, now, other, true).0, id, boot, auth, until)
  {
    hide LuaInstanceRecord, LuaRouteRecord;
  }

  /** The reply that shows the route, if the call was a successful connect or heartbeat. */
  predicate Confirmed(reply: Reply, route: Route) {
    (reply.Connected? && reply.installed == route) || (reply.RouteLease? && reply.route == route)
  }

  lemma {:induction false} GoodUpTo(st: Store, ttl: Ttl, start: int, calls: seq<Call>, j: nat, k: nat, route: Route)
    requires GoodRun(st, ttl, start, calls) && j < k <= |calls|
    requires calls[j].cmd.Connect? || calls[j].cmd.Heartbeat?
    requires Confirmed(ReplyTo(st, ttl, calls, j), route)
    requires forall i | j < i < k :: !MayEnd(calls[i].cmd, route.id)
    ensures Sooner(route.deadline, calls[j].now + ttl.route, route.auth)
    ensures GoodUntil(After(st, ttl, calls[..k]), route.id, route.boot, route.auth, route.deadline)
    decreases k
  {
    hide Execute, Intact, ClockInRange, GoodUntil, MayEnd;
    PrefixStep(st, ttl, calls, k - 1);
    RunKeepsIntact(st, ttl, start, calls, k - 1);
    if k == j + 1 {
      ConfirmedIsStored(After(st, ttl, calls[..j]), ttl, calls[j].now, calls[j].cmd, route);
    } else {
      GoodUpTo(st, ttl, start, calls, j, k - 1, route);
      var before := After(st, ttl, calls[..k - 1]);
      GoodStep(before, ttl, calls[k - 1].now, calls[k - 1].cmd, route.id, route.boot, route.auth, route.deadline);
    }
  }

  lemma ConnectStores(st: Store, ttl: Ttl, now: int, id: Tuple, boot: string, auth: int, route: Route)
    requires Working(st, ttl, now) && ValidCommand(Connect(id, boot, auth))
    requires Confirmed(Execute(st, ttl, now, Connect(id, boot, auth)).1, route)
    ensures Sooner(route.deadline, now + ttl.route, route.auth)
    ensures OneRoute(st, Execute(st, ttl, now, Connect(id, boot, auth)).0, route)
  {
    hide Execute, ValidCommand, Working, HeldBy, LiveUser, Sooner, OneRoute;
    ConnectEffect(st, ttl, now, id, boot, auth);
  }

  lemma HeartbeatStores(st: Store, ttl: Ttl, now: int, id: Tuple, route: Route)
    requires Working(st, ttl, now) && ValidCommand(Heartbeat(id))
    requires Confirmed(Execute(st, ttl, now, Heartbeat(id)).1, route)
    ensures Sooner(route.deadline, now + ttl.route, route.auth)
    ensures OneRoute(st, Execute(st, ttl, now, Heartbeat(id)).0, route)
  {
    hide Execute, ValidCommand, Working, Sooner, OneRoute;
    HeartbeatEffect(st, ttl, now, id);
  }

  lemma ConfirmedIsStored(st: Store, ttl: Ttl, now: int, cmd: Command, route: Route)
    requires Working(st, ttl, now) && (cmd.Connect? || cmd.Heartbeat?) && Confirmed(Execute(st, ttl, now, cmd).1, route)
    ensures Sooner(route.deadline, now + ttl.route, route.auth)
    ensures GoodUntil(Execute(st, ttl, now, cmd).0, route.id, route.boot, route.auth, route.deadline)
  {
    NotRefused(st, ttl, now, cmd, route);
    hide Execute, ValidCommand, Working, Sooner, Confirmed, OneRoute, GoodUntil;
    if cmd.Connect? {
      ConnectStores(st, ttl, now, cmd.id, cmd.boot, cmd.auth, route);
    } else {
      HeartbeatStores(st, ttl, now, cmd.id, route);
    }
    StoredIsGood(st, Execute(st, ttl, now, cmd).0, route);
  }

  lemma StoredIsGood(st: Store, after: Store, route: Route)
    requires OneRoute(st, after, route)
    ensures GoodUntil(after, route.id, route.boot, route.auth, route.deadline)
  {
  }

  lemma NotRefused(st: Store, ttl: Ttl, now: int, cmd: Command, route: Route)
    requires Confirmed(Execute(st, ttl, now, cmd).1, route)
    ensures ValidCommand(cmd)
  {
    hide ValidCommand, RegisterOp, RenewOp, UnregisterOp, ConnectOp, CheckOp, DisconnectOp, LookupAll, ResolveAll;
  }

  /** The route is live, and its boot holds the instance. */
  predicate IsOnline(st: Store, now: int, route: Route) {
    && GoodUntil(st, route.id, route.boot, route.auth, route.deadline)
    && now < route.deadline && now < route.auth && HoldsLease(st, route.id.instance, route.boot, now)
  }

  lemma HeartbeatFinds(st: Store, ttl: Ttl, now: int, route: Route)
    requires Working(st, ttl, now) && IsOnline(st, now, route) && ValidCommand(Heartbeat(route.id))
    ensures var reply := Execute(st, ttl, now, Heartbeat(route.id)).1;
            && reply.RouteLease? && reply.route.id == route.id && reply.route.boot == route.boot
            && Sooner(reply.route.deadline, now + ttl.route, route.auth)
  {
    hide Execute, ValidCommand, Intact, ClockInRange;
    HeartbeatEffect(st, ttl, now, route.id);
  }

  lemma LookupFinds(st: Store, ttl: Ttl, now: int, ids: seq<string>, route: Route)
    requires Working(st, ttl, now) && IsOnline(st, now, route) && ValidCommand(Lookup(ids))
    ensures var reply := Execute(st, ttl, now, Lookup(ids)).1;
            && reply.Routes? && |reply.routes| == |ids|
            && forall n | 0 <= n < |ids| && ids[n] == route.id.user ::
                 reply.routes[n].Online? && reply.routes[n].route.id == route.id
  {
    hide Execute, ValidCommand, Intact, ClockInRange;
    LookupEffect(st, ttl, now, ids);
    forall n | 0 <= n < |ids| && ids[n] == route.id.user
      ensures var r := Execute(st, ttl, now, Lookup(ids)).1.routes[n]; r.Online? && r.route.id == route.id
    {
      assert LookedUp(st, now, ids[n], Execute(st, ttl, now, Lookup(ids)).1.routes[n]);
    }
  }

  /**
   A connection stays online from one confirmation to the next. After a successful connect or heartbeat, until its
   lifetime or authentication runs out, and as long as the user neither connects anew nor disconnects it and its boot
   keeps the instance's lease, a lookup finds exactly this connection and the next heartbeat succeeds.
   */
  lemma StaysOnline(st: Store, ttl: Ttl, start: int, calls: seq<Call>, j: nat, k: nat, route: Route)
    requires GoodRun(st, ttl, start, calls) && j < k < |calls|
    requires calls[j].cmd.Connect? || calls[j].cmd.Heartbeat?
    requires Confirmed(ReplyTo(st, ttl, calls, j), route)
    requires forall i | j < i < k :: !MayEnd(calls[i].cmd, route.id)
    requires calls[k].now < calls[j].now + ttl.route && calls[k].now < route.auth
    requires HoldsLease(After(st, ttl, calls[..k]), route.id.instance, route.boot, calls[k].now)
    ensures calls[k].cmd == Heartbeat(route.id) && ValidCommand(calls[k].cmd) ==>
              var reply := ReplyTo(st, ttl, calls, k);
              && reply.RouteLease? && reply.route.id == route.id && reply.route.boot == route.boot
              && Sooner(reply.route.deadline, calls[k].now + ttl.route, route.auth)
    ensures calls[k].cmd.Lookup? && ValidCommand(calls[k].cmd) ==>
              var reply := ReplyTo(st, ttl, calls, k);
              && reply.Routes? && |reply.routes| == |calls[k].cmd.ids|
              && forall n | 0 <= n < |reply.routes| && calls[k].cmd.ids[n] == route.id.user ::
                   reply.routes[n].Online? && reply.routes[n].route.id == route.id
  {
    GoodUpTo(st, ttl, start, calls, j, k, route);
    RunKeepsIntact(st, ttl, start, calls, k);
    var now := After(st, ttl, calls[..k]);
    hide Execute, ValidCommand, Intact, ClockInRange, After, GoodUntil;
    if ValidCommand(calls[k].cmd) {
      if calls[k].cmd == Heartbeat(route.id) {
        HeartbeatFinds(now, ttl, calls[k].now, route);
      } else if calls[k].cmd.Lookup? {
        LookupFinds(now, ttl, calls[k].now, calls[k].cmd.ids, route);
      }
    }
  }
}
