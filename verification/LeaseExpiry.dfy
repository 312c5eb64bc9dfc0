/**
 Redis may drop a record once its expiry has passed, and may also keep it a little longer. This module compares a
 store that drops records at arbitrary moments after their deadline with a twin that never drops any.
 */
module LeaseExpiry {
  import opened Wrappers
  import opened Identifiers
  import opened RouteToken
  import opened LeaseScript
  import opened LeaseRuns

  /** `p` is `l` without some records whose deadline has passed. */
  ghost predicate Purged(p: Store, l: Store, now: int) {
    && (forall k | k in p.instances :: k in l.instances && p.instances[k] == l.instances[k])
    && (forall k | k in p.routes :: k in l.routes && p.routes[k] == l.routes[k])
    && (forall k | k in l.instances && k !in p.instances :: l.instances[k].deadline <= now)
    && (forall k | k in l.routes && k !in p.routes :: l.routes[k].deadline <= now)
  }

  predicate AgreeRoute(p: LookupResult, l: LookupResult) {
    p == l || (p.Offline? && l.Offline? && p.user == l.user && p.reason == NoRoute && l.reason == RouteExpired)
  }

  predicate AgreeComet(p: Resolution, l: Resolution) {
    p == l || (p.Missing? && l.Missing? && p.id == l.id && p.why == Unregistered && l.why == LeaseExpired)
  }

  /**
   The only visible differences: check and heartbeat may say `expired` where the twin says `superseded`, and a
   lookup or resolve entry may say "none" where the twin says "expired". Everything else is equal.
   */
  predicate Agree(cmd: Command, p: Reply, l: Reply) {
    || p == l
    || ((cmd.Check? || cmd.Heartbeat?) && p == Failed(Expired) && l == Failed(Superseded))
    || (p.Routes? && l.Routes? && |p.routes| == |l.routes|
        && forall k | 0 <= k < |p.routes| :: AgreeRoute(p.routes[k], l.routes[k]))
    || (p.Comets? && l.Comets? && |p.comets| == |l.comets|
        && forall k | 0 <= k < |p.comets| :: AgreeComet(p.comets[k], l.comets[k]))
  }

  lemma PurgedInstance(p: Store, l: Store, ttl: Ttl, now: int, key: string)
    requires Purged(p, l, now) && Intact(l, ttl, now)
    ensures LiveInstance(ReadInstance(p, key), now) <==> LiveInstance(ReadInstance(l, key), now)
    ensures LiveInstance(ReadInstance(p, key), now) ==> ReadInstance(p, key) == ReadInstance(l, key)
    ensures !ReadInstance(p, key).Corrupt? && !ReadInstance(l, key).Corrupt?
    ensures ReadInstance(l, key).Absent? ==> ReadInstance(p, key).Absent?
    ensures ReadInstance(p, key).Present? ==> ReadInstance(p, key) == ReadInstance(l, key)
  {
    hide LuaInstanceRecord, LuaRouteRecord;
  }

  lemma PurgedRoute(p: Store, l: Store, ttl: Ttl, now: int, key: string)
    requires Purged(p, l, now) && Intact(l, ttl, now)
    ensures LiveRoute(ReadRoute(p, key), now) <==> LiveRoute(ReadRoute(l, key), now)
    ensures LiveRoute(ReadRoute(p, key), now) ==> ReadRoute(p, key) == ReadRoute(l, key)
    ensures !ReadRoute(p, key).Corrupt? && !ReadRoute(l, key).Corrupt?
    ensures ReadRoute(l, key).Absent? ==> ReadRoute(p, key).Absent?
    ensures ReadRoute(p, key).Present? ==> ReadRoute(p, key) == ReadRoute(l, key)
  {
    hide LuaInstanceRecord, LuaRouteRecord;
  }

  /** Writing one same live record to both stores keeps them related. */
  lemma PutBoth(p: Store, l: Store, now: int, i: Instance, r: Route, reply: Reply)
    requires Purged(p, l, now)
    ensures Purged(PutInstance(p, now, i).0, PutInstance(l, now, i).0, now)
    ensures PutInstance(p, now, i).1 == PutInstance(l, now, i).1
    ensures Purged(PutRoute(p, now, r, reply).0, PutRoute(l, now, r, reply).0, now)
    ensures PutRoute(p, now, r, reply).1 == PutRoute(l, now, r, reply).1
  {
  }

  lemma PurgedRegister(p: Store, l: Store, ttl: Ttl, now: int, instance: string, boot: string, address: string)
    requires Intact(l, ttl, now) && Purged(p, l, now)
    ensures Purged(RegisterOp(p, ttl, now, instance, boot, address).0,
                   RegisterOp(l, ttl, now, instance, boot, address).0, now)
    ensures RegisterOp(p, ttl, now, instance, boot, address).1 == RegisterOp(l, ttl, now, instance, boot, address).1
  {
    hide LuaInstanceRecord, LuaRouteRecord;
    PurgedInstance(p, l, ttl, now, instance);
  }

  lemma PurgedRenew(p: Store, l: Store, ttl: Ttl, now: int, instance: string, boot: string, draining: bool)
    requires Intact(l, ttl, now) && Purged(p, l, now)
    ensures Purged(RenewOp(p, ttl, now, instance, boot, draining).0, RenewOp(l, ttl, now, instance, boot, draining).0,
                   now)
    ensures RenewOp(p, ttl, now, instance, boot, draining).1 == RenewOp(l, ttl, now, instance, boot, draining).1
  {
    hide LuaInstanceRecord, LuaRouteRecord;
    PurgedInstance(p, l, ttl, now, instance);
  }

  lemma PurgedConnect(p: Store, l: Store, ttl: Ttl, now: int, id: Tuple, boot: string, auth: int)
    requires Intact(l, ttl, now) && Purged(p, l, now)
    ensures Purged(ConnectOp(p, ttl, now, id, boot, auth).0, ConnectOp(l, ttl, now, id, boot, auth).0, now)
    ensures ConnectOp(p, ttl, now, id, boot, auth).1 == ConnectOp(l, ttl, now, id, boot, auth).1
  {
    hide LuaInstanceRecord, LuaRouteRecord, PutRoute, PutInstance;
    PurgedInstance(p, l, ttl, now, id.instance);
    PurgedRoute(p, l, ttl, now, id.user);
    var route := Route(id, boot, auth, Min(now + ttl.route, auth));
    var r := ReadRoute(l, id.user);
    var previous := if LiveRoute(r, now) && r.value.auth > now then Some(r.value) else None;
    PutBoth(p, l, now, Instance("", "", "", false, 0), route, Connected(route, previous));
  }

  lemma PurgedCheck(p: Store, l: Store, ttl: Ttl, now: int, id: Tuple, extend: bool)
    requires Intact(l, ttl, now) && Purged(p, l, now)
    ensures Purged(CheckOp(p, ttl, now, id, extend).0, CheckOp(l, ttl, now, id, extend).0, now)
    ensures var rp, rl := CheckOp(p, ttl, now, id, extend).1, CheckOp(l, ttl, now, id, extend).1;
            rp == rl || (rp == Failed(Expired) && rl == Failed(Superseded))
  {
    hide LuaInstanceRecord, LuaRouteRecord, PutRoute, PutInstance;
    PurgedInstance(p, l, ttl, now, id.instance);
    PurgedRoute(p, l, ttl, now, id.user);
    var r := ReadRoute(l, id.user);
    if r.Present? {
      var route := r.value.(deadline := Min(now + ttl.route, r.value.auth));
      PutBoth(p, l, now, Instance("", "", "", false, 0), route, RouteLease(route));
    }
  }

  /** One call on both stores: agreeing replies, and the stores stay related. */
  lemma PurgedStep(p: Store, l: Store, ttl: Ttl, now: int, cmd: Command)
    requires ttl.Positive() && Intact(l, ttl, now) && Purged(p, l, now)
    ensures Purged(Execute(p, ttl, now, cmd).0, Execute(l, ttl, now, cmd).0, now)
    ensures Agree(cmd, Execute(p, ttl, now, cmd).1, Execute(l, ttl, now, cmd).1)
  {
    hide LuaInstanceRecord, LuaRouteRecord, Intact, Purged;
    hide ValidCommand, RegisterOp, RenewOp, ConnectOp, CheckOp, UnregisterOp, DisconnectOp;
    if ValidCommand(cmd) {
      match cmd
      case Register(instance, boot, address) => PurgedRegister(p, l, ttl, now, instance, boot, address);
      case Renew(instance, boot, draining) => PurgedRenew(p, l, ttl, now, instance, boot, draining);
      case Unregister(instance, boot) => PurgedDeletes(p, l, ttl, now, instance, boot, Tuple("", "", "", ""));
      case Connect(id, boot, auth) => PurgedConnect(p, l, ttl, now, id, boot, auth);
      case Check(id) => PurgedCheck(p, l, ttl, now, id, false);
      case Heartbeat(id) => PurgedCheck(p, l, ttl, now, id, true);
      case Disconnect(id) => PurgedDeletes(p, l, ttl, now, "", "", id);
      case Lookup(ids) => PurgedLookup(p, l, ttl, now, ids);
      case Resolve(ids) => PurgedResolve(p, l, ttl, now, ids);
    }
  }

  lemma PurgedDeletes(p: Store, l: Store, ttl: Ttl, now: int, instance: string, boot: string, id: Tuple)
    requires Intact(l, ttl, now) && Purged(p, l, now)
    ensures Purged(UnregisterOp(p, now, instance, boot).0, UnregisterOp(l, now, instance, boot).0, now)
    ensures UnregisterOp(p, now, instance, boot).1 == UnregisterOp(l, now, instance, boot).1
    ensures Purged(DisconnectOp(p, now, id).0, DisconnectOp(l, now, id).0, now)
    ensures DisconnectOp(p, now, id).1 == DisconnectOp(l, now, id).1
  {
    hide LuaInstanceRecord, LuaRouteRecord;
    PurgedInstance(p, l, ttl, now, instance);
    PurgedRoute(p, l, ttl, now, id.user);
  }

  lemma PurgedLookup(p: Store, l: Store, ttl: Ttl, now: int, ids: seq<string>)
    requires Intact(l, ttl, now) && Purged(p, l, now)
    ensures var rp, rl := LookupAll(p, now, ids), LookupAll(l, now, ids);
            rp.Some? && rl.Some? && Agree(Lookup(ids), Routes(rp.value), Routes(rl.value))
  {
    hide LuaInstanceRecord, LuaRouteRecord;
    forall k | 0 <= k < |ids|
      ensures var op, ol := LookupOne(p, now, ids[k]), LookupOne(l, now, ids[k]);
              op.Some? && ol.Some? && AgreeRoute(op.value, ol.value)
    {
      PurgedRoute(p, l, ttl, now, ids[k]);
      var r := ReadRoute(l, ids[k]);
      if r.Present? {
        PurgedInstance(p, l, ttl, now, r.value.id.instance);
      }
    }
  }

  lemma PurgedResolve(p: Store, l: Store, ttl: Ttl, now: int, ids: seq<string>)
    requires Intact(l, ttl, now) && Purged(p, l, now)
    ensures var rp, rl := ResolveAll(p, now, ids), ResolveAll(l, now, ids);
            rp.Some? && rl.Some? && Agree(Resolve(ids), Comets(rp.value), Comets(rl.value))
  {
    hide LuaInstanceRecord, LuaRouteRecord;
    forall k | 0 <= k < |ids|
      ensures var op, ol := ResolveOne(p, now, ids[k]), ResolveOne(l, now, ids[k]);
              op.Some? && ol.Some? && AgreeComet(op.value, ol.value)
    {
      PurgedInstance(p, l, ttl, now, ids[k]);
    }
  }

  // ----- whole runs -----

  /** Before each call Redis drops some records; the sets name keys it would like to drop. */
  datatype Sweep = Sweep(instances: set<string>, routes: set<string>)

  /** Redis only drops a record whose expiry has passed. */
  function Expire(st: Store, now: int, s: Sweep): Store {
    Store(map k | k in st.instances && (k !in s.instances || st.instances[k].deadline > now) :: st.instances[k],
          map k | k in st.routes && (k !in s.routes || st.routes[k].deadline > now) :: st.routes[k])
  }

  lemma ExpirePurges(p: Store, l: Store, now: int, s: Sweep)
    requires Purged(p, l, now)
    ensures Purged(Expire(p, now, s), l, now)
  {
  }

  function PurgingAfter(st: Store, ttl: Ttl, calls: seq<Call>, sweeps: seq<Sweep>): Store
    requires |sweeps| == |calls|
  {
    if calls == [] then st
    else
      var last := |calls| - 1;
      var before := Expire(PurgingAfter(st, ttl, calls[..last], sweeps[..last]), calls[last].now, sweeps[last]);
      Execute(before, ttl, calls[last].now, calls[last].cmd).0
  }

  function PurgingReply(st: Store, ttl: Ttl, calls: seq<Call>, sweeps: seq<Sweep>, k: nat): Reply
    requires k < |calls| == |sweeps|
  {
    var before := Expire(PurgingAfter(st, ttl, calls[..k], sweeps[..k]), calls[k].now, sweeps[k]);
    Execute(before, ttl, calls[k].now, calls[k].cmd).1
  }

  lemma {:induction false} PurgedRun(st: Store, ttl: Ttl, start: int, calls: seq<Call>, sweeps: seq<Sweep>, k: nat)
    requires GoodRun(st, ttl, start, calls) && |sweeps| == |calls| && k <= |calls|
    ensures Purged(PurgingAfter(st, ttl, calls[..k], sweeps[..k]), After(st, ttl, calls[..k]),
                   if k == 0 then start else calls[k - 1].now)
    decreases k
  {
    hide LuaInstanceRecord, LuaRouteRecord, Execute, Intact, ClockInRange, Expire;
    if k > 0 {
      PurgedRun(st, ttl, start, calls, sweeps, k - 1);
      RunKeepsIntact(st, ttl, start, calls, k - 1);
      var p, l := PurgingAfter(st, ttl, calls[..k - 1], sweeps[..k - 1]), After(st, ttl, calls[..k - 1]);
      var now := calls[k - 1].now;
      PurgedLater(p, l, if k == 1 then start else calls[k - 2].now, now);
      ExpirePurges(p, l, now, sweeps[k - 1]);
      PurgedStep(Expire(p, now, sweeps[k - 1]), l, ttl, now, calls[k - 1].cmd);
      PrefixStep(st, ttl, calls, k - 1);
      assert calls[..k][..k - 1] == calls[..k - 1] && sweeps[..k][..k - 1] == sweeps[..k - 1];
    } else {
      assert calls[..0] == [] && sweeps[..0] == [];
    }
  }

  lemma PurgedLater(p: Store, l: Store, now: int, later: int)
    requires Purged(p, l, now) && now <= later
    ensures Purged(p, l, later)
  {
  }

  /** Whenever Redis drops expired records, every call gets a reply that agrees with the store that drops nothing. */
  lemma ExpiryIsInvisible(st: Store, ttl: Ttl, start: int, calls: seq<Call>, sweeps: seq<Sweep>, k: nat)
    requires GoodRun(st, ttl, start, calls) && |sweeps| == |calls| && k < |calls|
    ensures Agree(calls[k].cmd, PurgingReply(st, ttl, calls, sweeps, k), ReplyTo(st, ttl, calls, k))
  {
    hide LuaInstanceRecord, LuaRouteRecord, Execute, Intact, ClockInRange, Expire, Agree;
    PurgedRun(st, ttl, start, calls, sweeps, k);
    RunKeepsIntact(st, ttl, start, calls, k);
    var p, l := PurgingAfter(st, ttl, calls[..k], sweeps[..k]), After(st, ttl, calls[..k]);
    PurgedLater(p, l, if k == 0 then start else calls[k - 1].now, calls[k].now);
    ExpirePurges(p, l, calls[k].now, sweeps[k]);
    PurgedStep(Expire(p, calls[k].now, sweeps[k]), l, ttl, calls[k].now, calls[k].cmd);
  }

  function LiveInstances(st: Store, now: int): map<string, Instance> {
    map k | k in st.instances && st.instances[k].deadline > now :: st.instances[k]
  }

  function LiveRoutes(st: Store, now: int): map<string, Route> {
    map k | k in st.routes && st.routes[k].deadline > now :: st.routes[k]
  }

  lemma SameLive(p: Store, l: Store, now: int)
    requires Purged(p, l, now)
    ensures LiveInstances(p, now) == LiveInstances(l, now) && LiveRoutes(p, now) == LiveRoutes(l, now)
  {
  }

  /**
   At every call of a run, and after it, both stores have exactly the same live leases and routes with the same
   contents, whatever Redis dropped on the way.
   */
  lemma LiveStateIsEqual(st: Store, ttl: Ttl, start: int, calls: seq<Call>, sweeps: seq<Sweep>, k: nat, now: int)
    requires GoodRun(st, ttl, start, calls) && |sweeps| == |calls| && k <= |calls|
    requires (if k == 0 then start else calls[k - 1].now) <= now
    ensures var p, l := PurgingAfter(st, ttl, calls[..k], sweeps[..k]), After(st, ttl, calls[..k]);
            LiveInstances(p, now) == LiveInstances(l, now) && LiveRoutes(p, now) == LiveRoutes(l, now)
  {
    hide GoodRun, Purged, LiveInstances, LiveRoutes, PurgingAfter, After;
    PurgedRun(st, ttl, start, calls, sweeps, k);
    var p, l := PurgingAfter(st, ttl, calls[..k], sweeps[..k]), After(st, ttl, calls[..k]);
    PurgedLater(p, l, if k == 0 then start else calls[k - 1].now, now);
    SameLive(p, l, now);
  }
}
