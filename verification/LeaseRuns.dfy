/** Runs of the lease script: any sequence of calls by any processes at non-decreasing Redis times. */
module LeaseRuns {
  import opened Wrappers
  import opened Identifiers
  import opened RouteToken
  import opened LeaseScript

  datatype Call = Call(now: int, cmd: Command)

  function After(st: Store, ttl: Ttl, calls: seq<Call>): Store {
    if calls == [] then st
    else
      var last := |calls| - 1;
      Execute(After(st, ttl, calls[..last]), ttl, calls[last].now, calls[last].cmd).0
  }

  function ReplyTo(st: Store, ttl: Ttl, calls: seq<Call>, k: nat): Reply
    requires k < |calls|
  {
    Execute(After(st, ttl, calls[..k]), ttl, calls[k].now, calls[k].cmd).1
  }

  predicate Ordered(start: int, calls: seq<Call>) {
    && (forall k | 0 <= k < |calls| :: start <= calls[k].now)
    && (forall j, k | 0 <= j < k < |calls| :: calls[j].now <= calls[k].now)
  }

  predicate InRange(ttl: Ttl, calls: seq<Call>) {
    forall k | 0 <= k < |calls| :: ClockInRange(ttl, calls[k].now)
  }

  /** The premises of every run below: a good store at time `start`, then ordered calls within the clock's range. */
  predicate GoodRun(st: Store, ttl: Ttl, start: int, calls: seq<Call>) {
    ttl.Positive() && Intact(st, ttl, start) && Ordered(start, calls) && InRange(ttl, calls)
  }

  lemma PrefixStep(st: Store, ttl: Ttl, calls: seq<Call>, k: nat)
    requires k < |calls|
    ensures After(st, ttl, calls[..k + 1]) == Execute(After(st, ttl, calls[..k]), ttl, calls[k].now, calls[k].cmd).0
  {
    assert calls[..k + 1][..k] == calls[..k];
  }

  lemma {:induction false} RunKeepsIntact(st: Store, ttl: Ttl, start: int, calls: seq<Call>, k: nat)
    requires GoodRun(st, ttl, start, calls) && k <= |calls|
    ensures Intact(After(st, ttl, calls[..k]), ttl, if k == 0 then start else calls[k - 1].now)
    ensures k < |calls| ==> Intact(After(st, ttl, calls[..k]), ttl, calls[k].now)
    decreases k
  {
    if k > 0 {
      RunKeepsIntact(st, ttl, start, calls, k - 1);
      var before := After(st, ttl, calls[..k - 1]);
      ExecuteKeepsIntact(before, ttl, calls[k - 1].now, calls[k - 1].cmd);
      PrefixStep(st, ttl, calls, k - 1);
      if k < |calls| {
        IntactLater(After(st, ttl, calls[..k]), ttl, calls[k - 1].now, calls[k].now);
      }
    } else if k < |calls| {
      IntactLater(st, ttl, start, calls[0].now);
    }
  }

  // ----- instance fences -----

  predicate HoldsLease(st: Store, instance: string, boot: string, now: int) {
    instance in st.instances && st.instances[instance].boot == boot && st.instances[instance].deadline > now
  }

  predicate ActsFor(cmd: Command, instance: string, boot: string) {
    match cmd
    case Register(i, b, _) => i == instance && b == boot
    case Renew(i, b, _) => i == instance && b == boot
    case Unregister(i, b) => i == instance && b == boot
    case _ => false
  }

  /** What a step may do to a lease its boot still holds: extend it or start draining, never move or hand it over. */
  predicate Kept(before: Instance, after: Instance) {
    && after.instance == before.instance && after.boot == before.boot && after.address == before.address
    && (before.draining ==> after.draining)
    && before.deadline <= after.deadline
  }

  lemma FenceStep(st: Store, ttl: Ttl, now: int, cmd: Command, instance: string, boot: string)
    requires ttl.Positive() && Intact(st, ttl, now) && HoldsLease(st, instance, boot, now)
    ensures var after := Execute(st, ttl, now, cmd).0;
            && (!ActsFor(cmd, instance, boot) ==>
                  instance in after.instances && after.instances[instance] == st.instances[instance])
            && (cmd != Unregister(instance, boot) ==>
                  instance in after.instances && Kept(st.instances[instance], after.instances[instance]))
  {
    hide LuaUuid, ValidUuid, LuaToken, ValidInstance;
  }

  /** At each of the run's calls the lease is stored and live. */
  predicate LiveThroughout(st: Store, ttl: Ttl, calls: seq<Call>, instance: string) {
    forall k | 0 <= k < |calls| ::
      instance in After(st, ttl, calls[..k]).instances
          && After(st, ttl, calls[..k]).instances[instance].deadline > calls[k].now
  }

  lemma {:induction false} FencedUpTo(st: Store, ttl: Ttl, start: int, calls: seq<Call>, instance: string, boot: string,
                                      n: nat)
    requires GoodRun(st, ttl, start, calls) && n <= |calls|
    requires forall k | 0 <= k < |calls| :: calls[k].cmd != Unregister(instance, boot)
    requires HoldsLease(st, instance, boot, start) && LiveThroughout(st, ttl, calls, instance)
    ensures instance in After(st, ttl, calls[..n]).instances
    ensures Kept(st.instances[instance], After(st, ttl, calls[..n]).instances[instance])
    ensures n > 0 && !ActsFor(calls[n - 1].cmd, instance, boot) ==>
              After(st, ttl, calls[..n]).instances[instance] == After(st, ttl, calls[..n - 1]).instances[instance]
    decreases n
  {
    hide Execute, Intact, ClockInRange, Ordered, ActsFor;
    if n > 0 {
      FencedUpTo(st, ttl, start, calls, instance, boot, n - 1);
      RunKeepsIntact(st, ttl, start, calls, n - 1);
      FenceStep(After(st, ttl, calls[..n - 1]), ttl, calls[n - 1].now, calls[n - 1].cmd, instance, boot);
      PrefixStep(st, ttl, calls, n - 1);
    }
  }

  /**
   As long as a boot's lease stays live at every call, no other boot's call alters the record; its own calls
   keep the address, never clear draining and never move the deadline back. Only its own unregister ends this.
   */
  lemma FencedRun(st: Store, ttl: Ttl, start: int, calls: seq<Call>, instance: string, boot: string)
    requires GoodRun(st, ttl, start, calls)
    requires forall k | 0 <= k < |calls| :: calls[k].cmd != Unregister(instance, boot)
    requires HoldsLease(st, instance, boot, start) && LiveThroughout(st, ttl, calls, instance)
    ensures forall k | 0 <= k <= |calls| ::
              instance in After(st, ttl, calls[..k]).instances
              && Kept(st.instances[instance], After(st, ttl, calls[..k]).instances[instance])
    ensures forall k | 0 <= k < |calls| && !ActsFor(calls[k].cmd, instance, boot) ::
              After(st, ttl, calls[..k + 1]).instances[instance] == After(st, ttl, calls[..k]).instances[instance]
  {
    hide GoodRun, Kept, ActsFor, After, LiveThroughout;
    forall k | 0 <= k <= |calls|
      ensures instance in After(st, ttl, calls[..k]).instances
              && Kept(st.instances[instance], After(st, ttl, calls[..k]).instances[instance])
    {
      FencedUpTo(st, ttl, start, calls, instance, boot, k);
    }
    forall k | 0 <= k < |calls| && !ActsFor(calls[k].cmd, instance, boot)
      ensures After(st, ttl, calls[..k + 1]).instances[instance] == After(st, ttl, calls[..k]).instances[instance]
    {
      FencedUpTo(st, ttl, start, calls, instance, boot, k + 1);
    }
  }

  // ----- route fences -----

  predicate IsCurrent(st: Store, id: Tuple) {
    id.user in st.routes && st.routes[id.user].id == id
  }

  predicate Reconnects(cmd: Command, id: Tuple) {
    cmd.Connect? && cmd.id == id
  }

  /** A tuple that is not the stored one gets nothing: no lease, no removal, no place in a lookup. */
  predicate Rejects(cmd: Command, reply: Reply, id: Tuple) {
    && (cmd == Check(id) || cmd == Heartbeat(id) ==> reply.Failed?)
    && (cmd == Disconnect(id) ==> reply != Deleted(Removed))
    && (reply.Routes? ==> forall r | r in reply.routes && r.Online? :: r.route.id != id)
  }

  lemma SupersededStep(st: Store, ttl: Ttl, now: int, cmd: Command, id: Tuple)
    requires ttl.Positive() && Intact(st, ttl, now)
    requires !IsCurrent(st, id) && !Reconnects(cmd, id)
    ensures !IsCurrent(Execute(st, ttl, now, cmd).0, id)
    ensures Rejects(cmd, Execute(st, ttl, now, cmd).1, id)
  {
    hide LuaUuid, ValidUuid, LuaToken, ValidInstance;
    var reply := Execute(st, ttl, now, cmd).1;
    if reply.Routes? {
      forall r | r in reply.routes && r.Online? ensures r.route.id != id {
        var k :| 0 <= k < |reply.routes| && reply.routes[k] == r;
        assert LookupOne(st, now, cmd.ids[k]) == Some(r);
      }
    }
  }

  lemma ConnectSupersedes(st: Store, ttl: Ttl, now: int, winner: Command, id: Tuple)
    requires winner.Connect? && winner.id.user == id.user && winner.id != id
    requires Execute(st, ttl, now, winner).1.Connected?
    ensures !IsCurrent(Execute(st, ttl, now, winner).0, id)
  {
    hide LuaUuid, ValidUuid, LuaToken, ValidInstance;
  }

  lemma StaysSuperseded(st: Store, ttl: Ttl, start: int, id: Tuple, calls: seq<Call>, n: nat)
    requires GoodRun(st, ttl, start, calls) && n <= |calls| && !IsCurrent(st, id)
    requires forall k | 0 <= k < |calls| :: !Reconnects(calls[k].cmd, id)
    ensures !IsCurrent(After(st, ttl, calls[..n]), id)
    ensures n < |calls| ==> Rejects(calls[n].cmd, ReplyTo(st, ttl, calls, n), id)
    decreases n
  {
    hide Execute, Intact, ClockInRange, IsCurrent, Rejects, Ordered;
    if n > 0 {
      StaysSuperseded(st, ttl, start, id, calls, n - 1);
      RunKeepsIntact(st, ttl, start, calls, n - 1);
      SupersededStep(After(st, ttl, calls[..n - 1]), ttl, calls[n - 1].now, calls[n - 1].cmd, id);
      PrefixStep(st, ttl, calls, n - 1);
    }
    if n < |calls| {
      RunKeepsIntact(st, ttl, start, calls, n);
      SupersededStep(After(st, ttl, calls[..n]), ttl, calls[n].now, calls[n].cmd, id);
    }
  }

  /** Once another tuple was connected for the user, the old tuple is refused everywhere until it reconnects. */
  lemma {:induction false} SupersededForever(st: Store, ttl: Ttl, start: int, winner: Command, id: Tuple,
                                             calls: seq<Call>)
    requires ttl.Positive() && Intact(st, ttl, start) && ClockInRange(ttl, start)
    requires winner.Connect? && winner.id.user == id.user && winner.id != id
    requires Execute(st, ttl, start, winner).1.Connected?
    requires Ordered(start, calls) && InRange(ttl, calls)
    requires forall k | 0 <= k < |calls| :: !Reconnects(calls[k].cmd, id)
    ensures var next := Execute(st, ttl, start, winner).0;
            forall k | 0 <= k < |calls| :: Rejects(calls[k].cmd, ReplyTo(next, ttl, calls, k), id)
  {
    hide Execute, Intact, ClockInRange, IsCurrent, Rejects, Ordered;
    var next := Execute(st, ttl, start, winner).0;
    ExecuteKeepsIntact(st, ttl, start, winner);
    ConnectSupersedes(st, ttl, start, winner, id);
    forall k | 0 <= k < |calls| ensures Rejects(calls[k].cmd, ReplyTo(next, ttl, calls, k), id) {
      StaysSuperseded(next, ttl, start, id, calls, k);
    }
  }

  // ----- where an answer of lookup comes from -----

  predicate Installs(st: Store, ttl: Ttl, calls: seq<Call>, m: nat, user: string)
    requires m < |calls|
  {
    ReplyTo(st, ttl, calls, m).Connected? && calls[m].cmd.Connect? && calls[m].cmd.id.user == user
  }

  /** Call `m` is the last accepted connect of `user` before `k`, and `r` is what it installed, maybe extended. */
  predicate Origin(st: Store, ttl: Ttl, calls: seq<Call>, k: nat, m: nat, user: string, r: Route)
    requires k <= |calls|
  {
    && m < k
    && Installs(st, ttl, calls, m, user)
    && calls[m].cmd == Connect(r.id, r.boot, r.auth)
    && HoldsLease(After(st, ttl, calls[..m]), r.id.instance, r.boot, calls[m].now)
    && !After(st, ttl, calls[..m]).instances[r.id.instance].draining
    && r.auth > calls[m].now + AUTH_MARGIN
    && (forall j | m < j < k :: !Installs(st, ttl, calls, j, user))
  }

  predicate SameGrant(a: Route, b: Route) {
    a.id == b.id && a.boot == b.boot && a.auth == b.auth
  }

  lemma OriginStep(st: Store, ttl: Ttl, now: int, cmd: Command, user: string)
    requires ttl.Positive() && Intact(st, ttl, now)
    requires user in Execute(st, ttl, now, cmd).0.routes
    ensures var (after, reply) := Execute(st, ttl, now, cmd);
            var r := after.routes[user];
            if reply.Connected? && cmd.Connect? && cmd.id.user == user then
              && cmd == Connect(r.id, r.boot, r.auth) && r.auth > now + AUTH_MARGIN
              && HoldsLease(st, r.id.instance, r.boot, now) && !st.instances[r.id.instance].draining
            else
              user in st.routes && SameGrant(st.routes[user], r)
  {
    hide LuaUuid, ValidUuid, LuaToken, ValidInstance;
  }

  lemma {:induction false} RouteHasOrigin(st: Store, ttl: Ttl, start: int, calls: seq<Call>, k: nat, user: string)
      returns (m: nat)
    requires GoodRun(st, ttl, start, calls) && st.routes == map[] && k <= |calls|
    requires user in After(st, ttl, calls[..k]).routes
    ensures Origin(st, ttl, calls, k, m, user, After(st, ttl, calls[..k]).routes[user])
    decreases k
  {
    hide LuaInstanceRecord, LuaRouteRecord, Intact, ClockInRange, Execute, HoldsLease;
    assert k > 0;
    var now, cmd := calls[k - 1].now, calls[k - 1].cmd;
    var before := After(st, ttl, calls[..k - 1]);
    RunKeepsIntact(st, ttl, start, calls, k - 1);
    PrefixStep(st, ttl, calls, k - 1);
    OriginStep(before, ttl, now, cmd, user);
    if Installs(st, ttl, calls, k - 1, user) {
      m := k - 1;
    } else {
      m := RouteHasOrigin(st, ttl, start, calls, k - 1, user);
      assert forall j | m < j < k :: j == k - 1 || !Installs(st, ttl, calls, j, user);
    }
  }

  /**
   Starting without routes, every route a lookup returns was installed by the latest accepted connect of that
   user, under a boot that held a live, non-draining lease then and still holds a live lease now.
   */
  lemma LookupIsFenced(st: Store, ttl: Ttl, start: int, calls: seq<Call>, k: nat, n: nat)
    requires GoodRun(st, ttl, start, calls) && st.routes == map[] && k < |calls|
    requires ReplyTo(st, ttl, calls, k).Routes? && n < |ReplyTo(st, ttl, calls, k).routes|
    requires ReplyTo(st, ttl, calls, k).routes[n].Online?
    ensures var r := ReplyTo(st, ttl, calls, k).routes[n].route;
            && HoldsLease(After(st, ttl, calls[..k]), r.id.instance, r.boot, calls[k].now)
            && r.deadline > calls[k].now && r.auth > calls[k].now
            && exists m :: Origin(st, ttl, calls, k, m, r.id.user, r)
  {
    hide LuaUuid, ValidUuid, LuaToken, ValidInstance;
    var r := ReplyTo(st, ttl, calls, k).routes[n].route;
    var here := After(st, ttl, calls[..k]);
    assert LookupOne(here, calls[k].now, calls[k].cmd.ids[n]) == Some(Online(calls[k].cmd.ids[n], r));
    assert here.routes[r.id.user] == r;
    var m := RouteHasOrigin(st, ttl, start, calls, k, r.id.user);
  }
}
