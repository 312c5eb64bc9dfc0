/** The script as it runs: it changes the two key spaces in place, one operation at a time. */
module RoutingStore {
  import opened Wrappers
  import opened Identifiers
  import S = LeaseScript

  class LeaseStore {
    var instances: map<string, S.Instance>
    var routes: map<string, S.Route>
    const ttl: S.Ttl

    function State(): S.Store
      reads this
    {
      S.Store(instances, routes)
    }

    constructor (instanceTtl: nat, routeTtl: nat)
      ensures State() == S.Store(map[], map[])
      ensures ttl == S.Ttl(S.RoundTtl(instanceTtl), S.RoundTtl(routeTtl)) && ttl.Positive()
    {
      instances, routes := map[], map[];
      ttl := S.Ttl(S.RoundTtl(instanceTtl), S.RoundTtl(routeTtl));
    }

    method SaveInstance(now: int, p: S.Instance) returns (reply: S.Reply)
      modifies this`instances
      ensures (State(), reply) == S.PutInstance(old(State()), now, p)
    {
      if p.deadline - now <= 0 {
        return S.Failed(S.Dependency);
      }
      instances := instances[p.instance := p];
      reply := S.InstanceLease(p);
    }

    method SaveRoute(now: int, p: S.Route, answer: S.Reply) returns (reply: S.Reply)
      modifies this`routes
      ensures (State(), reply) == S.PutRoute(old(State()), now, p, answer)
    {
      if p.deadline - now <= 0 {
        return S.Failed(S.Dependency);
      }
      routes := routes[p.id.user := p];
      reply := answer;
    }

    method Register(now: int, instance: string, boot: string, address: string) returns (reply: S.Reply)
      modifies this`instances
      ensures (State(), reply) == S.RegisterOp(old(State()), ttl, now, instance, boot, address)
    {
      var p := S.Instance(instance, boot, address, false, 0);
      var stored := S.ReadInstance(State(), instance);
      if stored.Corrupt? {
        return S.Failed(S.Dependency);
      }
      if S.LiveInstance(stored, now) {
        if stored.value.boot != p.boot || stored.value.address != p.address {
          return S.Failed(S.Conflict);
        }
        p := p.(draining := stored.value.draining);
      }
      p := p.(deadline := now + ttl.instance);
      reply := SaveInstance(now, p);
    }

    method Renew(now: int, instance: string, boot: string, draining: bool) returns (reply: S.Reply)
      modifies this`instances
      ensures (State(), reply) == S.RenewOp(old(State()), ttl, now, instance, boot, draining)
    {
      var found := S.ReadInstance(State(), instance);
      if found.Corrupt? {
        return S.Failed(S.Dependency);
      }
      if !S.LiveInstance(found, now) || found.value.boot != boot {
        return S.Failed(S.NotRegistered);
      }
      var stored := found.value;
      stored := stored.(draining := stored.draining || draining);
      stored := stored.(deadline := now + ttl.instance);
      reply := SaveInstance(now, stored);
    }

    method Unregister(now: int, instance: string, boot: string) returns (reply: S.Reply)
      modifies this`instances
      ensures (State(), reply) == S.UnregisterOp(old(State()), now, instance, boot)
    {
      var stored := S.ReadInstance(State(), instance);
      if stored.Corrupt? {
        return S.Failed(S.Dependency);
      }
      if !S.LiveInstance(stored, now) {
        return S.Deleted(S.NotFound);
      }
      if stored.value.boot != boot {
        return S.Deleted(S.NotCurrent);
      }
      instances := instances - {instance};
      reply := S.Deleted(S.Removed);
    }

    method Connect(now: int, id: S.Tuple, boot: string, auth: int) returns (reply: S.Reply)
      modifies this`routes
      ensures (State(), reply) == S.ConnectOp(old(State()), ttl, now, id, boot, auth)
    {
      var i := S.ReadInstance(State(), id.instance);
      if i.Corrupt? {
        return S.Failed(S.Dependency);
      }
      if !S.LiveInstance(i, now) || i.value.boot != boot {
        return S.Failed(S.NotRegistered);
      }
      if i.value.draining {
        return S.Failed(S.Draining);
      }
      if auth == 0 {
        return S.Failed(S.Dependency);
      }
      if auth - now <= S.AUTH_MARGIN {
        return S.Failed(S.Expired);
      }
      var p := S.Route(id, boot, auth, S.Min(now + ttl.route, auth));
      var stored := S.ReadRoute(State(), id.user);
      if stored.Corrupt? {
        return S.Failed(S.Dependency);
      }
      var previous: Option<S.Route> := None;
      if S.LiveRoute(stored, now) && stored.value.auth > now {
        previous := Some(stored.value);
      }
      reply := SaveRoute(now, p, S.Connected(p, previous));
    }

    method Check(now: int, id: S.Tuple, heartbeat: bool) returns (reply: S.Reply)
      modifies this`routes
      ensures (State(), reply) == S.CheckOp(old(State()), ttl, now, id, heartbeat)
    {
      var found := S.ReadRoute(State(), id.user);
      if found.Corrupt? {
        return S.Failed(S.Dependency);
      }
      if found.Absent? {
        return S.Failed(S.Expired);
      }
      var stored := found.value;
      if stored.id != id {
        return S.Failed(S.Superseded);
      }
      if !S.LiveRoute(found, now) || stored.auth <= now {
        return S.Failed(S.Expired);
      }
      var i := S.ReadInstance(State(), stored.id.instance);
      if i.Corrupt? {
        return S.Failed(S.Dependency);
      }
      if !S.LiveInstance(i, now) || i.value.boot != stored.boot {
        return S.Failed(S.NotRegistered);
      }
      reply := S.RouteLease(stored);
      if heartbeat {
        stored := stored.(deadline := S.Min(now + ttl.route, stored.auth));
        reply := SaveRoute(now, stored, S.RouteLease(stored));
      }
    }

    method Disconnect(now: int, id: S.Tuple) returns (reply: S.Reply)
      modifies this`routes
      ensures (State(), reply) == S.DisconnectOp(old(State()), now, id)
    {
      var stored := S.ReadRoute(State(), id.user);
      if stored.Corrupt? {
        return S.Failed(S.Dependency);
      }
      if !S.LiveRoute(stored, now) {
        return S.Deleted(S.NotFound);
      }
      if stored.value.id != id {
        return S.Deleted(S.NotCurrent);
      }
      routes := routes - {id.user};
      reply := S.Deleted(S.Removed);
    }

    method Lookup(now: int, ids: seq<string>) returns (reply: S.Reply)
      ensures var r := S.LookupAll(State(), now, ids);
              reply == if r.Some? then S.Routes(r.value) else S.Failed(S.Dependency)
    {
      var results: seq<S.LookupResult> := [];
      for n := 0 to |ids|
        invariant S.LookupAll(State(), now, ids[..n]) == Some(results)
      {
        assert ids[..n + 1][..n] == ids[..n];
        var one := S.LookupOne(State(), now, ids[n]);
        if one.None? {
          return S.Failed(S.Dependency);
        }
        results := results + [one.value];
      }
      assert ids[..|ids|] == ids;
      reply := S.Routes(results);
    }

    method Resolve(now: int, ids: seq<string>) returns (reply: S.Reply)
      ensures var r := S.ResolveAll(State(), now, ids);
              reply == if r.Some? then S.Comets(r.value) else S.Failed(S.Dependency)
    {
      var results: seq<S.Resolution> := [];
      for n := 0 to |ids|
        invariant S.ResolveAll(State(), now, ids[..n]) == Some(results)
      {
        assert ids[..n + 1][..n] == ids[..n];
        var one := S.ResolveOne(State(), now, ids[n]);
        if one.None? {
          return S.Failed(S.Dependency);
        }
        results := results + [one.value];
      }
      assert ids[..|ids|] == ids;
      reply := S.Comets(results);
    }

    /** One validated call: the whole new state and the reply are what the specification says. */
    method Run(now: int, cmd: S.Command) returns (reply: S.Reply)
      modifies this
      ensures (State(), reply) == S.Execute(old(State()), ttl, now, cmd)
    {
      if !S.ValidCommand(cmd) {
        return S.Failed(S.Invalid);
      }
      match cmd
      case Register(instance, boot, address) => reply := Register(now, instance, boot, address);
      case Renew(instance, boot, draining) => reply := Renew(now, instance, boot, draining);
      case Unregister(instance, boot) => reply := Unregister(now, instance, boot);
      case Connect(id, boot, auth) => reply := Connect(now, id, boot, auth);
      case Check(id) => reply := Check(now, id, false);
      case Heartbeat(id) => reply := Check(now, id, true);
      case Disconnect(id) => reply := Disconnect(now, id);
      case Lookup(ids) => reply := Lookup(now, ids);
      case Resolve(ids) => reply := Resolve(now, ids);
    }
  }
}
