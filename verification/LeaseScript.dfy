/**
 The Redis script that owns instance leases and user routes, one function per operation.
 Every operation is one atomic step: it reads records at Redis time `now`, decides, and writes or deletes.
 */
module LeaseScript {
  import opened Wrappers
  import opened Identifiers
  import opened RouteToken

  const MAX_TIMESTAMP := 253402300799999  // the last millisecond of the year 9999
  const AUTH_MARGIN := 5000               // connect wants more than this left of the user's authentication
  const NANOS_PER_MILLI := 1_000_000
  const EXACT_NUMBERS := 100_000_000_000_000  // cjson writes fourteen digits; larger numbers would be rounded

  /** The four-part identity of one user connection. */
  datatype Tuple = Tuple(user: string, instance: string, connection: string, token: string)

  datatype Instance = Instance(instance: string, boot: string, address: string, draining: bool, deadline: int)

  datatype Route = Route(id: Tuple, boot: string, auth: int, deadline: int)

  datatype Store = Store(instances: map<string, Instance>, routes: map<string, Route>)

  datatype Ttl = Ttl(instance: int, route: int) {
    predicate Positive() {
      instance > 0 && route > 0
    }
  }

  /** Nanoseconds rounded up to Redis's milliseconds; zero asks for the default of one minute. */
  function RoundTtl(d: nat): int {
    ((if d == 0 then 60_000 * NANOS_PER_MILLI else d) - 1) / NANOS_PER_MILLI + 1
  }

  datatype Command =
    | Register(instance: string, boot: string, address: string)
    | Renew(instance: string, boot: string, draining: bool)
    | Unregister(instance: string, boot: string)
    | Connect(id: Tuple, boot: string, auth: int)
    | Check(id: Tuple)
    | Heartbeat(id: Tuple)
    | Disconnect(id: Tuple)
    | Lookup(ids: seq<string>)
    | Resolve(ids: seq<string>)

  datatype Code = Invalid | Conflict | NotRegistered | Superseded | Expired | Draining | Dependency

  datatype Outcome = Removed | NotCurrent | NotFound

  datatype OfflineReason = NoRoute | RouteExpired | InstanceExpired

  datatype MissingReason = Unregistered | LeaseExpired

  datatype LookupResult = Online(user: string, route: Route) | Offline(user: string, reason: OfflineReason)

  datatype Resolution = Available(id: string, lease: Instance) | Missing(id: string, why: MissingReason)

  datatype Reply =
    | Failed(code: Code)
    | InstanceLease(lease: Instance)
    | RouteLease(route: Route)
    | Connected(installed: Route, previous: Option<Route>)
    | Deleted(outcome: Outcome)
    | Routes(routes: seq<LookupResult>)
    | Comets(comets: seq<Resolution>)

  // ----- reading and writing records -----

  /** What the script finds under a key: nothing, a record that fails its own checks, or a usable record. */
  datatype Found<+T> = Absent | Corrupt | Present(value: T)

  predicate Timestamp(t: int) {
    0 < t <= MAX_TIMESTAMP
  }

  predicate LuaInstanceRecord(key: string, v: Instance) {
    && ValidInstance(v.instance) && LuaUuid(v.boot) && Timestamp(v.deadline)
    && key == v.instance && v.address != ""
  }

  predicate LuaUser(user: string) {
    |user| == 37 && user[0] == 'U' && LuaUuid(user[1..])
  }

  predicate LuaRouteRecord(key: string, v: Route) {
    && ValidInstance(v.id.instance) && LuaUuid(v.boot) && Timestamp(v.deadline)
    && LuaUser(v.id.user) && key == v.id.user
    && LuaUuid(v.id.connection) && LuaToken(v.id.token)
    && Timestamp(v.auth) && v.deadline <= v.auth
  }

  function ReadInstance(st: Store, key: string): Found<Instance> {
    if key !in st.instances then Absent
    else if LuaInstanceRecord(key, st.instances[key]) then Present(st.instances[key])
    else Corrupt
  }

  function ReadRoute(st: Store, key: string): Found<Route> {
    if key !in st.routes then Absent
    else if LuaRouteRecord(key, st.routes[key]) then Present(st.routes[key])
    else Corrupt
  }

  predicate LiveInstance(found: Found<Instance>, now: int) {
    found.Present? && found.value.deadline > now
  }

  predicate LiveRoute(found: Found<Route>, now: int) {
    found.Present? && found.value.deadline > now
  }

  /** A write gives Redis the remaining lifetime; Redis refuses one that is not positive. */
  function PutInstance(st: Store, now: int, v: Instance): (Store, Reply) {
    if v.deadline - now <= 0 then (st, Failed(Dependency))
    else (st.(instances := st.instances[v.instance := v]), InstanceLease(v))
  }

  function PutRoute(st: Store, now: int, v: Route, reply: Reply): (Store, Reply) {
    if v.deadline - now <= 0 then (st, Failed(Dependency))
    else (st.(routes := st.routes[v.id.user := v]), reply)
  }

  function Min(a: int, b: int): int {
    if a < b then a else b
  }

  // ----- the operations -----

  function RegisterOp(st: Store, ttl: Ttl, now: int, instance: string, boot: string, address: string): (Store, Reply) {
    var stored := ReadInstance(st, instance);
    if stored.Corrupt? then (st, Failed(Dependency))
    else if LiveInstance(stored, now) then
      if stored.value.boot != boot || stored.value.address != address then (st, Failed(Conflict))
      else PutInstance(st, now, Instance(instance, boot, address, stored.value.draining, now + ttl.instance))
    else PutInstance(st, now, Instance(instance, boot, address, false, now + ttl.instance))
  }

  function RenewOp(st: Store, ttl: Ttl, now: int, instance: string, boot: string, draining: bool): (Store, Reply) {
    var stored := ReadInstance(st, instance);
    if stored.Corrupt? then (st, Failed(Dependency))
    else if !LiveInstance(stored, now) || stored.value.boot != boot then (st, Failed(NotRegistered))
    else
      PutInstance(st, now, stored.value.(draining := stored.value.draining || draining, deadline := now + ttl.instance))
  }

  function UnregisterOp(st: Store, now: int, instance: string, boot: string): (Store, Reply) {
    var stored := ReadInstance(st, instance);
    if stored.Corrupt? then (st, Failed(Dependency))
    else if !LiveInstance(stored, now) then (st, Deleted(NotFound))
    else if stored.value.boot != boot then (st, Deleted(NotCurrent))
    else (st.(instances := st.instances - {instance}), Deleted(Removed))
  }

  function ConnectOp(st: Store, ttl: Ttl, now: int, id: Tuple, boot: string, auth: int): (Store, Reply) {
    var i := ReadInstance(st, id.instance);
    if i.Corrupt? then (st, Failed(Dependency))
    else if !LiveInstance(i, now) || i.value.boot != boot then (st, Failed(NotRegistered))
    else if i.value.draining then (st, Failed(Draining))
    // the record leaves a zero out, and the script fails on its absence
    else if auth == 0 then (st, Failed(Dependency))
    else if auth - now <= AUTH_MARGIN then (st, Failed(Expired))
    else
      var p := Route(id, boot, auth, Min(now + ttl.route, auth));
      var stored := ReadRoute(st, id.user);
      if stored.Corrupt? then (st, Failed(Dependency))
      else
        var previous := if LiveRoute(stored, now) && stored.value.auth > now then Some(stored.value) else None;
        PutRoute(st, now, p, Connected(p, previous))
  }

  function CheckOp(st: Store, ttl: Ttl, now: int, id: Tuple, extend: bool): (Store, Reply) {
    var stored := ReadRoute(st, id.user);
    if stored.Corrupt? then (st, Failed(Dependency))
    else if stored.Absent? then (st, Failed(Expired))
    else if stored.value.id != id then (st, Failed(Superseded))
    else if !LiveRoute(stored, now) || stored.value.auth <= now then (st, Failed(Expired))
    else
      var i := ReadInstance(st, stored.value.id.instance);
      if i.Corrupt? then (st, Failed(Dependency))
      else if !LiveInstance(i, now) || i.value.boot != stored.value.boot then (st, Failed(NotRegistered))
      else if extend then
        var p := stored.value.(deadline := Min(now + ttl.route, stored.value.auth));
        PutRoute(st, now, p, RouteLease(p))
      else (st, RouteLease(stored.value))
  }

  function DisconnectOp(st: Store, now: int, id: Tuple): (Store, Reply) {
    var stored := ReadRoute(st, id.user);
    if stored.Corrupt? then (st, Failed(Dependency))
    else if !LiveRoute(stored, now) then (st, Deleted(NotFound))
    else if stored.value.id != id then (st, Deleted(NotCurrent))
    else (st.(routes := st.routes - {id.user}), Deleted(Removed))
  }

  /** One entry of a lookup, or nothing when a record it reads is corrupt. */
  function LookupOne(st: Store, now: int, user: string): Option<LookupResult> {
    var r := ReadRoute(st, user);
    if r.Corrupt? then None
    else if r.Absent? then Some(Offline(user, NoRoute))
    else if !LiveRoute(r, now) || r.value.auth <= now then Some(Offline(user, RouteExpired))
    else
      var i := ReadInstance(st, r.value.id.instance);
      if i.Corrupt? then None
      else if !LiveInstance(i, now) || i.value.boot != r.value.boot then Some(Offline(user, InstanceExpired))
      else Some(Online(user, r.value))
  }

  function LookupAll(st: Store, now: int, ids: seq<string>): (r: Option<seq<LookupResult>>)
    ensures r.Some? <==> forall k | 0 <= k < |ids| :: LookupOne(st, now, ids[k]).Some?
    ensures r.Some? ==> |r.value| == |ids|
    ensures r.Some? ==> forall k | 0 <= k < |ids| :: LookupOne(st, now, ids[k]) == Some(r.value[k])
  {
    if ids == [] then Some([])
    else
      var last := |ids| - 1;
      match LookupAll(st, now, ids[..last])
      case None => None
      case Some(front) =>
        match LookupOne(st, now, ids[last])
        case None => None
        case Some(one) => Some(front + [one])
  }

  function ResolveOne(st: Store, now: int, id: string): Option<Resolution> {
    var i := ReadInstance(st, id);
    if i.Corrupt? then None
    else if i.Absent? then Some(Missing(id, Unregistered))
    else if !LiveInstance(i, now) then Some(Missing(id, LeaseExpired))
    else Some(Available(id, i.value))
  }

  function ResolveAll(st: Store, now: int, ids: seq<string>): (r: Option<seq<Resolution>>)
    ensures r.Some? <==> forall k | 0 <= k < |ids| :: ResolveOne(st, now, ids[k]).Some?
    ensures r.Some? ==> |r.value| == |ids|
    ensures r.Some? ==> forall k | 0 <= k < |ids| :: ResolveOne(st, now, ids[k]) == Some(r.value[k])
  {
    if ids == [] then Some([])
    else
      var last := |ids| - 1;
      match ResolveAll(st, now, ids[..last])
      case None => None
      case Some(front) =>
        match ResolveOne(st, now, ids[last])
        case None => None
        case Some(one) => Some(front + [one])
  }

  // ----- what Logic checks before it runs the script -----

  predicate ValidComet(instance: string, boot: string) {
    ValidInstance(instance) && ValidUuid(boot)
  }

  /** Go's check of a connection: it decodes the token and encodes it again. */
  predicate GoConnection(id: Tuple) {
    ValidId(id.user, 'U') && ValidInstance(id.instance) && ValidUuid(id.connection) && GoToken(id.token)
  }

  /** The form of that check used below; `LuaAcceptsGo` shows that the two are the same. */
  predicate ValidConnection(id: Tuple) {
    ValidId(id.user, 'U') && ValidInstance(id.instance) && ValidUuid(id.connection) && LuaToken(id.token)
  }

  predicate Distinct<T(==)>(s: seq<T>) {
    forall i, j | 0 <= i < j < |s| :: s[i] != s[j]
  }

  predicate ValidBatch(ids: seq<string>) {
    1 <= |ids| <= 100 && Distinct(ids)
  }

  predicate ValidCommand(cmd: Command) {
    match cmd
    case Register(instance, boot, address) => ValidComet(instance, boot) && 0 < |address| <= 512
    case Renew(instance, boot, _) => ValidComet(instance, boot)
    case Unregister(instance, boot) => ValidComet(instance, boot)
    case Connect(id, boot, auth) => ValidComet(id.instance, boot) && ValidConnection(id) && auth <= MAX_TIMESTAMP
    case Check(id) => ValidConnection(id)
    case Heartbeat(id) => ValidConnection(id)
    case Disconnect(id) => ValidConnection(id)
    case Lookup(ids) => ValidBatch(ids) && forall id | id in ids :: ValidId(id, 'U')
    case Resolve(ids) => ValidBatch(ids) && forall id | id in ids :: ValidInstance(id)
  }

  /** One call of the store: refused arguments never reach Redis. */
  function Execute(st: Store, ttl: Ttl, now: int, cmd: Command): (Store, Reply) {
    if !ValidCommand(cmd) then (st, Failed(Invalid))
    else
      match cmd
      case Register(instance, boot, address) => RegisterOp(st, ttl, now, instance, boot, address)
      case Renew(instance, boot, draining) => RenewOp(st, ttl, now, instance, boot, draining)
      case Unregister(instance, boot) => UnregisterOp(st, now, instance, boot)
      case Connect(id, boot, auth) => ConnectOp(st, ttl, now, id, boot, auth)
      case Check(id) => CheckOp(st, ttl, now, id, false)
      case Heartbeat(id) => CheckOp(st, ttl, now, id, true)
      case Disconnect(id) => DisconnectOp(st, now, id)
      case Lookup(ids) =>
        var r := LookupAll(st, now, ids);
        (st, if r.Some? then Routes(r.value) else Failed(Dependency))
      case Resolve(ids) =>
        var r := ResolveAll(st, now, ids);
        (st, if r.Some? then Comets(r.value) else Failed(Dependency))
  }

  // ----- stored records stay well formed -----

  /** Every stored record passes the script's own checks and none outlives what a write at `now` could give. */
  predicate Intact(st: Store, ttl: Ttl, now: int) {
    && (forall k | k in st.instances ::
          LuaInstanceRecord(k, st.instances[k]) && st.instances[k].deadline <= now + ttl.instance)
    && (forall k | k in st.routes :: LuaRouteRecord(k, st.routes[k]))
  }

  /** Every deadline written at `now` is a number that JSON text in Redis keeps exactly. */
  predicate ClockInRange(ttl: Ttl, now: int) {
    0 < now && now + ttl.instance < EXACT_NUMBERS && now + ttl.route < EXACT_NUMBERS
  }

  /** What the script checks of a stored route's tuple. */
  predicate LuaConnection(id: Tuple) {
    LuaUser(id.user) && ValidInstance(id.instance) && LuaUuid(id.connection) && LuaToken(id.token)
  }

  /** Go and the script accept the same connections, though each tests ids and tokens in its own way. */
  lemma LuaAcceptsGo(id: Tuple)
    ensures GoConnection(id) <==> LuaConnection(id)
    ensures GoConnection(id) <==> ValidConnection(id)
  {
    hide LuaToken, GoToken;
    LuaTokenIsGoToken(id.token);
    LuaUuidIsValidUuid(id.connection);
    if |id.user| == 37 {
      LuaUuidIsValidUuid(id.user[1..]);
    }
  }

  lemma RegisterKeepsIntact(st: Store, ttl: Ttl, now: int, instance: string, boot: string, address: string)
    requires Intact(st, ttl, now) && ttl.Positive() && ClockInRange(ttl, now)
    requires ValidComet(instance, boot) && address != ""
    ensures Intact(RegisterOp(st, ttl, now, instance, boot, address).0, ttl, now)
    ensures RegisterOp(st, ttl, now, instance, boot, address).1 != Failed(Dependency)
  {
    hide LuaUuid, ValidUuid, LuaRouteRecord, ValidInstance;
    LuaUuidIsValidUuid(boot);
  }

  lemma RenewKeepsIntact(st: Store, ttl: Ttl, now: int, instance: string, boot: string, draining: bool)
    requires Intact(st, ttl, now) && ttl.Positive() && ClockInRange(ttl, now)
    ensures Intact(RenewOp(st, ttl, now, instance, boot, draining).0, ttl, now)
    ensures RenewOp(st, ttl, now, instance, boot, draining).1 != Failed(Dependency)
  {
    hide LuaUuid, LuaRouteRecord, ValidInstance;
  }

  /** The instance would take the user, but the authentication time is the one value the record cannot carry. */
  predicate DroppedAuth(st: Store, now: int, cmd: Command) {
    && cmd.Connect? && cmd.auth == 0
    && var i := ReadInstance(st, cmd.id.instance);
    LiveInstance(i, now) && i.value.boot == cmd.boot && !i.value.draining
  }

  lemma ConnectKeepsIntact(st: Store, ttl: Ttl, now: int, id: Tuple, boot: string, auth: int)
    requires Intact(st, ttl, now) && ttl.Positive() && ClockInRange(ttl, now)
    requires LuaConnection(id) && LuaUuid(boot) && auth <= MAX_TIMESTAMP
    ensures Intact(ConnectOp(st, ttl, now, id, boot, auth).0, ttl, now)
    ensures ConnectOp(st, ttl, now, id, boot, auth).1 == Failed(Dependency) <==>
              DroppedAuth(st, now, Connect(id, boot, auth))
  {
    hide LuaUuid, LuaToken, ValidInstance, LuaUser;
  }

  lemma CheckKeepsIntact(st: Store, ttl: Ttl, now: int, id: Tuple, extend: bool)
    requires Intact(st, ttl, now) && ttl.Positive() && ClockInRange(ttl, now)
    ensures Intact(CheckOp(st, ttl, now, id, extend).0, ttl, now)
    ensures CheckOp(st, ttl, now, id, extend).1 != Failed(Dependency)
  {
    hide LuaUuid, LuaToken, ValidInstance, LuaUser;
  }

  /**
   The script never leaves a record that a later read would reject, and fails on nothing but a dropped authentication
   time.
   */
  lemma ExecuteKeepsIntact(st: Store, ttl: Ttl, now: int, cmd: Command)
    requires Intact(st, ttl, now) && ttl.Positive() && ClockInRange(ttl, now)
    ensures Intact(Execute(st, ttl, now, cmd).0, ttl, now)
    ensures Execute(st, ttl, now, cmd).1 == Failed(Dependency) <==> ValidCommand(cmd) && DroppedAuth(st, now, cmd)
  {
    hide LuaUuid, ValidUuid, LuaToken, GoToken, ValidInstance, LuaUser;
    hide RegisterOp, RenewOp, ConnectOp, CheckOp, LuaInstanceRecord, LuaRouteRecord;
    if ValidCommand(cmd) {
      match cmd
      case Register(instance, boot, address) => RegisterKeepsIntact(st, ttl, now, instance, boot, address);
      case Renew(instance, boot, draining) => RenewKeepsIntact(st, ttl, now, instance, boot, draining);
      case Connect(id, boot, auth) =>
        LuaUuidIsValidUuid(boot);
        LuaAcceptsGo(id);
        ConnectKeepsIntact(st, ttl, now, id, boot, auth);
      case Check(id) => CheckKeepsIntact(st, ttl, now, id, false);
      case Heartbeat(id) => CheckKeepsIntact(st, ttl, now, id, true);
      case Lookup(ids) => NothingCorrupt(st, ttl, now);
      case Resolve(ids) => NothingCorrupt(st, ttl, now);
      case _ => NothingCorrupt(st, ttl, now);
    }
  }

  lemma NothingCorrupt(st: Store, ttl: Ttl, now: int)
    requires Intact(st, ttl, now)
    ensures forall k :: !ReadInstance(st, k).Corrupt?
    ensures forall k :: !ReadRoute(st, k).Corrupt?
  {
    hide LuaInstanceRecord, LuaRouteRecord;
  }

  /** Time passing keeps a store intact. */
  lemma IntactLater(st: Store, ttl: Ttl, now: int, later: int)
    requires Intact(st, ttl, now) && now <= later
    ensures Intact(st, ttl, later)
  {
  }

  /**
   Whatever is stored, a lookup that answers does so in request order, and an online answer carries that user's own,
   well-formed tuple; it fails only on a record that no call would have left.
   */
  lemma LookupAnswersItsUsers(st: Store, ttl: Ttl, now: int, ids: seq<string>)
    requires ValidCommand(Lookup(ids))
    ensures var reply := Execute(st, ttl, now, Lookup(ids)).1;
            && (reply.Routes? || reply == Failed(Dependency)) && (Intact(st, ttl, now) ==> reply.Routes?)
            && (reply.Routes? ==>
                  && |reply.routes| == |ids|
                  && forall k | 0 <= k < |ids| ::
                       && reply.routes[k].user == ids[k]
                       && (reply.routes[k].Online? ==>
                             && reply.routes[k].route.id.user == ids[k]
                             && ValidConnection(reply.routes[k].route.id)
                             && now < reply.routes[k].route.deadline <= reply.routes[k].route.auth))
  {
    hide LuaUuid, ValidUuid, LuaToken, ValidInstance;
    if Intact(st, ttl, now) {
      forall k | 0 <= k < |ids| ensures LookupOne(st, now, ids[k]).Some? {
      }
    }
    if LookupAll(st, now, ids).Some? {
      var rs := LookupAll(st, now, ids).value;
      forall k | 0 <= k < |ids| && rs[k].Online? ensures ValidConnection(rs[k].route.id) {
        assert LookupOne(st, now, ids[k]) == Some(rs[k]);
        LuaAcceptsGo(rs[k].route.id);
      }
    }
  }

  /** A lifetime in nanoseconds becomes the least whole number of milliseconds that covers it, never zero. */
  lemma RoundTtlCovers(d: nat)
    ensures RoundTtl(d) > 0
    ensures d > 0 ==> (RoundTtl(d) - 1) * NANOS_PER_MILLI < d <= RoundTtl(d) * NANOS_PER_MILLI
    ensures RoundTtl(0) == 60_000
  {
  }
}
