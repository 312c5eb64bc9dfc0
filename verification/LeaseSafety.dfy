/**
 Logic's store and any number of Comet processes over a network that may delay, repeat, reorder or lose every
 request and every reply. Requests stay deliverable for ever; a reply may reach its process at any later time.
 */
module LeaseSafety {
  import opened Wrappers
  import opened Identifiers
  import opened RouteToken
  import opened LeaseScript
  import opened LeaseRuns
  import opened LeaseExpiry
  import opened CometInstance

  /** `sent` holds every instance request ever sent, `grants` every instance lease Logic ever answered with. */
  datatype System = System(
    store: Store, now: int, clients: map<Identity, Client>, sent: set<Command>, grants: set<Instance>)

  datatype Step =
    | Tick(later: int)
    | Launch(id: Identity, address: string)
    | Serve(request: Command)
    | Foreign(cmd: Command)
    | Sweep(sweep: LeaseExpiry.Sweep)
    | RegisterAnswered(id: Identity, answer: Answer, cancelled: bool, clock: int)
    | WaitEnded(id: Identity, cancelled: bool, clock: int)
    | RenewAnswered(id: Identity, answer: Answer, cancelled: bool, clock: int, validated: int)
    | DrainStarted(id: Identity)
    | HubClosed(id: Identity)

  /** The process a request acts for, as the fence sees it. */
  predicate ActsForLaunched(clients: map<Identity, Client>, cmd: Command) {
    match cmd
    case Register(i, b, _) => Identity(i, b) in clients
    case Renew(i, b, _) => Identity(i, b) in clients
    case Unregister(i, b) => Identity(i, b) in clients
    case _ => false
  }

  predicate Delivered(answer: Answer, grants: set<Instance>) {
    answer.Granted? && answer.lease.Some? ==> answer.lease.value in grants
  }

  /** What a step needs: time within range, fresh boots, real requests and replies, the right phase. */
  predicate Enabled(s: System, ttl: Ttl, step: Step) {
    match step
    case Tick(later) => s.now <= later && ClockInRange(ttl, later)
    case Launch(id, _) => id !in s.clients
    case Serve(request) => request in s.sent
    case Foreign(cmd) => !ActsForLaunched(s.clients, cmd)
    case Sweep(_) => true
    case RegisterAnswered(id, answer, _, _) =>
      id in s.clients && s.clients[id].phase.Starting? && Delivered(answer, s.grants)
    case WaitEnded(id, _, _) => id in s.clients && s.clients[id].phase.Waiting?
    case RenewAnswered(id, answer, _, _, _) =>
      id in s.clients && s.clients[id].phase.Renewing? && Delivered(answer, s.grants)
    case DrainStarted(id) => id in s.clients
    case HubClosed(id) => id in s.clients
  }

  /** A process that stops also sends its conditional unregister. */
  function Update(s: System, c: Client, request: set<Command>): System {
    s.(clients := s.clients[c.id := c],
       sent := s.sent + request + (if c.phase.Stopped? then {Command.Unregister(c.id.instance, c.id.boot)} else {}))
  }

  function Next(s: System, ttl: Ttl, step: Step): System
    requires Enabled(s, ttl, step)
  {
    match step
    case Tick(later) => s.(now := later)
    case Launch(id, address) =>
      Update(s, Launched(id, address), {Command.Register(id.instance, id.boot, address)})
    case Serve(request) =>
      var (store, reply) := Execute(s.store, ttl, s.now, request);
      s.(store := store, grants := s.grants + (if reply.InstanceLease? then {reply.lease} else {}))
    case Foreign(cmd) => s.(store := Execute(s.store, ttl, s.now, cmd).0)
    case Sweep(sweep) => s.(store := Expire(s.store, s.now, sweep))
    case RegisterAnswered(id, answer, cancelled, clock) =>
      Update(s, AfterRegister(s.clients[id], answer, cancelled, clock), {})
    case WaitEnded(id, cancelled, clock) =>
      var c := AfterWait(s.clients[id], cancelled, clock);
      Update(s, c, if c.phase.Renewing? then {Command.Renew(id.instance, id.boot, c.phase.sentDraining)} else {})
    case RenewAnswered(id, answer, cancelled, clock, validated) =>
      Update(s, AfterRenew(s.clients[id], answer, cancelled, clock, validated), {})
    case DrainStarted(id) => s.(clients := s.clients[id := s.clients[id].(draining := true)])
    case HubClosed(id) => s.(clients := s.clients[id := s.clients[id].(hubClosed := true)])
  }

  predicate Init(s: System, ttl: Ttl) {
    && ttl.Positive() && ClockInRange(ttl, s.now) && Intact(s.store, ttl, s.now)
    && s.clients == map[] && s.sent == {} && s.grants == {}
  }

  /** A run: every state follows from the one before it by some enabled step. */
  predicate Behavior(states: seq<System>, steps: seq<Step>, ttl: Ttl) {
    && |states| == |steps| + 1
    && Init(states[0], ttl)
    && forall k | 0 <= k < |steps| ::
         Enabled(states[k], ttl, steps[k]) && states[k + 1] == Next(states[k], ttl, steps[k])
  }

  // ----- the invariant -----

  /** Until `deadline`, Redis holds the instance under exactly this boot, and for at least that long. */
  predicate Covered(st: Store, now: int, id: Identity, deadline: int) {
    now < deadline ==>
      && HoldsLease(st, id.instance, id.boot, now)
      && deadline <= st.instances[id.instance].deadline
  }

  predicate Trusting(c: Client) {
    c.phase.Waiting? || c.phase.Renewing?
  }

  predicate SentByProcess(s: System, cmd: Command) {
    && ActsForLaunched(s.clients, cmd)
    && (cmd.Unregister? ==> s.clients[Identity(cmd.instance, cmd.boot)].phase.Stopped?)
  }

  ghost predicate Inv(s: System, ttl: Ttl) {
    && ttl.Positive() && ClockInRange(ttl, s.now) && Intact(s.store, ttl, s.now)
    && (forall id | id in s.clients :: s.clients[id].id == id)
    && (forall id | id in s.clients :: s.clients[id].ready ==> Trusting(s.clients[id]))
    && (forall cmd | cmd in s.sent :: SentByProcess(s, cmd))
    && (forall l | l in s.grants :: Identity(l.instance, l.boot) in s.clients)
    && (forall l | l in s.grants && !s.clients[Identity(l.instance, l.boot)].phase.Stopped? ::
          Covered(s.store, s.now, Identity(l.instance, l.boot), l.deadline))
    && (forall id | id in s.clients && Trusting(s.clients[id]) ::
          Covered(s.store, s.now, id, s.clients[id].safe + SAFETY_MARGIN))
  }

  /** No call except the process's own unregister can uncover it. */
  lemma CoveredByCall(st: Store, ttl: Ttl, now: int, cmd: Command, id: Identity, deadline: int)
    requires ttl.Positive() && Intact(st, ttl, now)
    requires Covered(st, now, id, deadline)
    requires cmd != Command.Unregister(id.instance, id.boot)
    ensures Covered(Execute(st, ttl, now, cmd).0, now, id, deadline)
  {
    hide Intact, Execute;
    if now < deadline {
      FenceStep(st, ttl, now, cmd, id.instance, id.boot);
    }
  }

  /** A granted lease is in the store under the boot that asked. */
  lemma GrantIsStored(st: Store, ttl: Ttl, now: int, cmd: Command)
    requires ttl.Positive() && Intact(st, ttl, now)
    requires Execute(st, ttl, now, cmd).1.InstanceLease?
    ensures var (after, reply) := Execute(st, ttl, now, cmd);
            var l := reply.lease;
            && ActsFor(cmd, l.instance, l.boot)
            && Covered(after, now, Identity(l.instance, l.boot), l.deadline)
  {
    hide LuaUuid, ValidUuid, LuaToken, ValidInstance;
  }

  lemma InvByCall(s: System, ttl: Ttl, cmd: Command, grants: set<Instance>)
    requires Inv(s, ttl)
    requires cmd.Unregister? && Identity(cmd.instance, cmd.boot) in s.clients ==>
               s.clients[Identity(cmd.instance, cmd.boot)].phase.Stopped?
    requires var reply := Execute(s.store, ttl, s.now, cmd).1;
             grants == if ActsForLaunched(s.clients, cmd) && reply.InstanceLease? then {reply.lease} else {}
    ensures Inv(s.(store := Execute(s.store, ttl, s.now, cmd).0, grants := s.grants + grants), ttl)
  {
    hide Intact, Execute, ClockInRange, HoldsLease, Covered;
    var after := Execute(s.store, ttl, s.now, cmd).0;
    ExecuteKeepsIntact(s.store, ttl, s.now, cmd);
    forall id | id in s.clients && Trusting(s.clients[id])
      ensures Covered(after, s.now, id, s.clients[id].safe + SAFETY_MARGIN)
    {
      CoveredByCall(s.store, ttl, s.now, cmd, id, s.clients[id].safe + SAFETY_MARGIN);
    }
    forall l | l in s.grants && !s.clients[Identity(l.instance, l.boot)].phase.Stopped?
      ensures Covered(after, s.now, Identity(l.instance, l.boot), l.deadline)
    {
      CoveredByCall(s.store, ttl, s.now, cmd, Identity(l.instance, l.boot), l.deadline);
    }
    if grants != {} {
      GrantIsStored(s.store, ttl, s.now, cmd);
    }
  }

  lemma InvByTime(s: System, ttl: Ttl, later: int)
    requires Inv(s, ttl) && s.now <= later && ClockInRange(ttl, later)
    ensures Inv(s.(now := later), ttl)
  {
    hide LuaInstanceRecord, LuaRouteRecord, ClockInRange;
    IntactLater(s.store, ttl, s.now, later);
  }

  lemma InvBySweep(s: System, ttl: Ttl, sweep: LeaseExpiry.Sweep)
    requires Inv(s, ttl)
    ensures Inv(s.(store := Expire(s.store, s.now, sweep)), ttl)
  {
    hide LuaInstanceRecord, LuaRouteRecord, ClockInRange;
  }

  /** A process updates itself: what it then trusts must be covered, and once stopped it stays stopped. */
  lemma InvByClient(s: System, ttl: Ttl, c: Client, request: set<Command>)
    requires Inv(s, ttl)
    requires forall cmd | cmd in request :: ActsFor(cmd, c.id.instance, c.id.boot) && !cmd.Unregister?
    requires c.ready ==> Trusting(c)
    requires Trusting(c) ==> Covered(s.store, s.now, c.id, c.safe + SAFETY_MARGIN)
    requires c.id in s.clients && s.clients[c.id].phase.Stopped? ==> c.phase.Stopped?
    requires c.id !in s.clients ==> !c.phase.Stopped?
    ensures Inv(Update(s, c, request), ttl)
  {
    hide Intact, ClockInRange, HoldsLease, Covered;
  }

  lemma InvByAnswer(s: System, ttl: Ttl, c: Client, answer: Answer)
    requires Inv(s, ttl) && c.id in s.clients && !s.clients[c.id].phase.Stopped?
    requires Delivered(answer, s.grants) && answer.Granted? && answer.lease.Some?
    requires Identity(answer.lease.value.instance, answer.lease.value.boot) == c.id
    requires c.safe + SAFETY_MARGIN == answer.lease.value.deadline
    ensures Covered(s.store, s.now, c.id, c.safe + SAFETY_MARGIN)
  {
  }

  lemma InvByRegister(s: System, ttl: Ttl, id: Identity, answer: Answer, cancelled: bool, clock: int)
    requires Inv(s, ttl) && Enabled(s, ttl, RegisterAnswered(id, answer, cancelled, clock))
    ensures Inv(Update(s, AfterRegister(s.clients[id], answer, cancelled, clock), {}), ttl)
  {
    hide Intact, ClockInRange, HoldsLease, Covered, Update;
    var c := AfterRegister(s.clients[id], answer, cancelled, clock);
    if !c.phase.Stopped? {
      InvByAnswer(s, ttl, c, answer);
    }
    InvByClient(s, ttl, c, {});
  }

  lemma InvByWait(s: System, ttl: Ttl, id: Identity, cancelled: bool, clock: int)
    requires Inv(s, ttl) && Enabled(s, ttl, WaitEnded(id, cancelled, clock))
    ensures var c := AfterWait(s.clients[id], cancelled, clock);
            Inv(Update(s, c, if c.phase.Renewing? then {Command.Renew(id.instance, id.boot, c.phase.sentDraining)}
                             else {}), ttl)
  {
    hide Intact, ClockInRange, HoldsLease, Covered, Update;
    var c := AfterWait(s.clients[id], cancelled, clock);
    InvByClient(s, ttl, c, if c.phase.Renewing? then {Command.Renew(id.instance, id.boot, c.phase.sentDraining)}
                           else {});
  }

  lemma InvByRenew(s: System, ttl: Ttl, id: Identity, answer: Answer, cancelled: bool, clock: int, validated: int)
    requires Inv(s, ttl) && Enabled(s, ttl, RenewAnswered(id, answer, cancelled, clock, validated))
    ensures Inv(Update(s, AfterRenew(s.clients[id], answer, cancelled, clock, validated), {}), ttl)
  {
    hide Intact, ClockInRange, HoldsLease, Covered, Update;
    var c := AfterRenew(s.clients[id], answer, cancelled, clock, validated);
    if answer.Granted? && !c.phase.Stopped? {
      InvByAnswer(s, ttl, c, answer);
    }
    InvByClient(s, ttl, c, {});
  }

  lemma InvStep(s: System, ttl: Ttl, step: Step)
    requires Inv(s, ttl) && Enabled(s, ttl, step)
    ensures Inv(Next(s, ttl, step), ttl)
  {
    hide Intact, Execute, ClockInRange, HoldsLease, Covered, Expire, Update, AfterRegister, AfterWait, AfterRenew;
    match step
    case Tick(later) => InvByTime(s, ttl, later);
    case Launch(id, address) =>
      InvByClient(s, ttl, Launched(id, address), {Command.Register(id.instance, id.boot, address)});
    case Serve(request) =>
      var reply := Execute(s.store, ttl, s.now, request).1;
      InvByCall(s, ttl, request, if reply.InstanceLease? then {reply.lease} else {});
    case Foreign(cmd) =>
      InvByCall(s, ttl, cmd, {});
      assert s.grants + {} == s.grants;
    case Sweep(sweep) => InvBySweep(s, ttl, sweep);
    case RegisterAnswered(id, answer, cancelled, clock) => InvByRegister(s, ttl, id, answer, cancelled, clock);
    case WaitEnded(id, cancelled, clock) => InvByWait(s, ttl, id, cancelled, clock);
    case RenewAnswered(id, answer, cancelled, clock, validated) =>
      InvByRenew(s, ttl, id, answer, cancelled, clock, validated);
    case DrainStarted(id) => InvByFlag(s, ttl, s.clients[id].(draining := true));
    case HubClosed(id) => InvByFlag(s, ttl, s.clients[id].(hubClosed := true));
  }

  lemma InvByFlag(s: System, ttl: Ttl, c: Client)
    requires Inv(s, ttl) && c.id in s.clients
    requires c.phase == s.clients[c.id].phase && c.ready == s.clients[c.id].ready && c.safe == s.clients[c.id].safe
    ensures Inv(s.(clients := s.clients[c.id := c]), ttl)
  {
    hide Intact, ClockInRange, HoldsLease, Covered;
  }

  lemma {:induction false} InvAlways(states: seq<System>, steps: seq<Step>, ttl: Ttl, k: nat)
    requires Behavior(states, steps, ttl) && k < |states|
    ensures Inv(states[k], ttl)
    decreases k
  {
    hide Intact, ClockInRange, Next, Enabled;
    if k > 0 {
      InvAlways(states, steps, ttl, k - 1);
      InvStep(states[k - 1], ttl, steps[k - 1]);
    }
  }

  /**
   In every state of every run, if Redis's clock is at most five seconds ahead of the reading a process takes, a
   process that reports ready holds, in Redis, a live lease on its instance under exactly its own boot.
   */
  lemma ReadyHoldsLease(states: seq<System>, steps: seq<Step>, ttl: Ttl, k: nat, id: Identity, clock: int)
    requires Behavior(states, steps, ttl) && k < |states|
    requires id in states[k].clients && Ready(states[k].clients[id], clock)
    requires states[k].now - clock <= SAFETY_MARGIN
    ensures HoldsLease(states[k].store, id.instance, id.boot, states[k].now)
  {
    hide Intact, ClockInRange, Behavior, HoldsLease;
    InvAlways(states, steps, ttl, k);
  }

  /** Two processes of one instance name are never both ready while both clocks are within the margin. */
  lemma ReadyIsExclusive(states: seq<System>, steps: seq<Step>, ttl: Ttl, k: nat,
                         a: Identity, b: Identity, clockA: int, clockB: int)
    requires Behavior(states, steps, ttl) && k < |states|
    requires a in states[k].clients && Ready(states[k].clients[a], clockA) && states[k].now - clockA <= SAFETY_MARGIN
    requires b in states[k].clients && Ready(states[k].clients[b], clockB) && states[k].now - clockB <= SAFETY_MARGIN
    requires a.instance == b.instance
    ensures a == b
  {
    hide Intact, ClockInRange, Behavior;
    ReadyHoldsLease(states, steps, ttl, k, a, clockA);
    ReadyHoldsLease(states, steps, ttl, k, b, clockB);
  }

  /** One millisecond more and the guarantee is gone: for every valid process there is a run that breaks it. */
  lemma MarginIsTight(ttl: Ttl, id: Identity, address: string)
      returns (states: seq<System>, steps: seq<Step>, clock: int)
    requires ttl.Positive() && ttl.instance > SAFETY_MARGIN && ClockInRange(ttl, 1 + ttl.instance)
    requires ValidComet(id.instance, id.boot) && 0 < |address| <= 512
    ensures Behavior(states, steps, ttl)
    ensures var last := states[|states| - 1];
            && id in last.clients && Ready(last.clients[id], clock)
            && last.now - clock == SAFETY_MARGIN + 1
            && !HoldsLease(last.store, id.instance, id.boot, last.now)
  {
    hide LuaUuid, ValidUuid, LuaToken, ValidInstance;
    LuaUuidIsValidUuid(id.boot);
    var lease := Instance(id.instance, id.boot, address, false, 1 + ttl.instance);
    var request := Command.Register(id.instance, id.boot, address);
    steps := [Launch(id, address), Serve(request),
              RegisterAnswered(id, Granted(Some(lease)), false, 1), Tick(1 + ttl.instance)];
    var s0 := System(Store(map[], map[]), 1, map[], {}, {});
    var s1 := Next(s0, ttl, steps[0]);
    assert request in s1.sent;
    assert Execute(s1.store, ttl, 1, request) == (Store(map[id.instance := lease], map[]), InstanceLease(lease));
    var s2 := Next(s1, ttl, steps[1]);
    assert lease in s2.grants;
    var s3 := Next(s2, ttl, steps[2]);
    var s4 := Next(s3, ttl, steps[3]);
    states := [s0, s1, s2, s3, s4];
    clock := ttl.instance - SAFETY_MARGIN;
    assert s3.clients[id].safe == 1 + ttl.instance - SAFETY_MARGIN;
  }

  // ----- the renewal loop is made of these steps -----

  /** The steps lead from `s` to `n`, each possible where it happens. */
  predicate Leads(s: System, ttl: Ttl, steps: seq<Step>, n: System)
    decreases |steps|
  {
    if steps == [] then s == n else Enabled(s, ttl, steps[0]) && Leads(Next(s, ttl, steps[0]), ttl, steps[1..], n)
  }

  lemma {:induction false} LeadsConcat(s: System, ttl: Ttl, a: seq<Step>, m: System, b: seq<Step>, n: System)
    requires Leads(s, ttl, a, m) && Leads(m, ttl, b, n)
    ensures Leads(s, ttl, a + b, n)
    decreases |a|
  {
    hide Enabled, Next;
    if a == [] {
      assert a + b == b;
    } else {
      LeadsConcat(Next(s, ttl, a[0]), ttl, a[1..], m, b, n);
      assert (a + b)[1..] == a[1..] + b;
    }
  }

  /** The flags that the hub raises while the loop waits. */
  function FlagSteps(id: Identity, drained: bool, closed: bool): seq<Step> {
    (if drained then [DrainStarted(id)] else []) + (if closed then [HubClosed(id)] else [])
  }

  function Flagged(c: Client, drained: bool, closed: bool): Client {
    c.(draining := c.draining || drained, hubClosed := c.hubClosed || closed)
  }

  /** One turn of the loop as steps: flags, the end of the wait, and the answer unless the process stopped before. */
  function TurnSteps(c: Client, t: Turn): seq<Step> {
    if c.phase.Stopped? then []
    else if c.safe <= t.top then [WaitEnded(c.id, false, t.top)]
    else
      FlagSteps(c.id, t.drained, t.closed) + [WaitEnded(c.id, t.cancelled, t.woken)]
      + if AfterWait(Flagged(c, t.drained, t.closed), t.cancelled, t.woken).phase.Stopped? then []
        else FlagSteps(c.id, t.drainedInCall, false)
             + [RenewAnswered(c.id, t.answer, t.cancelledInCall, t.answered, t.validated)]
  }

  function TurnsSteps(c: Client, turns: seq<Turn>): seq<Step> {
    if turns == [] then []
    else
      var front := turns[..|turns| - 1];
      TurnsSteps(c, front) + TurnSteps(TakeTurns(c, front), turns[|turns| - 1])
  }

  /** The process in `s`, and what it may still be answered with. */
  predicate Stands(s: System, c: Client, grants: set<Instance>) {
    c.id in s.clients && s.clients[c.id] == c && grants <= s.grants
  }

  lemma FlagsAreSteps(s: System, ttl: Ttl, c: Client, grants: set<Instance>, drained: bool, closed: bool)
      returns (n: System)
    requires Stands(s, c, grants)
    ensures Leads(s, ttl, FlagSteps(c.id, drained, closed), n) && Stands(n, Flagged(c, drained, closed), grants)
  {
    var m := if drained then Next(s, ttl, DrainStarted(c.id)) else s;
    n := if closed then Next(m, ttl, HubClosed(c.id)) else m;
    assert Leads(m, ttl, if closed then [HubClosed(c.id)] else [], n);
    LeadsConcat(s, ttl, if drained then [DrainStarted(c.id)] else [], m, if closed then [HubClosed(c.id)] else [], n);
  }

  lemma WaitIsStep(s: System, ttl: Ttl, c: Client, grants: set<Instance>, cancelled: bool, clock: int)
      returns (n: System)
    requires Stands(s, c, grants) && c.phase.Waiting?
    ensures Leads(s, ttl, [WaitEnded(c.id, cancelled, clock)], n) && Stands(n, AfterWait(c, cancelled, clock), grants)
  {
    n := Next(s, ttl, WaitEnded(c.id, cancelled, clock));
  }

  lemma AnswerIsStep(s: System, ttl: Ttl, c: Client, grants: set<Instance>, t: Turn) returns (n: System)
    requires Stands(s, c, grants) && c.phase.Renewing? && Delivered(t.answer, grants)
    ensures Leads(s, ttl, [RenewAnswered(c.id, t.answer, t.cancelledInCall, t.answered, t.validated)], n)
    ensures Stands(n, AfterRenew(c, t.answer, t.cancelledInCall, t.answered, t.validated), grants)
  {
    n := Next(s, ttl, RenewAnswered(c.id, t.answer, t.cancelledInCall, t.answered, t.validated));
  }

  lemma TurnIsSteps(s: System, ttl: Ttl, c: Client, grants: set<Instance>, t: Turn) returns (n: System)
    requires Stands(s, c, grants) && (c.phase.Waiting? || c.phase.Stopped?) && Delivered(t.answer, grants)
    ensures Leads(s, ttl, TurnSteps(c, t), n) && Stands(n, TakeTurn(c, t), grants)
  {
    hide Leads, Delivered, Stands, FlagSteps;
    if c.phase.Stopped? {
      n := s;
      NoSteps(s, ttl);
    } else if c.safe <= t.top {
      n := WaitIsStep(s, ttl, c, grants, false, t.top);
    } else {
      var flagged := FlagsAreSteps(s, ttl, c, grants, t.drained, t.closed);
      var f := Flagged(c, t.drained, t.closed);
      n := WaitIsStep(flagged, ttl, f, grants, t.cancelled, t.woken);
      var flags, wait := FlagSteps(c.id, t.drained, t.closed), [WaitEnded(c.id, t.cancelled, t.woken)];
      LeadsConcat(s, ttl, flags, flagged, wait, n);
      var w := AfterWait(f, t.cancelled, t.woken);
      if w.phase.Stopped? {
        assert TurnSteps(c, t) == flags + wait;
      } else {
        var during := FlagsAreSteps(n, ttl, w, grants, t.drainedInCall, false);
        LeadsConcat(s, ttl, flags + wait, n, FlagSteps(c.id, t.drainedInCall, false), during);
        var answer := [RenewAnswered(c.id, t.answer, t.cancelledInCall, t.answered, t.validated)];
        n := AnswerIsStep(during, ttl, Flagged(w, t.drainedInCall, false), grants, t);
        LeadsConcat(s, ttl, flags + wait + FlagSteps(c.id, t.drainedInCall, false), during, answer, n);
        assert TurnSteps(c, t) == flags + wait + FlagSteps(c.id, t.drainedInCall, false) + answer;
      }
    }
  }

  lemma NoSteps(s: System, ttl: Ttl)
    ensures Leads(s, ttl, [], s)
  {
  }

  /**
   However many turns the loop takes, there is a run of the distributed system in which its process goes through exactly
   the same states, provided the leases it is answered with were granted to somebody.
   */
  lemma {:induction false} TurnsAreSteps(s: System, ttl: Ttl, c: Client, grants: set<Instance>, turns: seq<Turn>)
    returns (n: System)
    requires Stands(s, c, grants) && (c.phase.Waiting? || c.phase.Stopped?)
    requires forall t | t in turns :: Delivered(t.answer, grants)
    ensures Leads(s, ttl, TurnsSteps(c, turns), n) && Stands(n, TakeTurns(c, turns), grants)
    decreases |turns|
  {
    hide Leads, Delivered, Stands, TurnSteps, TakeTurn;
    if turns == [] {
      n := s;
      NoSteps(s, ttl);
    } else {
      var front, last := turns[..|turns| - 1], turns[|turns| - 1];
      var m := TurnsAreSteps(s, ttl, c, grants, front);
      StopAndDrainAreFinal(c, front);
      assert last in turns;
      n := TurnIsSteps(m, ttl, TakeTurns(c, front), grants, last);
      LeadsConcat(s, ttl, TurnsSteps(c, front), m, TurnSteps(TakeTurns(c, front), last), n);
    }
  }

  /** Nobody else's steps touch a process, so its own may be spread over any run. */
  lemma OthersLeaveProcess(s: System, ttl: Ttl, step: Step, id: Identity)
    requires Enabled(s, ttl, step) && id in s.clients && (forall c | c in s.clients :: s.clients[c].id == c)
    requires (step.Tick? || step.Serve? || step.Foreign? || step.Sweep?) || step.id != id
    ensures id in Next(s, ttl, step).clients && Next(s, ttl, step).clients[id] == s.clients[id]
    ensures s.grants <= Next(s, ttl, step).grants
  {
    hide Execute, Expire;
  }
}
