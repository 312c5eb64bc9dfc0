/**
 A Comet process and its instance lease. The process registers once, renews in a loop, and trusts a lease only
 until five seconds before the deadline Redis gave it. Losing the lease is final: a new boot must register.
 */
module CometInstance {
  import opened Wrappers
  import L = LeaseScript

  const SAFETY_MARGIN := 5000

  datatype Identity = Identity(instance: string, boot: string)

  /** Where the process is: registering, between renewals, waiting for a renewal's answer, or stopped for good. */
  datatype Phase = Starting | Waiting | Renewing(sentDraining: bool) | Stopped

  datatype Client = Client(
    id: Identity, address: string, phase: Phase, safe: int, ready: bool, draining: bool, hubClosed: bool)

  /** How a call to Logic ends: with a reply (which may lack a lease), or with an error that may be worth retrying. */
  datatype Answer = Granted(lease: Option<L.Instance>) | TransientError | PermanentError

  function Launched(id: Identity, address: string): Client {
    Client(id, address, Starting, 0, false, false, false)
  }

  /** The safe deadline of an acceptable lease; nothing when the lease is not this process's or is too short. */
  function ValidateLease(c: Client, lease: Option<L.Instance>, draining: bool, clock: int): (safe: Option<int>)
    ensures safe.Some? <==>
              exists deadline :: clock + SAFETY_MARGIN < deadline
                && lease == Some(L.Instance(c.id.instance, c.id.boot, c.address, draining, deadline))
    ensures safe.Some? ==> safe.value + SAFETY_MARGIN == lease.value.deadline
  {
    if lease.None? || Identity(lease.value.instance, lease.value.boot) != c.id || lease.value.address != c.address
       || lease.value.draining != draining then None
    else
      var limit := lease.value.deadline - SAFETY_MARGIN;
      if limit <= clock then None else Some(limit)
  }

  function Stop(c: Client): Client {
    c.(phase := Stopped, ready := false, hubClosed := true)
  }

  /** The end of registration: any doubt gives the lease up. */
  function AfterRegister(c: Client, answer: Answer, cancelled: bool, clock: int): Client {
    match answer
    case Granted(lease) =>
      var safe := ValidateLease(c, lease, false, clock);
      if safe.None? || cancelled || c.draining || c.hubClosed then Stop(c)
      else c.(phase := Waiting, safe := safe.value, ready := true)
    case _ => Stop(c)
  }

  /** The top of the renewal loop: stop when told to or when the safe deadline has passed, otherwise ask again. */
  function AfterWait(c: Client, cancelled: bool, clock: int): Client {
    if cancelled || c.hubClosed || c.safe <= clock then Stop(c) else c.(phase := Renewing(c.draining))
  }

  /** The answer to a renewal; `clock` is read when it arrives and `later` when its lease is validated. */
  function AfterRenew(c: Client, answer: Answer, cancelled: bool, clock: int, later: int): Client
    requires c.phase.Renewing?
  {
    if cancelled || c.safe <= clock then Stop(c)
    else
      match answer
      case TransientError => c.(phase := Waiting, ready := false)
      case PermanentError => Stop(c)
      case Granted(lease) =>
        var next := ValidateLease(c, lease, c.phase.sentDraining, later);
        if next.None? then Stop(c) else c.(phase := Waiting, safe := next.value, ready := !c.draining)
  }

  /** What the process reports to load balancers at local time `clock`. */
  predicate Ready(c: Client, clock: int) {
    c.ready && clock < c.safe && !c.draining && !c.hubClosed && !c.phase.Stopped?
  }

  /** One turn of the renewal loop as its environment decides it. */
  datatype Turn = Turn(cancelled: bool, top: int, woken: int, drained: bool, closed: bool,
                       answer: Answer, cancelledInCall: bool, drainedInCall: bool, answered: int, validated: int)

  /** The loop on values: wait, ask, take the answer; nothing happens once stopped. */
  function TakeTurn(c: Client, t: Turn): Client {
    if c.phase.Stopped? then c
    else if c.safe <= t.top then Stop(c)
    else
      var woken := AfterWait(c.(draining := c.draining || t.drained, hubClosed := c.hubClosed || t.closed),
                             t.cancelled, t.woken);
      if woken.phase.Stopped? then woken
      else AfterRenew(woken.(draining := woken.draining || t.drainedInCall), t.answer, t.cancelledInCall, t.answered,
                      t.validated)
  }

  function TakeTurns(c: Client, turns: seq<Turn>): Client {
    if turns == [] then c
    else TakeTurn(TakeTurns(c, turns[..|turns| - 1]), turns[|turns| - 1])
  }

  /** The running process: the fields its methods update. */
  class InstanceLoop {
    const id: Identity
    const address: string
    var safeDeadline: int
    var ready: bool
    var draining: bool
    var hubClosed: bool
    var started: bool
    var stopped: bool

    function State(): Client
      reads this
    {
      Client(id, address, if stopped then Stopped else if started then Waiting else Starting,
             safeDeadline, ready, draining, hubClosed)
    }

    constructor (id: Identity, address: string)
      ensures State() == Launched(id, address)
    {
      this.id, this.address := id, address;
      safeDeadline, ready, draining, hubClosed, started, stopped := 0, false, false, false, false, false;
    }

    method Finish()
      modifies this
      ensures State() == Stop(old(State()))
      ensures started == old(started)
    {
      ready := false;
      hubClosed := true;
      stopped := true;
    }

    method Start(answer: Answer, cancelled: bool, clock: int)
      requires State().phase.Starting?
      modifies this
      ensures State() == AfterRegister(old(State()), answer, cancelled, clock)
    {
      var safe: Option<int> := None;
      if answer.Granted? {
        safe := ValidateLease(State(), answer.lease, false, clock);
      }
      if safe.None? || cancelled || draining || hubClosed {
        Finish();
        return;
      }
      safeDeadline := safe.value;
      ready := true;
      started := true;
    }

    /** The loop's body: wait, ask, take the answer. */
    method Take(t: Turn)
      requires started
      modifies this
      ensures started && State() == TakeTurn(old(State()), t)
    {
      if stopped {
        return;
      }
      var safe := safeDeadline;
      if safe <= t.top {
        Finish();
        return;
      }
      draining := draining || t.drained;
      hubClosed := hubClosed || t.closed;
      if t.cancelled || hubClosed || safe <= t.woken {
        Finish();
        return;
      }
      var sent := draining;
      draining := draining || t.drainedInCall;
      if t.cancelledInCall || safe <= t.answered || t.answer.PermanentError? {
        Finish();
        return;
      }
      if t.answer.TransientError? {
        ready := false;
        return;
      }
      var next := ValidateLease(State(), t.answer.lease, sent, t.validated);
      if next.None? {
        Finish();
        return;
      }
      safeDeadline := next.value;
      ready := !draining;
    }

    /** The renewal loop, for any finite sequence of turns. */
    method Run(turns: seq<Turn>)
      requires State().phase.Waiting?
      modifies this
      ensures State() == TakeTurns(old(State()), turns)
    {
      ghost var start := State();
      for k := 0 to |turns|
        invariant started && State() == TakeTurns(start, turns[..k])
      {
        assert turns[..k + 1][..k] == turns[..k];
        Take(turns[k]);
      }
      assert turns[..|turns|] == turns;
    }
  }

  /** The lease is this process's own, as it asked for it, and good for more than five seconds. */
  predicate OwnLease(c: Client, answer: Answer, draining: bool, clock: int, deadline: int) {
    && answer == Granted(Some(L.Instance(c.id.instance, c.id.boot, c.address, draining, deadline)))
    && clock + 5000 < deadline
  }

  /** Registration makes a process ready exactly with its own lease and nothing against it; otherwise it is over. */
  lemma RegisterDecides(c: Client, answer: Answer, cancelled: bool, clock: int)
    requires c.phase.Starting?
    ensures var n := AfterRegister(c, answer, cancelled, clock);
            && n.id == c.id && n.address == c.address && n.draining == c.draining
            && (n.phase.Waiting? <==>
                  !cancelled && !c.draining && !c.hubClosed && exists d :: OwnLease(c, answer, false, clock, d))
            && (n.phase.Waiting? ==> n.ready && !n.hubClosed && OwnLease(c, answer, false, clock, n.safe + 5000))
            && (!n.phase.Waiting? ==> n.phase.Stopped? && !n.ready && n.hubClosed)
  {
    if AfterRegister(c, answer, cancelled, clock).phase.Waiting? {
      assert OwnLease(c, answer, false, clock, answer.lease.value.deadline);
    }
    if d :| OwnLease(c, answer, false, clock, d) {
      assert answer.lease.value.deadline == d;
    }
  }

  /**
   The process asks again, with the draining flag it has then, exactly while its lease is good and nothing ends it.
   */
  lemma WaitDecides(c: Client, cancelled: bool, clock: int)
    requires c.phase.Waiting?
    ensures var n := AfterWait(c, cancelled, clock);
            && (n.phase == Renewing(c.draining) <==> !cancelled && !c.hubClosed && clock < c.safe)
            && (n.phase.Renewing? ==> n == c.(phase := n.phase))
            && (!n.phase.Renewing? ==> n.phase.Stopped? && !n.ready && n.hubClosed)
  {
  }

  /**
   A renewal in time makes the process ready again, also after transient errors, exactly with its own lease and unless
   it is draining; a transient error leaves it waiting, not ready, on the lease it has; anything else ends it.
   */
  lemma RenewDecides(c: Client, answer: Answer, cancelled: bool, clock: int, later: int)
    requires c.phase.Renewing?
    ensures var n := AfterRenew(c, answer, cancelled, clock, later);
            var inTime, sent := !cancelled && clock < c.safe, c.phase.sentDraining;
            && n.id == c.id && n.address == c.address && n.draining == c.draining
            && (n.phase.Waiting? <==>
                  inTime && (answer == TransientError || exists d :: OwnLease(c, answer, sent, later, d)))
            && (n.phase.Waiting? || (n.phase.Stopped? && !n.ready && n.hubClosed))
            && (n.phase.Waiting? && answer == TransientError ==>
                  !n.ready && n.safe == c.safe && n.hubClosed == c.hubClosed)
            && (n.phase.Waiting? && answer != TransientError ==>
                  && (n.ready <==> !c.draining) && n.hubClosed == c.hubClosed
                  && OwnLease(c, answer, sent, later, n.safe + 5000))
  {
    if AfterRenew(c, answer, cancelled, clock, later).phase.Waiting? && answer.Granted? {
      assert OwnLease(c, answer, c.phase.sentDraining, later, answer.lease.value.deadline);
    }
    if d :| OwnLease(c, answer, c.phase.sentDraining, later, d) {
      assert answer.lease.value.deadline == d;
    }
  }

  /** A stopped process never runs again, and draining is never taken back, whatever the turns bring. */
  lemma {:induction false} StopAndDrainAreFinal(c: Client, turns: seq<Turn>)
    requires c.phase.Waiting? || c.phase.Stopped?
    ensures TakeTurns(c, turns).phase.Waiting? || TakeTurns(c, turns).phase.Stopped?
    ensures c.phase.Stopped? ==> TakeTurns(c, turns) == c
    ensures c.draining ==> TakeTurns(c, turns).draining
    ensures forall clock :: Ready(TakeTurns(c, turns), clock) ==> !c.draining && !c.phase.Stopped?
  {
    if turns != [] {
      StopAndDrainAreFinal(c, turns[..|turns| - 1]);
    }
  }
}
