/**
 The local watchdog of a session lock (apps/agent/src/session-lease.ts, monitorSessionLease).
 Times are milliseconds on one clock; `performance.now()` is not whole, so they are reals.
 */
module SessionLease {
  import opened Common

  /** The lock's time-to-live and renewal interval, both positive in the environment schema. */
  datatype Timing = Timing(ttl: real, interval: real) {
    ghost predicate Valid() {
      ttl > 0.0 && interval > 0.0
    }

    /** How long before the Redis expiry the holder gives up. */
    function Margin(): (margin: real)
      ensures margin <= interval && 4.0 * margin <= ttl
      ensures margin == interval || 4.0 * margin == ttl
    {
      if interval <= ttl / 4.0 then interval else ttl / 4.0
    }
  }

  /** The closure's variables; `timer` is the moment the armed expiry timeout is due. */
  datatype Lease = Lease(deadline: real, closed: bool, aborted: bool, inFlight: bool, timer: Option<real>)

  /** How one renewal promise settled. */
  datatype Settled = Renewed(value: int) | Rejected

  function Arm(lease: Lease, now: real): Lease {
    if lease.deadline - now <= 0.0
    then lease.(aborted := true, timer := None)
    else lease.(timer := Some(lease.deadline))
  }

  function Start(timing: Timing, acquiredAt: real, now: real): Lease {
    Arm(Lease(acquiredAt + timing.ttl - timing.Margin(), false, false, false, None), now)
  }

  predicate Dispatches(lease: Lease, now: real) {
    !lease.closed && !lease.aborted && !lease.inFlight && now < lease.deadline
  }

  /** One interval tick. */
  function Tick(lease: Lease, now: real): Lease {
    if lease.closed || lease.aborted || lease.inFlight then lease
    else if now >= lease.deadline then lease.(aborted := true)
    else lease.(inFlight := true)
  }

  /** The renewal dispatched at `startedAt` settles at `now`. */
  function Settle(timing: Timing, lease: Lease, startedAt: real, settled: Settled, now: real): Lease {
    var done := lease.(inFlight := false);
    if settled.Rejected? || lease.closed || lease.aborted then done
    else if settled.value != 1 || now >= lease.deadline then done.(aborted := true)
    else Arm(done.(deadline := startedAt + timing.ttl - timing.Margin()), now)
  }

  function Expire(lease: Lease): Lease {
    lease.(aborted := true, timer := None)
  }

  function Stop(lease: Lease): Lease {
    lease.(closed := true, timer := None)
  }

  /** A live lease always has its timer armed for exactly its deadline. */
  ghost predicate Armed(lease: Lease) {
    !lease.closed && !lease.aborted ==> lease.timer == Some(lease.deadline)
  }

  /** The holder still acts under the lease, and its timer is less than `margin` late. */
  ghost predicate Holding(timing: Timing, lease: Lease, now: real) {
    !lease.closed && !lease.aborted && match lease.timer case None => true case Some(due) => now < due + timing.Margin()
  }

  lemma EveryStepKeepsArmed(timing: Timing, lease: Lease, startedAt: real, settled: Settled, now: real)
    requires Armed(lease)
    ensures Armed(Start(timing, startedAt, now))
    ensures Armed(Tick(lease, now)) && Armed(Settle(timing, lease, startedAt, settled, now))
    ensures Armed(Expire(lease)) && Armed(Stop(lease))
  {
  }

  /** Once given up, a lease never comes back, whatever arrives late. */
  lemma LossIsFinal(timing: Timing, lease: Lease, startedAt: real, settled: Settled, now: real)
    requires lease.closed || lease.aborted
    ensures var after := Settle(timing, lease, startedAt, settled, now);
            && after.deadline == lease.deadline && after.closed == lease.closed && after.aborted == lease.aborted
            && after.timer == lease.timer
    ensures Tick(lease, now) == lease && !Dispatches(lease, now)
    ensures Expire(lease).closed == lease.closed && Stop(lease).aborted == lease.aborted
  {
  }

  // ---------------------------------------------------------------- a lease that is renewed in time lives on

  ghost predicate IsOpen(lease: Lease) {
    !lease.closed && !lease.aborted
  }

  /** A lease that runs until `deadline`, with nothing in flight. */
  function Running(deadline: real): Lease {
    Lease(deadline, false, false, false, Some(deadline))
  }

  /** An acquisition heard in time starts a lease that gives up the margin before the key expires. */
  lemma TimelyStart(timing: Timing, acquiredAt: real, now: real)
    ensures var until := acquiredAt + timing.ttl - timing.Margin();
      Start(timing, acquiredAt, now) ==
        if now < until then Running(until) else Running(until).(aborted := true, timer := None)
  {
  }

  /** A tick of an open lease sends a renewal exactly before the deadline, and gives up from then on. */
  lemma TickOutcome(lease: Lease, now: real)
    requires IsOpen(lease)
    ensures !Tick(lease, now).closed && Tick(lease, now).deadline == lease.deadline &&
      Tick(lease, now).timer == lease.timer
    ensures Tick(lease, now).aborted <==> !lease.inFlight && now >= lease.deadline
    ensures Tick(lease, now).inFlight <==> lease.inFlight || now < lease.deadline
    ensures Dispatches(lease, now) <==> !lease.inFlight && now < lease.deadline
  {
  }

  /** When an answer comes too late to count. */
  predicate TooLate(timing: Timing, lease: Lease, startedAt: real, now: real) {
    now >= lease.deadline || now >= startedAt + timing.ttl - timing.Margin()
  }

  /**
   An open lease answered 1 in time runs on from the dispatch; any other answer, and a late one,
   loses it; a failed call changes nothing but lets the next tick try again.
   */
  lemma RenewalOutcome(timing: Timing, lease: Lease, startedAt: real, settled: Settled, now: real)
    requires IsOpen(lease)
    ensures var after := Settle(timing, lease, startedAt, settled, now);
      && !after.closed && !after.inFlight
      && (settled.Rejected? ==> after == lease.(inFlight := false))
      && (settled == Renewed(1) && !TooLate(timing, lease, startedAt, now) ==>
            after == Running(startedAt + timing.ttl - timing.Margin()))
      && (settled.Renewed? && (settled.value != 1 || TooLate(timing, lease, startedAt, now)) ==> after.aborted)
  {
  }

  /** A renewal that is answered 1. */
  datatype Renewal = Renewal(startedAt: real, answeredAt: real)

  function Renewing(timing: Timing, lease: Lease, renewals: seq<Renewal>): Lease {
    if renewals == [] then lease
    else
      var sofar, last := Renewing(timing, lease, renewals[..|renewals| - 1]), renewals[|renewals| - 1];
      Settle(timing, Tick(sofar, last.startedAt), last.startedAt, Renewed(1), last.answeredAt)
  }

  /** The deadline after these renewals: that of the last dispatch, or of the acquisition. */
  function DeadlineAfter(timing: Timing, acquiredAt: real, renewals: seq<Renewal>): real {
    (if renewals == [] then acquiredAt else renewals[|renewals| - 1].startedAt) + timing.ttl - timing.Margin()
  }

  /** Every renewal goes out and is answered before the deadline in force, and before its own new one. */
  ghost predicate Timely(timing: Timing, acquiredAt: real, renewals: seq<Renewal>) {
    forall k :: 0 <= k < |renewals| ==>
      var r, until := renewals[k], DeadlineAfter(timing, acquiredAt, renewals[..k]);
      r.startedAt < until && r.answeredAt < until && r.answeredAt < r.startedAt + timing.ttl - timing.Margin()
  }

  /**
   As long as its renewals are timely a lease is never lost, and runs until the margin before the last
   one's expiry.
   */
  lemma {:induction false} TimelyRenewalsKeepLease(timing: Timing, acquiredAt: real, now: real, renewals: seq<Renewal>)
    requires now < acquiredAt + timing.ttl - timing.Margin() && Timely(timing, acquiredAt, renewals)
    ensures Renewing(timing, Start(timing, acquiredAt, now), renewals) ==
      Running(DeadlineAfter(timing, acquiredAt, renewals))
  {
    if renewals != [] {
      var front := renewals[..|renewals| - 1];
      forall k | 0 <= k < |front|
        ensures front[k] == renewals[k] && front[..k] == renewals[..k]
      {
      }
      TimelyRenewalsKeepLease(timing, acquiredAt, now, front);
    }
  }

  class LeaseMonitor {
    const timing: Timing
    var deadline: real
    var closed: bool
    var aborted: bool
    var inFlight: bool
    var expiry: Option<real>

    function State(): Lease
      reads this
    {
      Lease(deadline, closed, aborted, inFlight, expiry)
    }

    constructor (timing: Timing, acquiredAt: real, now: real)
      ensures this.timing == timing && State() == Start(timing, acquiredAt, now)
    {
      this.timing := timing;
      deadline := acquiredAt + timing.ttl - timing.Margin();
      closed, aborted, inFlight, expiry := false, false, false, None;
      new;
      ArmExpiry(now);
    }

    method Lose()
      modifies this`aborted
      ensures aborted
    {
      aborted := true;
    }

    method ArmExpiry(now: real)
      modifies this`expiry, this`aborted
      ensures State() == Arm(old(State()), now)
    {
      expiry := None;
      var remaining := deadline - now;
      if remaining <= 0.0 {
        Lose();
      } else {
        expiry := Some(now + remaining);
      }
    }

    method FireExpiry()
      modifies this`expiry, this`aborted
      ensures State() == Expire(old(State()))
    {
      expiry := None;
      Lose();
    }

    /** The first half of `tick`: whether a renewal goes out now. */
    method BeginTick(now: real) returns (dispatched: bool)
      modifies this`inFlight, this`aborted
      ensures dispatched == Dispatches(old(State()), now)
      ensures State() == Tick(old(State()), now)
    {
      if closed || aborted || inFlight {
        return false;
      }
      if now >= deadline {
        Lose();
        return false;
      }
      inFlight := true;
      return true;
    }

    /** The second half of `tick`, after the awaited renewal. */
    method EndTick(startedAt: real, settled: Settled, now: real)
      modifies this
      ensures State() == Settle(timing, old(State()), startedAt, settled, now)
    {
      if settled.Renewed? && !(closed || aborted) {
        if settled.value != 1 || now >= deadline {
          Lose();
        } else {
          deadline := startedAt + timing.ttl - timing.Margin();
          ArmExpiry(now);
        }
      }
      inFlight := false;
    }

    method Close()
      modifies this`closed, this`expiry
      ensures State() == Stop(old(State()))
    {
      closed := true;
      expiry := None;
    }
  }
}
