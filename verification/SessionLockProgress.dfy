/**
 The session lock does its work when the network does: a vacant lock is acquired, a lease that is
 renewed in time is held without end, and a released lock is free again.
 */
module SessionLockProgress {
  import opened Common
  import opened SessionLease
  import opened SessionLock

  // ---------------------------------------------------------------- acquiring and releasing

  lemma RunPush(timing: Timing, w: World, events: seq<Event>, e: Event)
    ensures Run(timing, w, events + [e]) == Next(timing, Run(timing, w, events), e)
  {
    assert (events + [e])[..|events|] == events;
  }

  lemma RunTwo(timing: Timing, w: World, a: Event, b: Event)
    ensures Run(timing, w, [a, b]) == Next(timing, Next(timing, w, a), b)
  {
    assert [a, b] == [] + [a] + [b];
    RunPush(timing, w, [] + [a], b);
    RunPush(timing, w, [], a);
  }

  /** The lock is vacant exactly when no token holds it, and one token holds it for ttl from when Redis set it. */
  lemma VacantIffNoneHolds(key: Option<Entry>, token: Token, other: Token, setAt: real, ttl: real, now: real)
    ensures Vacant(key, now) <==> forall t :: !Holds(key, t, now)
    ensures Holds(Some(Entry(token, setAt + ttl)), other, now) <==> other == token && now < setAt + ttl
  {
    if !Vacant(key, now) {
      assert Holds(key, key.value.token, now);
    }
  }

  /** Asking for the lock; Redis hears of it `out` later. */
  function Request(token: Token, out: real): seq<Event> {
    [Ask(token), Advance(out)]
  }

  /** The answer to a request, `back` after Redis acted. */
  function Answer(token: Token, back: real): seq<Event> {
    [Advance(back), HearAcquired(token)]
  }

  lemma RequestIsSent(timing: Timing, w: World, token: Token, out: real)
    requires token !in w.holders && out >= 0.0
    ensures Run(timing, w, Request(token, out)) ==
      w.(now := w.now + out, holders := w.holders[token := Asking(w.now)], commands := w.commands + {SetNx(token)})
  {
    RunTwo(timing, w, Ask(token), Advance(out));
  }

  lemma AnswerIsHeard(timing: Timing, w: World, token: Token, acquiredAt: real, back: real)
    requires token in w.holders && w.holders[token] == Asking(acquiredAt) && Acquired(token) in w.replies
    requires back >= 0.0 && w.now + back < acquiredAt + timing.ttl - timing.Margin()
    ensures Run(timing, w, Answer(token, back)) ==
      w.(now := w.now + back,
         holders := w.holders[token := Active(Running(acquiredAt + timing.ttl - timing.Margin()), None)])
  {
    RunTwo(timing, w, Advance(back), HearAcquired(token));
    TimelyStart(timing, acquiredAt, w.now + back);
  }

  /** A vacant lock is acquired by whoever asks and hears back in time, until `ttl` after Redis set the key. */
  lemma VacantLockIsAcquired(timing: Timing, w: World, token: Token, out: real, back: real)
    requires timing.Valid() && Vacant(w.key, w.now) && token !in w.holders
    requires out >= 0.0 && back >= 0.0 && out + back < timing.ttl - timing.Margin()
    ensures var asked := Run(timing, w, Request(token, out));
      var after := Run(timing, Next(timing, asked, Apply(SetNx(token))), Answer(token, back));
      && after.now == w.now + out + back && HoldsSession(timing, after, token)
      && after.holders[token] == Active(Running(w.now + timing.ttl - timing.Margin()), None)
      && after.key == Some(Entry(token, w.now + out + timing.ttl))
  {
    RequestIsSent(timing, w, token, out);
    var asked := Run(timing, w, Request(token, out));
    AnswerIsHeard(timing, Next(timing, asked, Apply(SetNx(token))), token, w.now, back);
  }

  /** An occupied lock refuses whoever asks. */
  lemma OccupiedLockRefuses(timing: Timing, w: World, token: Token)
    requires !Vacant(w.key, w.now) && token !in w.holders
    ensures var asked := Next(timing, w, Ask(token));
      var after := Run(timing, asked, [Apply(SetNx(token)), HearRefused(token)]);
      token in after.holders && after.holders[token] == Denied && after.key == w.key
  {
    RunTwo(timing, Next(timing, w, Ask(token)), Apply(SetNx(token)), HearRefused(token));
  }

  /** A released lock is vacant as soon as Redis hears of it. */
  lemma ReleaseFreesLock(timing: Timing, w: World, token: Token)
    requires IsActive(w, token) && Holds(w.key, token, w.now)
    ensures var after := Run(timing, w, [StopAndRelease(token), Apply(Release(token))]);
      Vacant(after.key, after.now) && !HoldsSession(timing, after, token)
  {
    RunTwo(timing, w, StopAndRelease(token), Apply(Release(token)));
  }

  // ---------------------------------------------------------------- losing the lock

  /** How the lease of an active holder reads after one event. */
  function LeaseAfter(timing: Timing, w: World, token: Token, e: Event): Lease
    requires IsActive(w, token)
  {
    var after := Next(timing, w, e);
    if IsActive(after, token) then after.holders[token].lease else w.holders[token].lease
  }

  /** An open lease is lost by the timer or by a tick exactly from its deadline on, and its timer is gone with it. */
  lemma DeadlineLosesLease(timing: Timing, w: World, token: Token, deadline: real)
    requires IsActive(w, token) && w.holders[token].lease == Running(deadline)
    ensures LeaseAfter(timing, w, token, TimerFires(token)) ==
      if w.now >= deadline then Running(deadline).(aborted := true, timer := None) else Running(deadline)
    ensures LeaseAfter(timing, w, token, Interval(token)) ==
      if w.now >= deadline then Running(deadline).(aborted := true) else Running(deadline).(inFlight := true)
    ensures Next(timing, w, Interval(token)).commands ==
      w.commands + if w.now >= deadline then {} else {Renew(token, w.now)}
  {
  }

  /** A second renewal never goes out beside one in flight. */
  lemma RenewalIsAwaited(timing: Timing, w: World, token: Token)
    requires IsActive(w, token) && w.holders[token].lease.inFlight
    ensures Next(timing, w, Interval(token)) == w
  {
    assert w.holders == w.holders[token := w.holders[token]];
  }

  /** A refused renewal loses the lease; a failed one leaves it running, and the next tick may try again. */
  lemma RefusalLosesLease(timing: Timing, w: World, token: Token, deadline: real, startedAt: real, value: int)
    requires token in w.holders && w.holders[token] == Active(Running(deadline).(inFlight := true), Some(startedAt))
    ensures value != 1 && RenewReply(token, startedAt, value) in w.replies ==>
      LeaseAfter(timing, w, token, HearRenewed(token, value)) == Running(deadline).(aborted := true)
    ensures RenewReply(token, startedAt, value) !in w.replies ==> Next(timing, w, HearRenewed(token, value)) == w
    ensures Next(timing, w, RenewFails(token)) == w.(holders := w.holders[token := Active(Running(deadline), None)])
  {
  }

  /** Releasing stops the timer and sends the release; the process holds the session no longer. */
  lemma ReleaseIsSent(timing: Timing, w: World, token: Token)
    requires IsActive(w, token)
    ensures var after := Next(timing, w, StopAndRelease(token));
      && LeaseAfter(timing, w, token, StopAndRelease(token)) == w.holders[token].lease.(closed := true, timer := None)
      && after.commands == w.commands + {Release(token)} && !HoldsSession(timing, after, token)
  {
  }

  /** Redis renews and releases only for the token that holds the key. */
  lemma OnlyOwnerRenews(timing: Timing, w: World, token: Token, startedAt: real)
    requires Renew(token, startedAt) in w.commands
    ensures Next(timing, w, Apply(Renew(token, startedAt))) ==
      if Holds(w.key, token, w.now)
      then w.(key := Some(Entry(token, w.now + timing.ttl)), replies := w.replies + {RenewReply(token, startedAt, 1)})
      else w.(replies := w.replies + {RenewReply(token, startedAt, 0)})
  {
  }

  // ---------------------------------------------------------------- renewing

  /** One renewal: the wait until its tick, and its way to Redis and back. */
  datatype Round = Round(wait: real, out: real, back: real)

  /** The tick of a round, on its way to Redis. */
  function Outward(token: Token, r: Round): seq<Event> {
    [Advance(r.wait), Interval(token)]
  }

  function AtRedis(token: Token, startedAt: real, r: Round): seq<Event> {
    [Advance(r.out), Apply(Renew(token, startedAt))]
  }

  function Homeward(token: Token, r: Round): seq<Event> {
    [Advance(r.back), HearRenewed(token, 1)]
  }

  function AfterRound(timing: Timing, w: World, token: Token, r: Round): World {
    var sent := Run(timing, w, Outward(token, r));
    Run(timing, Run(timing, sent, AtRedis(token, w.now + r.wait, r)), Homeward(token, r))
  }

  /** The renewal goes out and its answer comes before the deadline in force, and before its own new one. */
  predicate OnTime(timing: Timing, deadline: real, now: real, r: Round) {
    && r.wait >= 0.0 && r.out >= 0.0 && r.back >= 0.0
    && now + r.wait + r.out + r.back < deadline
    && r.out + r.back < timing.ttl - timing.Margin()
  }

  /** The holder's lease runs until `deadline`, with no renewal in flight. */
  ghost predicate RunsUntil(timing: Timing, w: World, token: Token, deadline: real) {
    Inv(timing, w) && token in w.holders && w.holders[token] == Active(Running(deadline), None)
  }

  /** Before its deadline a running lease owns the key. */
  lemma RunningOwnsKey(timing: Timing, w: World, token: Token, deadline: real)
    requires timing.Valid() && RunsUntil(timing, w, token, deadline) && w.now < deadline
    ensures Holds(w.key, token, w.now) && w.key.value.expiresAt >= deadline + timing.Margin()
  {
    assert Open(w.holders[token]);
  }

  lemma TickGoesOut(timing: Timing, w: World, token: Token, deadline: real, r: Round)
    requires token in w.holders && w.holders[token] == Active(Running(deadline), None)
    requires r.wait >= 0.0 && w.now + r.wait < deadline
    ensures Run(timing, w, Outward(token, r)) ==
      w.(now := w.now + r.wait,
         holders := w.holders[token := Active(Running(deadline).(inFlight := true), Some(w.now + r.wait))],
         commands := w.commands + {Renew(token, w.now + r.wait)})
  {
    RunTwo(timing, w, Advance(r.wait), Interval(token));
  }

  lemma RedisRenews(timing: Timing, w: World, token: Token, startedAt: real, r: Round)
    requires Renew(token, startedAt) in w.commands && r.out >= 0.0 && Holds(w.key, token, w.now + r.out)
    ensures Run(timing, w, AtRedis(token, startedAt, r)) ==
      w.(now := w.now + r.out, key := Some(Entry(token, w.now + r.out + timing.ttl)),
         replies := w.replies + {RenewReply(token, startedAt, 1)})
  {
    RunTwo(timing, w, Advance(r.out), Apply(Renew(token, startedAt)));
    OnlyOwnerRenews(timing, Next(timing, w, Advance(r.out)), token, startedAt);
  }

  lemma AnswerExtends(timing: Timing, w: World, token: Token, deadline: real, startedAt: real, r: Round)
    requires token in w.holders && w.holders[token] == Active(Running(deadline).(inFlight := true), Some(startedAt))
    requires RenewReply(token, startedAt, 1) in w.replies
    requires r.back >= 0.0 && w.now + r.back < deadline && w.now + r.back < startedAt + timing.ttl - timing.Margin()
    ensures Run(timing, w, Homeward(token, r)) ==
      w.(now := w.now + r.back,
         holders := w.holders[token := Active(Running(startedAt + timing.ttl - timing.Margin()), None)])
  {
    RunTwo(timing, w, Advance(r.back), HearRenewed(token, 1));
    RenewalOutcome(timing, Running(deadline).(inFlight := true), startedAt, Renewed(1), w.now + r.back);
  }

  lemma RoundExtends(timing: Timing, w: World, token: Token, deadline: real, r: Round)
    requires token in w.holders && w.holders[token] == Active(Running(deadline), None)
    requires w.key.Some? && w.key.value.token == token && w.key.value.expiresAt >= deadline
    requires OnTime(timing, deadline, w.now, r)
    ensures var after := AfterRound(timing, w, token, r);
      && after.now == w.now + r.wait + r.out + r.back
      && token in after.holders
      && after.holders[token] == Active(Running(w.now + r.wait + timing.ttl - timing.Margin()), None)
      && after.key == Some(Entry(token, w.now + r.wait + r.out + timing.ttl))
  {
    var startedAt := w.now + r.wait;
    TickGoesOut(timing, w, token, deadline, r);
    var sent := Run(timing, w, Outward(token, r));
    RedisRenews(timing, sent, token, startedAt, r);
    AnswerExtends(timing, Run(timing, sent, AtRedis(token, startedAt, r)), token, deadline, startedAt, r);
  }

  lemma RoundKeepsInv(timing: Timing, w: World, token: Token, r: Round)
    requires timing.Valid() && Inv(timing, w)
    ensures Inv(timing, AfterRound(timing, w, token, r))
  {
    var sent := Run(timing, w, Outward(token, r));
    RunFromKeepsInv(timing, w, Outward(token, r));
    RunFromKeepsInv(timing, sent, AtRedis(token, w.now + r.wait, r));
    RunFromKeepsInv(timing, Run(timing, sent, AtRedis(token, w.now + r.wait, r)), Homeward(token, r));
  }

  /** A round that is on time keeps the lease running, and Redis keeps the key `ttl` longer. */
  lemma RoundRenews(timing: Timing, w: World, token: Token, deadline: real, r: Round)
    requires timing.Valid() && RunsUntil(timing, w, token, deadline) && OnTime(timing, deadline, w.now, r)
    ensures var after := AfterRound(timing, w, token, r);
      && after.now == w.now + r.wait + r.out + r.back
      && RunsUntil(timing, after, token, w.now + r.wait + timing.ttl - timing.Margin())
      && after.key == Some(Entry(token, w.now + r.wait + r.out + timing.ttl))
  {
    RunningOwnsKey(timing, w, token, deadline);
    RoundExtends(timing, w, token, deadline, r);
    RoundKeepsInv(timing, w, token, r);
  }

  lemma {:induction false} RunFromKeepsInv(timing: Timing, w: World, events: seq<Event>)
    requires timing.Valid() && Inv(timing, w)
    ensures Inv(timing, Run(timing, w, events))
  {
    if events != [] {
      RunFromKeepsInv(timing, w, events[..|events| - 1]);
      NextKeepsInv(timing, Run(timing, w, events[..|events| - 1]), events[|events| - 1]);
    }
  }

  function AfterRounds(timing: Timing, w: World, token: Token, rounds: seq<Round>): World {
    if rounds == [] then w
    else AfterRound(timing, AfterRounds(timing, w, token, rounds[..|rounds| - 1]), token, rounds[|rounds| - 1])
  }

  /** The time after these rounds. */
  function Clock(now: real, rounds: seq<Round>): real {
    if rounds == [] then now
    else
      var last := rounds[|rounds| - 1];
      Clock(now, rounds[..|rounds| - 1]) + last.wait + last.out + last.back
  }

  /** The deadline after these rounds: the dispatch of the last one plus `ttl` less the margin. */
  function DeadlineThen(timing: Timing, deadline: real, now: real, rounds: seq<Round>): real {
    if rounds == [] then deadline
    else Clock(now, rounds[..|rounds| - 1]) + rounds[|rounds| - 1].wait + timing.ttl - timing.Margin()
  }

  predicate AllOnTime(timing: Timing, deadline: real, now: real, rounds: seq<Round>) {
    rounds == [] ||
    (var front := rounds[..|rounds| - 1];
     && AllOnTime(timing, deadline, now, front)
     && OnTime(timing, DeadlineThen(timing, deadline, now, front), Clock(now, front), rounds[|rounds| - 1]))
  }

  /**
   A lease whose renewals all go out and come back in time is never lost, however many there are:
   it keeps running, and owns the key, which Redis keeps until `ttl` after the last renewal.
   */
  lemma {:induction false} TimelyRoundsHoldSession(timing: Timing, w: World, token: Token, deadline: real,
      rounds: seq<Round>)
    requires timing.Valid() && RunsUntil(timing, w, token, deadline) && AllOnTime(timing, deadline, w.now, rounds)
    ensures var after := AfterRounds(timing, w, token, rounds);
      && after.now == Clock(w.now, rounds)
      && RunsUntil(timing, after, token, DeadlineThen(timing, deadline, w.now, rounds))
      && (rounds != [] ==> after.key == Some(Entry(token, after.now - rounds[|rounds| - 1].back + timing.ttl)))
  {
    if rounds != [] {
      var front := rounds[..|rounds| - 1];
      TimelyRoundsHoldSession(timing, w, token, deadline, front);
      RoundRenews(timing, AfterRounds(timing, w, token, front), token, DeadlineThen(timing, deadline, w.now, front),
        rounds[|rounds| - 1]);
    }
  }
}
