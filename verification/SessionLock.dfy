/**
 The session lock as a protocol (apps/agent/src/session-lock.ts): lock holders with local
 watchdogs, one Redis key, and a network that may delay, lose, repeat and reorder commands.
 A holder is named by its token, which is fresh for every acquisition.
 */
module SessionLock {
  import opened Common
  import opened SessionLease

  type Token = nat

  datatype Entry = Entry(token: Token, expiresAt: real)

  /** Commands on their way to Redis. */
  datatype Command = SetNx(token: Token) | Renew(token: Token, startedAt: real) | Release(token: Token)

  /** Replies on their way back. */
  datatype Reply = Acquired(token: Token) | Refused(token: Token) | RenewReply(token: Token, startedAt: real,
      value: int)

  datatype Holder =
    | Asking(acquiredAt: real)
    | Denied
    | Active(lease: Lease, renewing: Option<real>)

  datatype World = World(
    now: real,
    key: Option<Entry>,
    holders: map<Token, Holder>,
    commands: set<Command>,
    replies: set<Reply>)

  /** Everything that can happen, in any order; an event that is not enabled does nothing. */
  datatype Event =
    | Advance(ms: real)
    | Ask(token: Token)
    | Apply(command: Command)
    | HearAcquired(token: Token)
    | HearRefused(token: Token)
    | Interval(token: Token)
    | HearRenewed(token: Token, value: int)
    | RenewFails(token: Token)
    | TimerFires(token: Token)
    | StopAndRelease(token: Token)

  const EMPTY := World(0.0, None, map[], {}, {})

  /** GET: an expired key reads as missing. */
  predicate Holds(key: Option<Entry>, token: Token, now: real) {
    key.Some? && now < key.value.expiresAt && key.value.token == token
  }

  predicate Vacant(key: Option<Entry>, now: real) {
    key.None? || key.value.expiresAt <= now
  }

  /** The key after SET key token PX ttl NX, RENEW_SCRIPT or RELEASE_SCRIPT, and whether it took effect. */
  function RunCommand(timing: Timing, key: Option<Entry>, now: real, c: Command): (Option<Entry>, bool) {
    match c
    case SetNx(token) => if Vacant(key, now) then (Some(Entry(token, now + timing.ttl)), true) else (key, false)
    case Renew(token, _) => if Holds(key, token, now) then (Some(Entry(token, now + timing.ttl)), true)
      else (key, false)
    case Release(token) => if Holds(key, token, now) then (None, true) else (key, false)
  }

  class RedisLock {
    var key: Option<Entry>

    constructor ()
      ensures key == None
    {
      key := None;
    }

    /** GET, which drops a key whose time has come. */
    method Get(now: real) returns (token: Option<Token>)
      modifies this
      ensures key == if Vacant(old(key), now) then None else old(key)
      ensures token == if Vacant(old(key), now) then None else Some(old(key).value.token)
    {
      if key.Some? && key.value.expiresAt <= now {
        key := None;
      }
      token := if key.Some? then Some(key.value.token) else None;
    }

    method Execute(timing: Timing, now: real, c: Command) returns (ok: bool)
      modifies this
      ensures ok == RunCommand(timing, old(key), now, c).1
      ensures forall t :: Holds(key, t, now) <==> Holds(RunCommand(timing, old(key), now, c).0, t, now)
      ensures ok ==> key == RunCommand(timing, old(key), now, c).0
    {
      var held := Get(now);
      match c
      case SetNx(token) =>
        ok := held.None?;
        if ok {
          key := Some(Entry(token, now + timing.ttl));
        }
      case Renew(token, _) =>
        ok := held == Some(token);
        if ok {
          key := Some(key.value.(expiresAt := now + timing.ttl));
        }
      case Release(token) =>
        ok := held == Some(token);
        if ok {
          key := None;
        }
    }
  }

  function ApplyCommand(timing: Timing, w: World, c: Command): World {
    var (key, ok) := RunCommand(timing, w.key, w.now, c);
    var reply := match c
      case SetNx(token) => {if ok then Acquired(token) else Refused(token)}
      case Renew(token, startedAt) => {RenewReply(token, startedAt, if ok then 1 else 0)}
      case Release(_) => {};
    w.(key := key, replies := w.replies + reply)
  }

  function SetHolder(w: World, token: Token, h: Holder): World {
    w.(holders := w.holders[token := h])
  }

  predicate IsActive(w: World, token: Token) {
    token in w.holders && w.holders[token].Active?
  }

  function Next(timing: Timing, w: World, e: Event): World {
    match e
    case Advance(ms) => if ms > 0.0 then w.(now := w.now + ms) else w
    case Ask(token) =>
      if token in w.holders then w
      else SetHolder(w, token, Asking(w.now)).(commands := w.commands + {SetNx(token)})
    case Apply(command) => if command in w.commands then ApplyCommand(timing, w, command) else w
    case HearAcquired(token) =>
      if Acquired(token) in w.replies && token in w.holders && w.holders[token].Asking?
      then SetHolder(w, token, Active(Start(timing, w.holders[token].acquiredAt, w.now), None))
      else w
    case HearRefused(token) =>
      if Refused(token) in w.replies && token in w.holders && w.holders[token].Asking?
      then SetHolder(w, token, Denied)
      else w
    case Interval(token) =>
      if !IsActive(w, token) then w
      else
        var h := w.holders[token];
        var ticked := Tick(h.lease, w.now);
        if Dispatches(h.lease, w.now)
        then SetHolder(w, token, Active(ticked, Some(w.now))).(commands := w.commands + {Renew(token, w.now)})
        else SetHolder(w, token, h.(lease := ticked))
    case HearRenewed(token, value) =>
      if !IsActive(w, token) || w.holders[token].renewing.None? then w
      else
        var h := w.holders[token];
        var startedAt := h.renewing.value;
        if RenewReply(token, startedAt, value) !in w.replies then w
        else SetHolder(w, token, Active(Settle(timing, h.lease, startedAt, Renewed(value), w.now), None))
    case RenewFails(token) =>
      if !IsActive(w, token) || w.holders[token].renewing.None? then w
      else
        var h := w.holders[token];
        SetHolder(w, token, Active(Settle(timing, h.lease, h.renewing.value, Rejected, w.now), None))
    case TimerFires(token) =>
      if !IsActive(w, token) then w
      else
        var h := w.holders[token];
        if h.lease.timer.Some? && h.lease.timer.value <= w.now
          then SetHolder(w, token, h.(lease := Expire(h.lease))) else w
    case StopAndRelease(token) =>
      if !IsActive(w, token) then w
      else
        var h := w.holders[token];
        SetHolder(w, token, h.(lease := Stop(h.lease))).(commands := w.commands + {Release(token)})
  }

  function Run(timing: Timing, w: World, events: seq<Event>): World {
    if events == [] then w else Next(timing, Run(timing, w, events[..|events| - 1]), events[|events| - 1])
  }

  // ---------------------------------------------------------------- the inductive invariant

  /** Redis promised `token` the key until `until`: that moment is past, or the key keeps the promise. */
  ghost predicate Promised(w: World, token: Token, until: real) {
    w.now >= until || (w.key.Some? && w.key.value.token == token && w.key.value.expiresAt >= until)
  }

  ghost predicate Open(h: Holder) {
    h.Asking? || (h.Active? && !h.lease.closed)
  }

  /** What an unreleased holder may rely on, whatever is still in flight. */
  ghost predicate Backed(timing: Timing, w: World, token: Token, h: Holder) {
    && Release(token) !in w.commands
    && (h.Asking? ==> Acquired(token) in w.replies ==> Promised(w, token, h.acquiredAt + timing.ttl))
    && (h.Active? ==> Promised(w, token, h.lease.deadline + timing.Margin()))
    && (forall t :: RenewReply(token, t, 1) in w.replies ==> Promised(w, token, t + timing.ttl))
  }

  /** Nothing in flight comes from the future, and no token is used before it was asked for. */
  ghost predicate Causal(timing: Timing, w: World) {
    && (w.key.Some? ==> w.key.value.expiresAt <= w.now + timing.ttl)
    && (forall token, t :: Renew(token, t) in w.commands ==> t <= w.now)
    && (forall token :: token in w.holders && w.holders[token].Asking? ==> w.holders[token].acquiredAt <= w.now)
    && (forall token, t, v :: RenewReply(token, t, v) in w.replies ==> t <= w.now)
    && (forall r :: r in w.replies ==> r.token in w.holders)
    && (forall c :: c in w.commands ==> c.token in w.holders)
  }

  ghost predicate Inv(timing: Timing, w: World) {
    && Causal(timing, w)
    && (forall token :: token in w.holders && Open(w.holders[token]) ==> Backed(timing, w, token, w.holders[token]))
    && (forall token :: IsActive(w, token) ==> Armed(w.holders[token].lease))
  }

  lemma PromiseKept(timing: Timing, w: World, e: Event, token: Token, until: real)
    requires timing.Valid() && Inv(timing, w) && Promised(w, token, until) && Release(token) !in w.commands
    ensures Promised(Next(timing, w, e), token, until)
  {
  }

  lemma NextKeepsBacked(timing: Timing, w: World, e: Event, token: Token)
    requires timing.Valid() && Inv(timing, w)
    requires var next := Next(timing, w, e); token in next.holders && Open(next.holders[token])
    ensures var next := Next(timing, w, e); Backed(timing, next, token, next.holders[token])
  {
    var next := Next(timing, w, e);
    if token in w.holders {
      var h := w.holders[token];
      assert Open(h);
      forall t | RenewReply(token, t, 1) in next.replies
        ensures Promised(next, token, t + timing.ttl)
      {
        if RenewReply(token, t, 1) in w.replies {
          PromiseKept(timing, w, e, token, t + timing.ttl);
        }
      }
      if h.Asking? && Acquired(token) in w.replies {
        PromiseKept(timing, w, e, token, h.acquiredAt + timing.ttl);
      }
      if h.Active? {
        PromiseKept(timing, w, e, token, h.lease.deadline + timing.Margin());
      }
    }
  }

  lemma NextKeepsCausal(timing: Timing, w: World, e: Event)
    requires timing.Valid() && Inv(timing, w)
    ensures Causal(timing, Next(timing, w, e))
  {
  }

  lemma NextKeepsInv(timing: Timing, w: World, e: Event)
    requires timing.Valid() && Inv(timing, w)
    ensures Inv(timing, Next(timing, w, e))
  {
    NextKeepsCausal(timing, w, e);
    var next := Next(timing, w, e);
    forall token | token in next.holders && Open(next.holders[token])
      ensures Backed(timing, next, token, next.holders[token])
    {
      NextKeepsBacked(timing, w, e, token);
    }
  }

  lemma {:induction false} RunKeepsInv(timing: Timing, events: seq<Event>)
    requires timing.Valid()
    ensures Inv(timing, Run(timing, EMPTY, events))
  {
    if events != [] {
      RunKeepsInv(timing, events[..|events| - 1]);
      NextKeepsInv(timing, Run(timing, EMPTY, events[..|events| - 1]), events[|events| - 1]);
    }
  }

  // ---------------------------------------------------------------- safety over every run

  ghost predicate HoldsSession(timing: Timing, w: World, token: Token) {
    IsActive(w, token) && Holding(timing, w.holders[token].lease, w.now)
  }

  /** Whoever still acts under the lock owns an unexpired Redis key. */
  lemma HolderOwnsKey(timing: Timing, events: seq<Event>, token: Token)
    requires timing.Valid()
    requires HoldsSession(timing, Run(timing, EMPTY, events), token)
    ensures var w := Run(timing, EMPTY, events); Holds(w.key, token, w.now)
  {
    RunKeepsInv(timing, events);
  }

  /** No run, however renewals hang, fail, get lost or arrive late, gives one session two holders. */
  lemma MutualExclusion(timing: Timing, events: seq<Event>, a: Token, b: Token)
    requires timing.Valid()
    requires HoldsSession(timing, Run(timing, EMPTY, events), a) && HoldsSession(timing, Run(timing, EMPTY, events), b)
    ensures a == b
  {
    HolderOwnsKey(timing, events, a);
    HolderOwnsKey(timing, events, b);
  }

  lemma RunAppend(timing: Timing, events: seq<Event>, e: Event)
    ensures Run(timing, EMPTY, events + [e]) == Next(timing, Run(timing, EMPTY, events), e)
  {
    assert (events + [e])[..|events|] == events;
  }

  /** A timer exactly `margin` late is already too late: two holders may then both carry on. */
  lemma MarginIsTight(timing: Timing) returns (events: seq<Event>)
    requires timing.Valid()
    ensures var w := Run(timing, EMPTY, events);
      && IsActive(w, 0) && IsActive(w, 1)
      && (forall t :: 0 <= t <= 1 ==>
            var lease := w.holders[t].lease; !lease.closed && !lease.aborted && lease.timer.Some?)
      && w.now == w.holders[0].lease.timer.value + timing.Margin()
      && HoldsSession(timing, w, 1)
  {
    events := [];
    var w := EMPTY;
    var script := [Ask(0), Apply(SetNx(0)), HearAcquired(0), Advance(timing.ttl),
                   Ask(1), Apply(SetNx(1)), HearAcquired(1)];
    for k := 0 to |script|
      invariant w == Run(timing, EMPTY, events)
      invariant k == 1 ==> w == World(0.0, None, map[0 := Asking(0.0)], {SetNx(0)}, {})
      invariant k == 2 ==> w == World(0.0, Some(Entry(0, timing.ttl)), map[0 := Asking(0.0)], {SetNx(0)}, {Acquired(0)})
      invariant k >= 3 ==> FirstHolds(timing, w)
      invariant k == 3 ==> w.now == 0.0 && w.key == Some(Entry(0, timing.ttl)) && 1 !in w.holders
      invariant k >= 4 ==> w.now == timing.ttl
      invariant k == 4 ==> Vacant(w.key, w.now) && 1 !in w.holders
      invariant 5 <= k <= 6 ==> 1 in w.holders && w.holders[1] == Asking(w.now) && SetNx(1) in w.commands
      invariant k == 5 ==> Vacant(w.key, w.now)
      invariant k == 6 ==> Acquired(1) in w.replies
      invariant k == 7 ==> 1 in w.holders && w.holders[1] == Active(Start(timing, w.now, w.now), None)
      invariant k == 0 ==> w == EMPTY
    {
      RunAppend(timing, events, script[k]);
      w := Next(timing, w, script[k]);
      events := events + [script[k]];
    }
  }

  ghost predicate FirstHolds(timing: Timing, w: World) {
    && 0 in w.holders && w.holders[0] == Active(Start(timing, 0.0, 0.0), None)
    && w.key.Some? && (w.key.value.token == 0 ==> w.key.value.expiresAt == timing.ttl)
  }
}
