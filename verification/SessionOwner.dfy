/**
 Epoch leases on a session (apps/agent/src/ownership.ts, apps/api/src/agent-ownership.ts):
 agent instances and the API write one Redis record, each Lua script being one atomic step.
 A script carries the time `at` read by its caller, which may be older than the moment it runs.
 */
module SessionOwner {
  import opened Common

  type InstanceId = string

  datatype Record = Record(ownerId: InstanceId, epoch: nat, leaseUntil: nat)

  // ---------------------------------------------------------------- the scripts

  /** claimSessionOwner: a new record at epoch 1, a takeover of a lapsed one, or a refresh of one's own. */
  function Claim(key: Option<Record>, owner: InstanceId, at: nat, leaseUntil: nat): Record {
    match key
    case None => Record(owner, 1, leaseUntil)
    case Some(r) =>
      if r.leaseUntil <= at || r.ownerId == owner
      then Record(owner, if r.ownerId != owner then r.epoch + 1 else r.epoch, leaseUntil)
      else r
  }

  predicate Renewable(key: Option<Record>, owner: InstanceId, epoch: nat) {
    key.Some? && key.value.ownerId == owner && key.value.epoch == epoch
  }

  function Renew(key: Option<Record>, owner: InstanceId, epoch: nat, leaseUntil: nat): Option<Record> {
    if Renewable(key, owner, epoch) then Some(key.value.(leaseUntil := leaseUntil)) else key
  }

  /** Without an epoch the owner alone decides. */
  function Release(key: Option<Record>, owner: InstanceId, epoch: Option<nat>): Option<Record> {
    if key.Some? && key.value.ownerId == owner && (epoch.Some? ==> key.value.epoch == epoch.value) then None else key
  }

  class OwnerKey {
    var key: Option<Record>

    constructor ()
      ensures key == None
    {
      key := None;
    }

    method ClaimScript(owner: InstanceId, at: nat, leaseUntil: nat) returns (record: Record)
      modifies this
      ensures record == Claim(old(key), owner, at, leaseUntil)
      ensures key == Some(record)
    {
      if key.None? {
        record := Record(owner, 1, leaseUntil);
        key := Some(record);
        return;
      }
      record := key.value;
      if record.leaseUntil <= at || record.ownerId == owner {
        var nextEpoch := record.epoch;
        if record.ownerId != owner {
          nextEpoch := nextEpoch + 1;
        }
        record := record.(ownerId := owner, leaseUntil := leaseUntil, epoch := nextEpoch);
        key := Some(record);
      }
    }

    method RenewScript(owner: InstanceId, epoch: nat, leaseUntil: nat) returns (renewed: bool)
      modifies this
      ensures key == Renew(old(key), owner, epoch, leaseUntil)
      ensures renewed <==> Renewable(old(key), owner, epoch)
    {
      if key.None? || key.value.ownerId != owner || key.value.epoch != epoch {
        return false;
      }
      key := Some(key.value.(leaseUntil := leaseUntil));
      return true;
    }

    method ReleaseScript(owner: InstanceId, epoch: Option<nat>) returns (released: bool)
      modifies this
      ensures key == Release(old(key), owner, epoch)
      ensures released <==> key == None
    {
      if key.None? {
        return true;
      }
      if key.value.ownerId != owner || (epoch.Some? && key.value.epoch != epoch.value) {
        return false;
      }
      key := None;
      return true;
    }
  }

  // ---------------------------------------------------------------- runs

  /**
   `owners` maps each epoch of the key's present lifetime to the instance it was given to;
   `promises` maps an instance to the latest lease end any writer got for it and it has not
   given back.
   */
  datatype World = World(now: nat, key: Option<Record>, owners: map<nat, InstanceId>, promises: map<InstanceId, nat>)

  datatype Event =
    | Advance(ms: nat)
    | ClaimFor(owner: InstanceId, at: nat, lease: nat)
    | RenewFor(owner: InstanceId, epoch: nat, at: nat, lease: nat)
    | ReleaseBy(owner: InstanceId, ifEpoch: Option<nat>)

  const EMPTY := World(0, None, map[], map[])

  function Promise(promises: map<InstanceId, nat>, owner: InstanceId, until: nat): map<InstanceId, nat> {
    promises[owner := if owner in promises && promises[owner] > until then promises[owner] else until]
  }

  function Next(w: World, e: Event): World {
    match e
    case Advance(ms) => w.(now := w.now + ms)
    case ClaimFor(owner, at, lease) =>
      if at > w.now then w
      else
        var r := Claim(w.key, owner, at, at + lease);
        w.(key := Some(r),
           owners := if w.key.None? then map[1 := owner] else w.owners[r.epoch := r.ownerId],
           promises := if r.ownerId == owner then Promise(w.promises, owner, r.leaseUntil) else w.promises)
    case RenewFor(owner, epoch, at, lease) =>
      if at > w.now then w
      else
        w.(key := Renew(w.key, owner, epoch, at + lease),
           promises := if Renewable(w.key, owner, epoch) then Promise(w.promises, owner, at + lease) else w.promises)
    case ReleaseBy(owner, epoch) =>
      w.(key := Release(w.key, owner, epoch), promises := w.promises - {owner})
  }

  function Run(w: World, events: seq<Event>): World
    decreases |events|
  {
    if events == [] then w else Run(Next(w, events[0]), events[1..])
  }

  // ---------------------------------------------------------------- fencing within one lifetime of the key

  ghost predicate Fenced(w: World) {
    w.key.Some? ==>
      && w.key.value.epoch in w.owners && w.owners[w.key.value.epoch] == w.key.value.ownerId
      && forall epoch :: epoch in w.owners ==> 1 <= epoch <= w.key.value.epoch
  }

  lemma NextKeepsFenced(w: World, e: Event)
    requires Fenced(w)
    ensures Fenced(Next(w, e))
  {
  }

  lemma {:induction false} RunKeepsFenced(w: World, events: seq<Event>)
    requires Fenced(w)
    ensures Fenced(Run(w, events))
    decreases |events|
  {
    if events != [] {
      NextKeepsFenced(w, events[0]);
      RunKeepsFenced(Next(w, events[0]), events[1..]);
    }
  }

  /** The record is never deleted along the run. */
  ghost predicate SameLifetime(w: World, events: seq<Event>)
    decreases |events|
  {
    w.key.Some? && (events == [] || SameLifetime(Next(w, events[0]), events[1..]))
  }

  /** Within a lifetime epochs never decrease, and an epoch never changes hands. */
  lemma {:induction false} EpochsOnlyGrow(w: World, events: seq<Event>)
    requires Fenced(w) && SameLifetime(w, events)
    ensures var end := Run(w, events);
      && end.key.Some? && end.key.value.epoch >= w.key.value.epoch
      && (forall epoch :: epoch in w.owners ==> epoch in end.owners && end.owners[epoch] == w.owners[epoch])
      && (end.key.value.epoch == w.key.value.epoch ==> end.key.value.ownerId == w.key.value.ownerId)
    decreases |events|
  {
    if events != [] {
      NextKeepsFenced(w, events[0]);
      EpochsOnlyGrow(Next(w, events[0]), events[1..]);
    }
  }

  /** An instance displaced from its epoch can never again renew or release with that epoch. */
  lemma DisplacedIsShutOut(w: World, events: seq<Event>, later: seq<Event>, leaseUntil: nat)
    requires Fenced(w) && SameLifetime(w, events) && SameLifetime(Run(w, events), later)
    requires Run(w, events).key.Some? && Run(w, events).key.value.ownerId != w.key.value.ownerId
    ensures var end := Run(Run(w, events), later);
      && !Renewable(end.key, w.key.value.ownerId, w.key.value.epoch)
      && Renew(end.key, w.key.value.ownerId, w.key.value.epoch, leaseUntil) == end.key
      && Release(end.key, w.key.value.ownerId, Some(w.key.value.epoch)) == end.key
  {
    EpochsOnlyGrow(w, events);
    RunKeepsFenced(w, events);
    EpochsOnlyGrow(Run(w, events), later);
  }

  // ---------------------------------------------------------------- who may think it holds the lease

  predicate Believes(w: World, owner: InstanceId) {
    owner in w.promises && w.promises[owner] > w.now
  }

  /** At most one instance has been promised a lease that is unexpired and not given back. */
  ghost predicate Exclusive(w: World) {
    forall a, b :: Believes(w, a) && Believes(w, b) ==> a == b
  }

  /** A write for the present owner does not bring a running lease to an earlier end. */
  predicate Extends(w: World, e: Event) {
    match e
    case ClaimFor(owner, at, lease) =>
      at <= w.now && w.key.Some? && w.key.value.ownerId == owner && w.key.value.leaseUntil > w.now ==>
        at + lease >= w.key.value.leaseUntil
    case RenewFor(owner, epoch, at, lease) =>
      at <= w.now && Renewable(w.key, owner, epoch) && w.key.value.leaseUntil > w.now ==>
        at + lease >= w.key.value.leaseUntil
    case _ => true
  }

  ghost predicate AllExtend(w: World, events: seq<Event>)
    decreases |events|
  {
    events == [] || (Extends(w, events[0]) && AllExtend(Next(w, events[0]), events[1..]))
  }

  /** Every running promise is the record's own lease. */
  ghost predicate Kept(w: World) {
    forall owner :: Believes(w, owner) ==>
      w.key.Some? && w.key.value.ownerId == owner && w.promises[owner] == w.key.value.leaseUntil
  }

  lemma NextKeepsKept(w: World, e: Event)
    requires Kept(w) && Extends(w, e)
    ensures Kept(Next(w, e))
  {
  }

  lemma {:induction false} RunKeepsKept(w: World, events: seq<Event>)
    requires Kept(w) && AllExtend(w, events)
    ensures Kept(Run(w, events))
    decreases |events|
  {
    if events != [] {
      NextKeepsKept(w, events[0]);
      RunKeepsKept(Next(w, events[0]), events[1..]);
    }
  }

  /**
   While no write shortens its owner's running lease, at most one instance holds one, with agent and
   API both writing.
   */
  lemma LeaseIsExclusive(events: seq<Event>)
    requires AllExtend(EMPTY, events)
    ensures Exclusive(Run(EMPTY, events))
  {
    RunKeepsKept(EMPTY, events);
  }

  /** A write that shortens a promised lease lets a second instance in before the first one's promise ends. */
  lemma ShorteningBreaksExclusion(w: World, e: Event, rival: InstanceId) returns (events: seq<Event>)
    requires Kept(w) && !Extends(w, e) && Believes(w, e.owner) && rival != e.owner
    ensures AllExtend(Next(w, e), events)
    ensures Believes(Run(Next(w, e), events), e.owner) && Believes(Run(Next(w, e), events), rival)
  {
    var cut := Next(w, e);
    var end := e.at + e.lease;
    var wait := if end > w.now then end - w.now else 0;
    var later := Next(cut, Advance(wait));
    var takeover := ClaimFor(rival, later.now, 1);
    events := [Advance(wait), takeover];
    assert events[1..] == [takeover] && [takeover][1..] == [];
    assert Run(later, [takeover]) == Run(Next(later, takeover), []);
    assert AllExtend(Next(later, takeover), []);
  }

  ghost predicate StaysExclusive(w: World) {
    forall events :: AllExtend(w, events) ==> Exclusive(Run(w, events))
  }

  /** So a write keeps the lease exclusive in every extending continuation exactly when it extends. */
  lemma ExclusiveIffExtends(w: World, e: Event, rival: InstanceId)
    requires Kept(w) && (e.ClaimFor? || e.RenewFor?) && Believes(w, e.owner) && rival != e.owner
    ensures Extends(w, e) <==> StaysExclusive(Next(w, e))
  {
    var next := Next(w, e);
    if Extends(w, e) {
      NextKeepsKept(w, e);
      forall events | AllExtend(next, events)
        ensures Exclusive(Run(next, events))
      {
        RunKeepsKept(next, events);
      }
    } else {
      var events := ShorteningBreaksExclusion(w, e, rival);
      var end := Run(next, events);
      assert Believes(end, e.owner) && Believes(end, rival) && !Exclusive(end);
      assert AllExtend(next, events) && !Exclusive(Run(next, events));
    }
  }

  /** Calls that take effect in the order they read the clock, with one lease length, always extend. */
  lemma OrderedWritesExtend(w: World, e: Event, lastAt: nat, lease: nat)
    requires w.key.Some? ==> w.key.value.leaseUntil <= lastAt + lease
    requires e.ClaimFor? || e.RenewFor? ==> e.lease == lease && e.at >= lastAt
    ensures Extends(w, e)
    ensures Next(w, e).key.Some? ==>
      Next(w, e).key.value.leaseUntil <= (if e.ClaimFor? || e.RenewFor? then e.at else lastAt) + lease
  {
  }

  // ---------------------------------------------------------------- the lease does its work

  /** The instance gets the lease: there is none, it has lapsed, or it is its own. */
  predicate MayClaim(w: World, owner: InstanceId, at: nat) {
    w.key.None? || w.key.value.leaseUntil <= at || w.key.value.ownerId == owner
  }

  /**
   Who may claim gets the lease for its full length, under a new epoch exactly when it was another's;
   nobody else changes anything.
   */
  lemma ClaimGrantsLease(w: World, owner: InstanceId, at: nat, lease: nat)
    requires at <= w.now
    ensures var after := Next(w, ClaimFor(owner, at, lease)).key;
      after == if !MayClaim(w, owner, at) then w.key
               else Some(Record(owner,
                 match w.key case None => 1 case Some(r) => if r.ownerId == owner then r.epoch else r.epoch + 1,
                 at + lease))
  {
  }

  /** A renewal moves the end of the lease exactly for its owner and epoch, and changes nothing else. */
  lemma RenewalExtendsLease(w: World, owner: InstanceId, epoch: nat, at: nat, lease: nat)
    requires at <= w.now
    ensures var after := Next(w, RenewFor(owner, epoch, at, lease)).key;
      after == if w.key == Some(Record(owner, epoch, if w.key.Some? then w.key.value.leaseUntil else 0))
               then Some(Record(owner, epoch, at + lease)) else w.key
  {
  }

  /** A release deletes the record exactly for its owner and, where it names one, its epoch. */
  lemma ReleaseGivesLeaseBack(w: World, owner: InstanceId, ifEpoch: Option<nat>)
    ensures var after := Next(w, ReleaseBy(owner, ifEpoch));
      && (after.key.None? <==>
            w.key.None? || (w.key.value.ownerId == owner && (ifEpoch.None? || ifEpoch == Some(w.key.value.epoch))))
      && (after.key.Some? ==> after.key == w.key)
      && !Believes(after, owner)
  {
  }

  /** From a lapsed or missing lease: a claim, a renewal with its epoch, a release, and the next claim, all succeed. */
  lemma LeaseLifeCycle(w: World, owner: InstanceId, next: InstanceId, lease: nat)
    requires w.key.Some? ==> w.key.value.leaseUntil <= w.now
    ensures var claimed := Next(w, ClaimFor(owner, w.now, lease));
      && claimed.key.Some? && claimed.key.value.ownerId == owner
      && var epoch := claimed.key.value.epoch;
         var renewed := Next(claimed, RenewFor(owner, epoch, w.now, lease + 1));
      && renewed.key == Some(Record(owner, epoch, w.now + lease + 1)) && Believes(renewed, owner)
      && var released := Next(renewed, ReleaseBy(owner, Some(epoch)));
      && released.key == None
      && Next(released, ClaimFor(next, w.now, lease)).key == Some(Record(next, 1, w.now + lease))
  {
  }
}
