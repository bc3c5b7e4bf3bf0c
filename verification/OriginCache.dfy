/**
 The custom-domain binding cache of one hostname (apps/api/src/app-domains.ts): cached
 lookups whose refill is guarded by a generation counter that every invalidation bumps.
 Each Redis script or transaction and each database read is one atomic step.
 */
module OriginCache {
  import opened Common

  const CACHE_TTL := 60
  const MISS_CACHE_TTL := 30
  /** invalidateAppDomainOriginCache keeps the generation key for a day. */
  const GENERATION_TTL := 24 * 60 * 60

  type AppId = string

  datatype Binding = Binding(appId: AppId, active: bool)

  /** The stored text: `a:` or `b:` and the app, empty for an unbound host. */
  function Encode(binding: Option<Binding>): string {
    match binding
    case None => ""
    case Some(b) => (if b.active then "a" else "b") + ":" + b.appId
  }

  function Decode(cached: string): Option<Binding> {
    if cached == "" then None
    else Some(Binding(if |cached| >= 2 then cached[2..] else "", |cached| >= 2 && cached[..2] == "a:"))
  }

  lemma DecodeUndoesEncode(binding: Option<Binding>)
    ensures Decode(Encode(binding)) == binding
  {
    if binding.Some? {
      var text := Encode(binding);
      assert text == [text[0], ':'] + binding.value.appId;
      assert text[2..] == binding.value.appId;
      assert text[..2] == [text[0], ':'];
    }
  }

  // ---------------------------------------------------------------- Redis

  /** A key's value and the moment it expires. */
  datatype Slot<T> = Slot(value: T, expiresAt: nat)

  function Live<T>(slot: Option<Slot<T>>, now: nat): Option<T> {
    if slot.Some? && now < slot.value.expiresAt then Some(slot.value.value) else None
  }

  /** The generation as the fill script reads it: a missing counter counts as 0. */
  function Generation(gen: Option<Slot<nat>>, now: nat): nat {
    Live(gen, now).GetOr(0)
  }

  /** FILL_IF_GENERATION_SCRIPT */
  function Fill(cache: Option<Slot<string>>, gen: Option<Slot<nat>>, now: nat, seen: nat, text: string,
      ttl: nat): Option<Slot<string>> {
    if Generation(gen, now) == seen then Some(Slot(text, now + ttl)) else cache
  }

  /** MULTI incr, expire, del EXEC */
  function Bump(gen: Option<Slot<nat>>, now: nat): Option<Slot<nat>> {
    Some(Slot(Generation(gen, now) + 1, now + GENERATION_TTL))
  }

  class OriginKeys {
    var cache: Option<Slot<string>>
    var gen: Option<Slot<nat>>

    constructor ()
      ensures cache == None && gen == None
    {
      cache, gen := None, None;
    }

    method Mget(now: nat) returns (cached: Option<string>, generation: Option<nat>)
      ensures cached == Live(cache, now) && generation == Live(gen, now)
    {
      cached := if cache.Some? && now < cache.value.expiresAt then Some(cache.value.value) else None;
      generation := if gen.Some? && now < gen.value.expiresAt then Some(gen.value.value) else None;
    }

    method FillIfGeneration(now: nat, seen: nat, text: string, ttl: nat) returns (filled: bool)
      modifies this`cache
      ensures cache == Fill(old(cache), gen, now, seen, text, ttl)
      ensures filled <==> Generation(gen, now) == seen
    {
      var _, generation := Mget(now);
      filled := generation.GetOr(0) == seen;
      if filled {
        cache := Some(Slot(text, now + ttl));
      }
    }

    method Invalidate(now: nat)
      modifies this
      ensures cache == None && gen == Bump(old(gen), now)
    {
      var _, generation := Mget(now);
      gen := Some(Slot(generation.GetOr(0) + 1, now + GENERATION_TTL));
      cache := None;
    }
  }

  // ---------------------------------------------------------------- racing lookups

  /**
   A lookup that missed: the generation it saw, when that observation stops protecting it,
   and, once the database is read, the binding with the number of invalidations before it.
   */
  datatype Lookup = Lookup(seen: nat, horizon: nat, read: Option<Read>)

  datatype Read = Read(binding: Option<Binding>, epoch: nat)

  /**
   `epoch` counts invalidations and `since` holds every binding the database has had since the
   latest one; `cacheEpoch` is the count when the cached binding was read.
   */
  datatype World = World(
    now: nat,
    db: Option<Binding>,
    cache: Option<Slot<string>>,
    gen: Option<Slot<nat>>,
    epoch: nat,
    since: set<Option<Binding>>,
    cacheEpoch: nat,
    lookups: map<nat, Lookup>)

  datatype Event =
    | Advance(seconds: nat)
    | Write(binding: Option<Binding>)
    | Invalidate
    | Mget(id: nat)
    | MgetFails(id: nat)
    | ReadDatabase(id: nat)
    | FillCache(id: nat)

  const EMPTY := World(0, None, None, None, 0, {None}, 0, map[])

  /**
   How long the generation seen by a lookup cannot be counted up to again: until the counter
   it saw expires, or, with no counter, for one counter lifetime.
   */
  function Horizon(w: World): nat {
    if Live(w.gen, w.now).Some? then w.gen.value.expiresAt else w.now + GENERATION_TTL
  }

  predicate Ready(w: World, id: nat) {
    id in w.lookups && w.lookups[id].read.Some?
  }

  function Next(w: World, e: Event): World {
    match e
    case Advance(seconds) => w.(now := w.now + seconds)
    case Write(binding) => w.(db := binding, since := w.since + {binding})
    case Invalidate => w.(cache := None, gen := Bump(w.gen, w.now), epoch := w.epoch + 1, since := {w.db})
    case Mget(id) =>
      if id in w.lookups || Live(w.cache, w.now).Some? then w
      else w.(lookups := w.lookups[id := Lookup(Generation(w.gen, w.now), Horizon(w), None)])
    case MgetFails(id) =>
      if id in w.lookups then w
      else w.(lookups := w.lookups[id := Lookup(0, w.now + GENERATION_TTL, None)])
    case ReadDatabase(id) =>
      if id in w.lookups && w.lookups[id].read.None?
      then w.(lookups := w.lookups[id := w.lookups[id].(read := Some(Read(w.db, w.epoch)))])
      else w
    case FillCache(id) =>
      if !Ready(w, id) then w
      else
        var read := w.lookups[id].read.value;
        var filled := Generation(w.gen, w.now) == w.lookups[id].seen;
        var ttl := if read.binding.Some? then CACHE_TTL else MISS_CACHE_TTL;
        w.(cache := Fill(w.cache, w.gen, w.now, w.lookups[id].seen, Encode(read.binding), ttl),
           cacheEpoch := if filled then read.epoch else w.cacheEpoch)
  }

  function Run(w: World, events: seq<Event>): World
    decreases |events|
  {
    if events == [] then w else Run(Next(w, events[0]), events[1..])
  }

  /** The cache answers with a binding that was read before the latest invalidation. */
  predicate Stale(w: World) {
    Live(w.cache, w.now).Some? && w.cacheEpoch != w.epoch
  }

  /** A fill is prompt if it runs before the generation it relies on can recur. */
  predicate Prompt(w: World, e: Event) {
    e.FillCache? && Ready(w, e.id) ==> w.now < w.lookups[e.id].horizon
  }

  ghost predicate AllPrompt(w: World, events: seq<Event>)
    decreases |events|
  {
    events == [] || (Prompt(w, events[0]) && AllPrompt(Next(w, events[0]), events[1..]))
  }

  // ---------------------------------------------------------------- why prompt fills are safe

  /**
   While a lookup is inside its horizon, an invalidation since its read leaves the counter
   above the value it saw, alive beyond the horizon.
   */
  ghost predicate LookupInv(w: World, lookup: Lookup) {
    && (lookup.read.Some? ==> lookup.read.value.epoch <= w.epoch)
    && (lookup.read.Some? && lookup.read.value.epoch == w.epoch ==> lookup.read.value.binding in w.since)
    && (w.now < lookup.horizon && lookup.read.Some? && lookup.read.value.epoch < w.epoch ==>
          w.gen.Some? && w.gen.value.expiresAt >= lookup.horizon && w.gen.value.value > lookup.seen)
    && (w.now < lookup.horizon && lookup.seen > 0 ==>
      w.gen.Some? && w.gen.value.expiresAt >= lookup.horizon && w.gen.value.value >= lookup.seen)
    && lookup.horizon <= w.now + GENERATION_TTL
  }

  /** The part no fill can disturb. */
  ghost predicate Guarded(w: World) {
    && w.db in w.since
    && (w.gen.Some? ==> w.gen.value.value > 0 && w.gen.value.expiresAt <= w.now + GENERATION_TTL)
    && forall id :: id in w.lookups ==> LookupInv(w, w.lookups[id])
  }

  ghost predicate Coherent(w: World) {
    && !Stale(w) && w.cacheEpoch <= w.epoch
    && (Live(w.cache, w.now).Some? ==> Decode(w.cache.value.value) in w.since)
  }

  lemma NextKeepsGuarded(w: World, e: Event)
    requires Guarded(w)
    ensures Guarded(Next(w, e))
  {
  }

  lemma {:induction false} RunKeepsGuarded(w: World, events: seq<Event>)
    requires Guarded(w)
    ensures Guarded(Run(w, events))
    decreases |events|
  {
    if events != [] {
      NextKeepsGuarded(w, events[0]);
      RunKeepsGuarded(Next(w, events[0]), events[1..]);
    }
  }

  lemma NextKeepsCoherent(w: World, e: Event)
    requires Guarded(w) && Coherent(w) && Prompt(w, e)
    ensures Coherent(Next(w, e))
  {
    if e.FillCache? && Ready(w, e.id) {
      DecodeUndoesEncode(w.lookups[e.id].read.value.binding);
    }
  }

  lemma {:induction false} RunKeepsCoherent(w: World, events: seq<Event>)
    requires Guarded(w) && Coherent(w) && AllPrompt(w, events)
    ensures Coherent(Run(w, events))
    decreases |events|
  {
    if events != [] {
      NextKeepsGuarded(w, events[0]);
      NextKeepsCoherent(w, events[0]);
      RunKeepsCoherent(Next(w, events[0]), events[1..]);
    }
  }

  /**
   Coherence: however lookups, reads, fills, writes, invalidations and expiries interleave,
   if every fill is prompt the cache never answers with a binding read before the latest
   invalidation, and what it answers decodes to a binding the database has held since then.
   */
  lemma PromptFillsKeepCacheCoherent(events: seq<Event>)
    requires AllPrompt(EMPTY, events)
    ensures var w := Run(EMPTY, events);
      && !Stale(w)
      && (Live(w.cache, w.now).Some? ==> Decode(w.cache.value.value) in w.since)
  {
    RunKeepsCoherent(EMPTY, events);
  }

  // ---------------------------------------------------------------- the condition is exact

  /** Lookup `id` fills the cache now, with a binding read before the latest invalidation. */
  predicate FillsStale(w: World, id: nat) {
    Ready(w, id) && Generation(w.gen, w.now) == w.lookups[id].seen && w.lookups[id].read.value.epoch != w.epoch
  }

  lemma FillsStaleMakesStale(w: World, id: nat)
    requires FillsStale(w, id)
    ensures Stale(Next(w, FillCache(id)))
  {
  }

  lemma {:induction false} RunKeepsLookup(w: World, events: seq<Event>, id: nat)
    requires id in w.lookups
    ensures var end := Run(w, events);
      && id in end.lookups && end.lookups[id].seen == w.lookups[id].seen &&
        end.lookups[id].horizon == w.lookups[id].horizon
    decreases |events|
  {
    if events != [] {
      RunKeepsLookup(Next(w, events[0]), events[1..], id);
    }
  }

  lemma {:induction false} InvalidateRepeatedly(w: World, n: nat) returns (events: seq<Event>)
    ensures var end := Run(w, events);
      && end.now == w.now && end.lookups == w.lookups && end.epoch == w.epoch + n
      && Generation(end.gen, end.now) == Generation(w.gen, w.now) + n
    decreases n
  {
    if n == 0 {
      events := [];
    } else {
      events := InvalidateRepeatedly(Next(w, Invalidate), n - 1);
      assert ([Invalidate] + events)[1..] == events;
      events := [Invalidate] + events;
    }
  }

  lemma {:induction false} RunConcat(w: World, a: seq<Event>, b: seq<Event>)
    ensures Run(w, a + b) == Run(Run(w, a), b)
    decreases |a|
  {
    if a == [] {
      assert a + b == b;
    } else {
      assert (a + b)[1..] == a[1..] + b;
      RunConcat(Next(w, a[0]), a[1..], b);
    }
  }

  lemma RunTwo(w: World, a: Event, b: Event)
    ensures Run(w, [a, b]) == Next(Next(w, a), b)
  {
    assert [a, b][1..] == [b] && [b][1..] == [];
    assert Run(Next(w, a), [b]) == Run(Next(Next(w, a), b), []);
  }

  /** A fill at or after the horizon can put a stale binding into the cache. */
  lemma LateFillCanBeStale(w: World, id: nat, at: nat) returns (events: seq<Event>)
    requires Guarded(w) && id !in w.lookups && Live(w.cache, w.now).None?
    requires at >= Horizon(w)
    ensures var end := Run(Next(w, Mget(id)), events); end.now == at && FillsStale(end, id)
  {
    var started := Next(w, Mget(id));
    var read := Next(started, ReadDatabase(id));
    var wait := Advance(at - w.now);
    if Live(w.gen, w.now).Some? {
      var waited := Next(read, wait);
      assert Generation(waited.gen, waited.now) == 0;
      var bumps := InvalidateRepeatedly(waited, w.gen.value.value);
      events := [ReadDatabase(id), wait] + bumps;
      RunConcat(started, [ReadDatabase(id), wait], bumps);
      RunTwo(started, ReadDatabase(id), wait);
    } else {
      events := [ReadDatabase(id), Invalidate, wait];
      assert events[1..] == [Invalidate, wait];
      RunTwo(read, Invalidate, wait);
    }
  }

  /** A fill running at `at` is safe in every interleaving exactly when `at` is before the lookup's horizon. */
  lemma HorizonIsExact(w: World, id: nat, at: nat)
    requires Guarded(w) && id !in w.lookups && Live(w.cache, w.now).None?
    requires at >= w.now
    ensures at < Horizon(w) <==>
            forall events :: Run(Next(w, Mget(id)), events).now == at ==>
              !FillsStale(Run(Next(w, Mget(id)), events), id)
  {
    var started := Next(w, Mget(id));
    if at < Horizon(w) {
      NextKeepsGuarded(w, Mget(id));
      forall events | Run(started, events).now == at
        ensures !FillsStale(Run(started, events), id)
      {
        RunKeepsGuarded(started, events);
        RunKeepsLookup(started, events, id);
      }
    } else {
      var events := LateFillCanBeStale(w, id, at);
    }
  }

  /**
   A day is not always long enough: a lookup that sees a counter about to expire can refill
   stale two seconds later.
   */
  lemma ShortLookupCanBeStale() returns (events: seq<Event>)
    ensures var w := Run(EMPTY, events); w.now == GENERATION_TTL + 1 && Stale(w)
    ensures Mget(0) in events && Run(EMPTY, [Invalidate, Advance(GENERATION_TTL - 1), Mget(0)]).now ==
      GENERATION_TTL - 1
  {
    var w1 := Next(EMPTY, Invalidate);
    var w2 := Next(w1, Advance(GENERATION_TTL - 1));
    var first := [Invalidate, Advance(GENERATION_TTL - 1)];
    RunTwo(EMPTY, Invalidate, Advance(GENERATION_TTL - 1));
    RunConcat(EMPTY, first, [Mget(0)]);
    assert first + [Mget(0)] == [Invalidate, Advance(GENERATION_TTL - 1), Mget(0)];
    assert [Mget(0)][1..] == [];
    var late := LateFillCanBeStale(w2, 0, GENERATION_TTL + 1);
    events := first + ([Mget(0)] + (late + [FillCache(0)]));
    RunConcat(EMPTY, first, [Mget(0)] + (late + [FillCache(0)]));
    assert ([Mget(0)] + (late + [FillCache(0)]))[1..] == late + [FillCache(0)];
    RunConcat(Next(w2, Mget(0)), late, [FillCache(0)]);
    var end := Run(Next(w2, Mget(0)), late);
    assert [FillCache(0)][1..] == [];
    FillsStaleMakesStale(end, 0);
    assert events[2] == Mget(0);
  }

  // ---------------------------------------------------------------- the cache does its work

  lemma RunCons(w: World, e: Event, events: seq<Event>)
    ensures Run(w, [e] + events) == Run(Next(w, e), events)
  {
    assert ([e] + events)[1..] == events;
  }

  /** A lookup that misses, reads the database and fills. */
  function Lookups(id: nat): seq<Event> {
    [Mget(id)] + ([ReadDatabase(id)] + ([FillCache(id)] + []))
  }

  lemma LookupRun(w: World, id: nat)
    requires id !in w.lookups && Live(w.cache, w.now).None?
    ensures var after := Run(w, Lookups(id));
      && after.now == w.now && after.db == w.db && after.gen == w.gen
      && after.cache == Some(Slot(Encode(w.db), w.now + if w.db.Some? then 60 else 30))
  {
    var missed := Next(w, Mget(id));
    var read := Next(missed, ReadDatabase(id));
    RunCons(w, Mget(id), [ReadDatabase(id)] + ([FillCache(id)] + []));
    RunCons(missed, ReadDatabase(id), [FillCache(id)] + []);
    RunCons(read, FillCache(id), []);
  }

  /** A lookup that misses leaves an answer, for a minute if the host is bound and half a minute if not. */
  lemma LookupIsCached(w: World, id: nat, seconds: nat)
    requires id !in w.lookups && Live(w.cache, w.now).None?
    ensures var later := Next(Run(w, Lookups(id)), Advance(seconds));
      var answer := Live(later.cache, later.now);
      && (answer.Some? <==> seconds < if w.db.Some? then 60 else 30)
      && (answer.Some? ==> Decode(answer.value) == w.db)
  {
    LookupRun(w, id);
    DecodeUndoesEncode(w.db);
  }

  /** A change that is written and then invalidated is what the next lookup caches. */
  lemma NewBindingIsCached(w: World, binding: Option<Binding>, id: nat)
    requires id !in w.lookups
    ensures var after := Run(Next(Next(w, Write(binding)), Invalidate), Lookups(id));
      Live(after.cache, after.now).Some? && Decode(after.cache.value.value) == binding
  {
    LookupIsCached(Next(Next(w, Write(binding)), Invalidate), id, 0);
    LookupRun(Next(Next(w, Write(binding)), Invalidate), id);
  }

  lemma {:induction false} NothingElseSince(w: World, events: seq<Event>)
    requires w.since == {w.db} && forall e :: e in events ==> !e.Write?
    ensures var end := Run(w, events); end.db == w.db && end.since == {w.db}
    decreases |events|
  {
    if events != [] {
      assert events[0] in events;
      NothingElseSince(Next(w, events[0]), events[1..]);
    }
  }

  /**
   Once a binding is written and invalidated and no other is written, the cache answers that
   binding or nothing, whatever lookups were under way, if every fill is prompt.
   */
  lemma SettledBindingIsAnswered(before: seq<Event>, binding: Option<Binding>, later: seq<Event>)
    requires AllPrompt(EMPTY, before + ([Write(binding)] + ([Invalidate] + later)))
    requires forall e :: e in later ==> !e.Write?
    ensures var w := Run(EMPTY, before + ([Write(binding)] + ([Invalidate] + later)));
      Live(w.cache, w.now).Some? ==> Decode(w.cache.value.value) == binding
  {
    var start := Run(EMPTY, before);
    PromptFillsKeepCacheCoherent(before + ([Write(binding)] + ([Invalidate] + later)));
    RunConcat(EMPTY, before, [Write(binding)] + ([Invalidate] + later));
    RunCons(start, Write(binding), [Invalidate] + later);
    RunCons(Next(start, Write(binding)), Invalidate, later);
    NothingElseSince(Next(Next(start, Write(binding)), Invalidate), later);
  }

  /** An invalidation between a lookup's miss and its fill turns the fill away. */
  lemma RacedFillIsRefused(w: World, id: nat)
    requires id !in w.lookups && Live(w.cache, w.now).None?
    ensures Run(w, [Mget(id)] + ([ReadDatabase(id)] + ([Invalidate] + ([FillCache(id)] + [])))).cache == None
  {
    var missed := Next(w, Mget(id));
    var read := Next(missed, ReadDatabase(id));
    RunCons(w, Mget(id), [ReadDatabase(id)] + ([Invalidate] + ([FillCache(id)] + [])));
    RunCons(missed, ReadDatabase(id), [Invalidate] + ([FillCache(id)] + []));
    RunCons(read, Invalidate, [FillCache(id)] + []);
    RunCons(Next(read, Invalidate), FillCache(id), []);
  }

  /** A lookup that could not read Redis fills exactly when no invalidation counter is alive. */
  lemma BlindFillNeedsNoCounter(w: World, id: nat)
    requires Guarded(w) && id !in w.lookups
    ensures var after := Run(w, [MgetFails(id)] + ([ReadDatabase(id)] + ([FillCache(id)] + [])));
      after.cache == if Live(w.gen, w.now).Some? then w.cache
                     else Some(Slot(Encode(w.db), w.now + if w.db.Some? then 60 else 30))
  {
    var missed := Next(w, MgetFails(id));
    var read := Next(missed, ReadDatabase(id));
    RunCons(w, MgetFails(id), [ReadDatabase(id)] + ([FillCache(id)] + []));
    RunCons(missed, ReadDatabase(id), [FillCache(id)] + []);
    RunCons(read, FillCache(id), []);
  }
}
