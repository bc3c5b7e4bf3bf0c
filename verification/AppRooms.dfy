/**
 Room allocation of one app (apps/api/src/app-rooms.ts): code keys, room records and a
 sorted-set index, all with expiries, changed by one Lua script and by readers that clean up
 the codes of vanished rooms. Times are milliseconds on the Redis clock.
 */
module AppRooms {
  import opened Common

  type RoomId = nat
  type Code = string

  const MAX_ACTIVE_PER_APP := 512
  const ATTEMPTS := 5

  datatype CodeKey = CodeKey(roomId: RoomId, expiresAt: nat)

  datatype Room = Room(code: Code, expiresAt: nat)

  /** `index` is the sorted set, with its scores, and `indexExpiresAt` the expiry of its key. */
  datatype Keys = Keys(codes: map<Code, CodeKey>, rooms: map<RoomId, Room>, index: map<RoomId, nat>,
      indexExpiresAt: nat)

  const NO_KEYS := Keys(map[], map[], map[], 0)

  datatype Created = QuotaExceeded | CodeTaken | Allocated

  predicate CodeLive(k: Keys, code: Code, now: nat) {
    code in k.codes && now < k.codes[code].expiresAt
  }

  predicate RoomLive(k: Keys, id: RoomId, now: nat) {
    id in k.rooms && now < k.rooms[id].expiresAt
  }

  function LiveRooms(k: Keys, now: nat): set<RoomId> {
    set id | id in k.rooms && now < k.rooms[id].expiresAt
  }

  /** The index after its own expiry and ZREMRANGEBYSCORE -inf now. */
  function Swept(k: Keys, now: nat): map<RoomId, nat> {
    if now >= k.indexExpiresAt then map[] else map id | id in k.index && k.index[id] > now :: k.index[id]
  }

  /** ZRANGE -1 -1 WITHSCORES: the largest score. */
  ghost function Newest(index: map<RoomId, nat>): (score: nat)
    ensures forall id :: id in index ==> index[id] <= score
    ensures index != map[] ==> exists id :: id in index && index[id] == score
    decreases |index|
  {
    if index == map[] then 0
    else
      var id :| id in index;
      var rest := index - {id};
      assert forall other :: other in index ==> other == id || other in rest;
      var score := Newest(rest);
      if index[id] >= score then assert id in index; index[id]
      else assert exists other :: other in rest && rest[other] == score; score
  }

  /** CREATE_ROOM_SCRIPT */
  ghost function Create(k: Keys, now: nat, code: Code, id: RoomId, expiresAt: nat): (Keys, Created) {
    var swept := k.(index := Swept(k, now));
    if |swept.index| >= MAX_ACTIVE_PER_APP then (swept, QuotaExceeded)
    else if CodeLive(k, code, now) then (swept, CodeTaken)
    else
      var index := swept.index[id := expiresAt];
      var codes, rooms := k.codes[code := CodeKey(id, expiresAt)], k.rooms[id := Room(code, expiresAt)];
      (Keys(codes, rooms, index, Newest(index)), Allocated)
  }

  // ---------------------------------------------------------------- runs

  /** A reader of getAppRoomByCode between its commands: the room id it read, and whether it found no room. */
  datatype Reader = Reader(code: Code, roomId: RoomId, cleaning: bool)

  datatype World = World(now: nat, keys: Keys, readers: map<nat, Reader>)

  datatype Event =
    | Advance(ms: nat)
    | CreateRoom(code: Code, id: RoomId, expiresAt: nat)
    | ReadCode(reader: nat, code: Code)
    | ReadRoom(reader: nat)
    | DropCode(reader: nat)

  const EMPTY := World(0, NO_KEYS, map[])

  /** Room ids are fresh UUIDs; a creation that reuses one is not modelled. */
  ghost function Next(w: World, e: Event): World {
    match e
    case Advance(ms) => w.(now := w.now + ms)
    case CreateRoom(code, id, expiresAt) =>
      if id in w.keys.rooms then w else w.(keys := Create(w.keys, w.now, code, id, expiresAt).0)
    case ReadCode(reader, code) =>
      if !CodeLive(w.keys, code, w.now) then w
      else w.(readers := w.readers[reader := Reader(code, w.keys.codes[code].roomId, false)])
    case ReadRoom(reader) =>
      if reader !in w.readers then w
      else if RoomLive(w.keys, w.readers[reader].roomId, w.now) then w.(readers := w.readers - {reader})
      else w.(readers := w.readers[reader := w.readers[reader].(cleaning := true)])
    case DropCode(reader) =>
      if reader in w.readers && w.readers[reader].cleaning
      then w.(keys := w.keys.(codes := w.keys.codes - {w.readers[reader].code}), readers := w.readers - {reader})
      else w
  }

  ghost function Run(w: World, events: seq<Event>): World {
    if events == [] then w else Next(Run(w, events[..|events| - 1]), events[|events| - 1])
  }

  // ---------------------------------------------------------------- what always holds

  /** A live room is indexed under its exact expiry, in an index that outlives it. */
  ghost predicate Indexed(k: Keys, now: nat) {
    forall id :: RoomLive(k, id, now) ==>
      id in k.index && k.index[id] == k.rooms[id].expiresAt <= k.indexExpiresAt
  }

  /** The index lists only rooms, under their expiry. */
  ghost predicate IndexIsOfRooms(k: Keys) {
    forall id :: id in k.index ==> id in k.rooms && k.index[id] == k.rooms[id].expiresAt
  }

  /** A live code key names one live room, with that code and the same expiry. */
  ghost predicate CodesResolve(k: Keys, now: nat) {
    forall code :: CodeLive(k, code, now) ==>
      var id := k.codes[code].roomId; RoomLive(k, id, now) && k.rooms[id] == Room(code, k.codes[code].expiresAt)
  }

  ghost predicate Inv(w: World) {
    && Indexed(w.keys, w.now) && IndexIsOfRooms(w.keys) && CodesResolve(w.keys, w.now)
    && |w.keys.index| <= MAX_ACTIVE_PER_APP
  }

  lemma {:induction false} Smaller<T>(small: set<T>, big: set<T>)
    requires small <= big
    ensures |small| <= |big|
  {
    if small != {} {
      var x :| x in small;
      Smaller(small - {x}, big - {x});
    }
  }

  /** After the sweep the index lists exactly the live rooms. */
  lemma SweepLeavesLiveRooms(k: Keys, now: nat)
    requires Indexed(k, now) && IndexIsOfRooms(k)
    ensures Swept(k, now).Keys == LiveRooms(k, now) && |Swept(k, now)| == |LiveRooms(k, now)|
    ensures forall id :: id in Swept(k, now) ==> Swept(k, now)[id] == k.rooms[id].expiresAt
  {
    assert forall id :: id in LiveRooms(k, now) ==> RoomLive(k, id, now);
    assert |Swept(k, now)| == |Swept(k, now).Keys|;
  }

  lemma LiveWithinIndex(w: World)
    requires Inv(w)
    ensures |Swept(w.keys, w.now)| == |LiveRooms(w.keys, w.now)| <= MAX_ACTIVE_PER_APP
  {
    SweepLeavesLiveRooms(w.keys, w.now);
    Smaller(LiveRooms(w.keys, w.now), w.keys.index.Keys);
    assert |w.keys.index| == |w.keys.index.Keys|;
  }

  lemma CreateKeepsIndex(k: Keys, now: nat, code: Code, id: RoomId, expiresAt: nat)
    requires Indexed(k, now) && IndexIsOfRooms(k) && id !in k.rooms
    ensures var after := Create(k, now, code, id, expiresAt).0; Indexed(after, now) && IndexIsOfRooms(after)
  {
    SweepLeavesLiveRooms(k, now);
    var after := Create(k, now, code, id, expiresAt).0;
    forall other | RoomLive(after, other, now)
      ensures other in after.index && after.index[other] == after.rooms[other].expiresAt <= after.indexExpiresAt
    {
      assert other != id ==> RoomLive(k, other, now) && other in LiveRooms(k, now);
    }
  }

  lemma CreateKeepsCodes(k: Keys, now: nat, code: Code, id: RoomId, expiresAt: nat)
    requires CodesResolve(k, now) && id !in k.rooms
    ensures CodesResolve(Create(k, now, code, id, expiresAt).0, now)
  {
    var after := Create(k, now, code, id, expiresAt).0;
    forall other | CodeLive(after, other, now)
      ensures var room := after.codes[other].roomId;
              RoomLive(after, room, now) && after.rooms[room] == Room(other, after.codes[other].expiresAt)
    {
      assert other != code ==> CodeLive(k, other, now);
    }
  }

  lemma CreateKeepsInv(w: World, code: Code, id: RoomId, expiresAt: nat)
    requires Inv(w) && id !in w.keys.rooms
    ensures Inv(w.(keys := Create(w.keys, w.now, code, id, expiresAt).0))
  {
    LiveWithinIndex(w);
    CreateKeepsIndex(w.keys, w.now, code, id, expiresAt);
    CreateKeepsCodes(w.keys, w.now, code, id, expiresAt);
  }

  lemma NextKeepsInv(w: World, e: Event)
    requires Inv(w)
    ensures Inv(Next(w, e))
  {
    match e
    case CreateRoom(code, id, expiresAt) =>
      if id !in w.keys.rooms {
        CreateKeepsInv(w, code, id, expiresAt);
      }
    case _ =>
  }

  lemma {:induction false} RunKeepsInv(events: seq<Event>)
    ensures Inv(Run(EMPTY, events))
  {
    if events != [] {
      RunKeepsInv(events[..|events| - 1]);
      NextKeepsInv(Run(EMPTY, events[..|events| - 1]), events[|events| - 1]);
    }
  }

  /** At every reachable moment the quota, the index and the codes are sound. */
  lemma RoomsAreSound(events: seq<Event>)
    ensures var w := Run(EMPTY, events);
      && |LiveRooms(w.keys, w.now)| <= MAX_ACTIVE_PER_APP
      && Indexed(w.keys, w.now)
      && CodesResolve(w.keys, w.now)
  {
    RunKeepsInv(events);
    LiveWithinIndex(Run(EMPTY, events));
  }

  /** A room is refused exactly when 512 rooms are live, or else when a live room has the code. */
  lemma RefusedIff(w: World, code: Code, id: RoomId, expiresAt: nat)
    requires Inv(w)
    ensures var outcome := Create(w.keys, w.now, code, id, expiresAt).1;
      && (outcome.QuotaExceeded? <==> |LiveRooms(w.keys, w.now)| == MAX_ACTIVE_PER_APP)
      && (outcome.CodeTaken? <==> |LiveRooms(w.keys, w.now)| < MAX_ACTIVE_PER_APP && CodeLive(w.keys, code, w.now))
      && (outcome.CodeTaken? ==> exists other :: RoomLive(w.keys, other, w.now) && w.keys.rooms[other].code == code)
  {
    LiveWithinIndex(w);
    assert CodeLive(w.keys, code, w.now) ==> RoomLive(w.keys, w.keys.codes[code].roomId, w.now);
  }

  /** An allocation adds exactly the new room, reachable by its code; a refusal changes no room and no code. */
  lemma CreationEffect(k: Keys, now: nat, code: Code, id: RoomId, expiresAt: nat)
    requires id !in k.rooms
    ensures var (after, outcome) := Create(k, now, code, id, expiresAt);
      && (outcome.Allocated? && expiresAt > now ==>
            LiveRooms(after, now) == LiveRooms(k, now) + {id} && CodeLive(after, code, now) &&
              after.codes[code].roomId == id)
      && (outcome.Allocated? && expiresAt <= now ==> LiveRooms(after, now) == LiveRooms(k, now))
      && (!outcome.Allocated? ==> after.codes == k.codes && after.rooms == k.rooms)
  {
    var (after, outcome) := Create(k, now, code, id, expiresAt);
    if outcome.Allocated? {
      assert after.rooms == k.rooms[id := Room(code, expiresAt)];
      NewRoomIsLiveUntil(k, after, now, id);
    }
  }

  lemma NewRoomIsLiveUntil(k: Keys, after: Keys, now: nat, id: RoomId)
    requires id !in k.rooms && id in after.rooms && after.rooms == k.rooms[id := after.rooms[id]]
    ensures LiveRooms(after, now) == LiveRooms(k, now) + if after.rooms[id].expiresAt > now then {id} else {}
  {
    assert forall other :: other in k.rooms ==> RoomLive(after, other, now) == RoomLive(k, other, now);
  }

  /**
   A slow reader may drop the code of a newer room: it found the old room gone, the code was
   allocated again, and its cleanup then deletes the new key.
   */
  lemma CleanupMayOrphanRoom() returns (events: seq<Event>)
    ensures var k := Run(EMPTY, events).keys;
      RoomLive(k, 1, Run(EMPTY, events).now) && k.rooms[1].code == "ROOM" && "ROOM" !in k.codes
  {
    var script := [CreateRoom("ROOM", 0, 10), ReadCode(0, "ROOM"), Advance(10), ReadRoom(0),
                   CreateRoom("ROOM", 1, 30), DropCode(0)];
    events := [];
    var w := EMPTY;
    for k := 0 to |script|
      invariant w == Run(EMPTY, events)
      invariant w.now == if k <= 2 then 0 else 10
      invariant k == 0 ==> w == EMPTY
      invariant 1 <= k <= 4 ==> w.keys.codes == map["ROOM" := CodeKey(0, 10)]
      invariant 1 <= k <= 4 ==> w.keys.rooms == map[0 := Room("ROOM", 10)]
      invariant 1 <= k <= 4 ==> w.keys.index == map[0 := 10]
      invariant k <= 1 ==> w.readers == map[]
      invariant 2 <= k <= 3 ==> w.readers == map[0 := Reader("ROOM", 0, false)]
      invariant 4 <= k <= 5 ==> w.readers == map[0 := Reader("ROOM", 0, true)]
      invariant k >= 5 ==> 1 in w.keys.rooms && w.keys.rooms[1] == Room("ROOM", 30)
      invariant k == 6 ==> "ROOM" !in w.keys.codes
    {
      if k == 4 {
        assert |Swept(w.keys, w.now)| == |Swept(w.keys, w.now).Keys| == 0;
      }
      assert (events + [script[k]])[..|events|] == events;
      w := Next(w, script[k]);
      events := events + [script[k]];
    }
  }

  /** The new room lives, and its code finds it, until exactly the expiry that was asked for. */
  lemma RoomLivesUntil(w: World, code: Code, id: RoomId, expiresAt: nat, ms: nat)
    requires id !in w.keys.rooms && Create(w.keys, w.now, code, id, expiresAt).1.Allocated?
    ensures var later := Next(Next(w, CreateRoom(code, id, expiresAt)), Advance(ms));
      && later.now == w.now + ms
      && (RoomLive(later.keys, id, later.now) <==> w.now + ms < expiresAt)
      && (CodeLive(later.keys, code, later.now) <==> w.now + ms < expiresAt)
      && later.keys.codes[code].roomId == id && later.keys.rooms[id].code == code
  {
  }

  /** Looking up the code of a live room finds it and changes nothing; a code whose room is gone is deleted. */
  lemma LookupEffect(w: World, reader: nat, code: Code)
    requires reader !in w.readers && CodeLive(w.keys, code, w.now)
    ensures var id := w.keys.codes[code].roomId;
      var looked := Next(Next(w, ReadCode(reader, code)), ReadRoom(reader));
      && (RoomLive(w.keys, id, w.now) ==> looked == w)
      && (!RoomLive(w.keys, id, w.now) ==>
            Next(looked, DropCode(reader)) == w.(keys := w.keys.(codes := w.keys.codes - {code})))
  {
    assert w.readers[reader := Reader(code, w.keys.codes[code].roomId, false)] - {reader} == w.readers;
    assert w.readers[reader := Reader(code, w.keys.codes[code].roomId, true)] - {reader} == w.readers;
  }

  /** A code that names nothing starts no lookup. */
  lemma UnknownCodeFindsNothing(w: World, reader: nat, code: Code)
    requires !CodeLive(w.keys, code, w.now)
    ensures Next(w, ReadCode(reader, code)) == w
  {
  }

  // ---------------------------------------------------------------- when rooms can be found

  /** Every live room is found by its code. */
  ghost predicate Reachable(k: Keys, now: nat) {
    forall id :: RoomLive(k, id, now) ==> Found(k, id, now)
  }

  ghost predicate Found(k: Keys, id: RoomId, now: nat)
    requires id in k.rooms
  {
    CodeLive(k, k.rooms[id].code, now) && k.codes[k.rooms[id].code].roomId == id
  }

  /** The cleanup of a reader deletes a code key that is in use again. */
  predicate DropsLiveCode(w: World, e: Event) {
    && e.DropCode? && e.reader in w.readers && w.readers[e.reader].cleaning
    && CodeLive(w.keys, w.readers[e.reader].code, w.now)
  }

  lemma CreateKeepsReachable(k: Keys, now: nat, code: Code, id: RoomId, expiresAt: nat)
    requires Reachable(k, now) && id !in k.rooms
    ensures Reachable(Create(k, now, code, id, expiresAt).0, now)
  {
    var after := Create(k, now, code, id, expiresAt).0;
    forall other | RoomLive(after, other, now)
      ensures Found(after, other, now)
    {
      if other != id {
        assert RoomLive(k, other, now) && Found(k, other, now);
      }
    }
  }

  lemma AdvanceKeepsReachable(k: Keys, now: nat, later: nat)
    requires CodesResolve(k, now) && Reachable(k, now) && now <= later
    ensures Reachable(k, later)
  {
    forall id | RoomLive(k, id, later)
      ensures Found(k, id, later)
    {
      assert RoomLive(k, id, now) && Found(k, id, now);
      assert k.rooms[id] == Room(k.rooms[id].code, k.codes[k.rooms[id].code].expiresAt);
    }
  }

  lemma DropKeepsReachableIff(w: World, e: Event)
    requires Inv(w) && Reachable(w.keys, w.now) && e.DropCode?
    ensures Reachable(Next(w, e).keys, w.now) <==> !DropsLiveCode(w, e)
  {
    var next := Next(w, e);
    if DropsLiveCode(w, e) {
      var id := w.keys.codes[w.readers[e.reader].code].roomId;
      assert RoomLive(next.keys, id, w.now) && !Found(next.keys, id, w.now);
    } else {
      forall id | RoomLive(next.keys, id, w.now)
        ensures Found(next.keys, id, w.now)
      {
        assert RoomLive(w.keys, id, w.now) && Found(w.keys, id, w.now);
      }
    }
  }

  /** A step keeps every live room reachable exactly when it does not drop a code in use. */
  lemma StepKeepsReachableIff(w: World, e: Event)
    requires Inv(w) && Reachable(w.keys, w.now)
    ensures Reachable(Next(w, e).keys, Next(w, e).now) <==> !DropsLiveCode(w, e)
  {
    match e
    case Advance(ms) => AdvanceKeepsReachable(w.keys, w.now, w.now + ms);
    case CreateRoom(code, id, expiresAt) =>
      if id !in w.keys.rooms {
        CreateKeepsReachable(w.keys, w.now, code, id, expiresAt);
      }
    case DropCode(_) => DropKeepsReachableIff(w, e);
    case _ =>
  }

  ghost predicate ReachableThroughout(events: seq<Event>) {
    forall k :: 0 <= k <= |events| ==> Reachable(Run(EMPTY, events[..k]).keys, Run(EMPTY, events[..k]).now)
  }

  ghost predicate NeverDropsLiveCode(events: seq<Event>) {
    forall k :: 0 <= k < |events| ==> !DropsLiveCode(Run(EMPTY, events[..k]), events[k])
  }

  lemma RunStep(events: seq<Event>, k: nat)
    requires k < |events|
    ensures Run(EMPTY, events[..k + 1]) == Next(Run(EMPTY, events[..k]), events[k])
  {
    assert events[..k + 1][..k] == events[..k];
  }

  lemma {:induction false} ReachableSoFar(events: seq<Event>, k: nat)
    requires k <= |events| && NeverDropsLiveCode(events)
    ensures Reachable(Run(EMPTY, events[..k]).keys, Run(EMPTY, events[..k]).now)
  {
    if k > 0 {
      ReachableSoFar(events, k - 1);
      RunKeepsInv(events[..k - 1]);
      RunStep(events, k - 1);
      StepKeepsReachableIff(Run(EMPTY, events[..k - 1]), events[k - 1]);
    }
  }

  lemma DropIsSeen(events: seq<Event>, k: nat)
    requires k < |events| && DropsLiveCode(Run(EMPTY, events[..k]), events[k])
    ensures !ReachableThroughout(events)
  {
    RunKeepsInv(events[..k]);
    RunStep(events, k);
    var w := Run(EMPTY, events[..k]);
    if Reachable(w.keys, w.now) {
      StepKeepsReachableIff(w, events[k]);
      assert !Reachable(Run(EMPTY, events[..k + 1]).keys, Run(EMPTY, events[..k + 1]).now);
    }
  }

  /** Over a run, every live room is reachable at every moment exactly when no cleanup drops a code in use. */
  lemma ReachableIffNoLiveDrop(events: seq<Event>)
    ensures ReachableThroughout(events) <==> NeverDropsLiveCode(events)
  {
    if NeverDropsLiveCode(events) {
      forall k | 0 <= k <= |events|
        ensures Reachable(Run(EMPTY, events[..k]).keys, Run(EMPTY, events[..k]).now)
      {
        ReachableSoFar(events, k);
      }
    }
    if k :| 0 <= k < |events| && DropsLiveCode(Run(EMPTY, events[..k]), events[k]) {
      DropIsSeen(events, k);
    }
  }

  // ---------------------------------------------------------------- the script and its caller

  class RoomKeys {
    var codes: map<Code, CodeKey>
    var rooms: map<RoomId, Room>
    var index: map<RoomId, nat>
    var indexExpiresAt: nat

    function State(): Keys
      reads this
    {
      Keys(codes, rooms, index, indexExpiresAt)
    }

    constructor ()
      ensures State() == NO_KEYS
    {
      codes, rooms, index, indexExpiresAt := map[], map[], map[], 0;
    }

    method CreateScript(now: nat, code: Code, id: RoomId, expiresAt: nat) returns (outcome: Created)
      modifies this
      ensures (State(), outcome) == Create(old(State()), now, code, id, expiresAt)
    {
      index := Swept(State(), now);
      if |index| >= MAX_ACTIVE_PER_APP {
        return QuotaExceeded;
      }
      if code in codes && now < codes[code].expiresAt {
        return CodeTaken;
      }
      codes := codes[code := CodeKey(id, expiresAt)];
      rooms := rooms[id := Room(code, expiresAt)];
      index := index[id := expiresAt];
      indexExpiresAt := NewestOf(index);
      return Allocated;
    }

    /** createAppRoom: a code of the caller's choice is tried once, random codes five times. */
    method CreateAppRoom(now: nat, chosen: Option<Code>, random: seq<Code>, id: RoomId,
        expiresAt: nat) returns (outcome: Created, code: Code)
      requires |random| == ATTEMPTS && id !in rooms
      modifies this
      ensures outcome.Allocated? ==> State() == Create(old(State()), now, code, id, expiresAt).0
      ensures outcome.Allocated? ==> if chosen.Some? then code == chosen.value else code in random
      ensures !outcome.Allocated? ==> codes == old(codes) && rooms == old(rooms)
      ensures outcome.QuotaExceeded? <==> |Swept(old(State()), now)| >= MAX_ACTIVE_PER_APP
      ensures outcome.CodeTaken? ==>
        if chosen.Some? then CodeLive(old(State()), chosen.value, now)
        else forall k :: 0 <= k < ATTEMPTS ==> CodeLive(old(State()), random[k], now)
    {
      code := chosen.GetOr(random[0]);
      for attempt := 0 to ATTEMPTS
        invariant codes == old(codes) && rooms == old(rooms)
        invariant if attempt == 0 then State() == old(State())
                  else State() == old(State()).(index := Swept(old(State()), now)) && |index| < MAX_ACTIVE_PER_APP
        invariant chosen.Some? ==> code == chosen.value && (attempt > 0 ==> CodeLive(old(State()), chosen.value, now))
        invariant chosen.None? ==> code in random
        invariant chosen.None? ==> forall k :: 0 <= k < attempt ==> CodeLive(old(State()), random[k], now)
        invariant attempt == 0 ==> code == chosen.GetOr(random[0])
      {
        if attempt > 0 && chosen.Some? {
          return CodeTaken, code;
        }
        if attempt > 0 {
          code := random[attempt];
        }
        SweptTwice(State(), now);
        SweptTwice(old(State()), now);
        outcome := CreateScript(now, code, id, expiresAt);
        if !outcome.CodeTaken? {
          return outcome, code;
        }
      }
      outcome := CodeTaken;
    }
  }

  lemma SweptTwice(k: Keys, now: nat)
    ensures Swept(k.(index := Swept(k, now)), now) == Swept(k, now)
  {
  }

  method NewestOf(index: map<RoomId, nat>) returns (score: nat)
    ensures score == Newest(index)
  {
    score := 0;
    var rest := index.Keys;
    while rest != {}
      invariant rest <= index.Keys
      invariant forall id :: id in index && id !in rest ==> index[id] <= score
      invariant score == 0 || exists id :: id in index && index[id] == score
      decreases |rest|
    {
      var id :| id in rest;
      rest := rest - {id};
      if index[id] > score {
        score := index[id];
      }
    }
    if index != map[] {
      ghost var id :| id in index && index[id] == Newest(index);
    }
  }
}
