/**
 The recoverable snapshot of one session's live stream (apps/agent/src/redis.ts,
 cacheSessionStreamSnapshot and cacheSessionTurnLifecycleSnapshot): a local copy, written
 through to Redis at most once per interval.
 */
module StreamSnapshot {
  import opened Common

  const WRITE_INTERVAL_MS := 500

  /** A message's content blocks as JSON text. */
  type Content = string

  type TurnId = string

  datatype Message = Message(messageId: Option<string>, ordinal: Option<int>, content: Content)

  datatype Identity = ByOrdinal(ordinal: int) | ByMessageId(messageId: string)

  /** getSnapshotIdentityKey */
  function IdentityOf(m: Message): Option<Identity> {
    if m.ordinal.Some? then Some(ByOrdinal(m.ordinal.value))
    else if m.messageId.Some? && m.messageId.value != "" then Some(ByMessageId(m.messageId.value))
    else None
  }

  /** getSnapshotMessageKey: an unidentified message is keyed by its content. */
  predicate SameKey(a: Message, b: Message) {
    match (IdentityOf(a), IdentityOf(b))
    case (None, None) => a.content == b.content
    case (x, y) => x == y
  }

  /** isSameSnapshotMessage */
  predicate SameMessage(a: Message, b: Message) {
    IdentityOf(a) == IdentityOf(b)
  }

  function FindIndex(messages: seq<Message>, message: Message): (index: int)
    ensures -1 <= index < |messages|
    ensures index >= 0 ==> SameKey(messages[index], message)
    ensures forall k :: 0 <= k < (if index >= 0 then index else |messages|) ==> !SameKey(messages[k], message)
  {
    if messages == [] then -1
    else
      var index := FindIndex(messages[..|messages| - 1], message);
      if index >= 0 then index else if SameKey(messages[|messages| - 1], message) then |messages| - 1 else -1
  }

  /** upsertSnapshotMessage */
  function Upsert(messages: seq<Message>, message: Message): seq<Message> {
    var index := FindIndex(messages, message);
    if index < 0 then messages + [message] else messages[index := message]
  }

  datatype Snapshot = Snapshot(turnId: Option<TurnId>, seqNo: int, current: Message, intermediate: seq<Message>,
      lifecycle: Option<string>)

  datatype StreamEvent = StreamEvent(turnId: Option<TurnId>, seqNo: int, baseSeq: int, turnEnd: bool, message: Message)

  function OfTurn(existing: Option<Snapshot>, turnId: Option<TurnId>): Option<Snapshot> {
    if existing.Some? && existing.value.turnId == turnId then existing else None
  }

  predicate MessageChanged(existing: Option<Snapshot>, e: StreamEvent) {
    var same := OfTurn(existing, e.turnId);
    same.Some? && !SameMessage(same.value.current, e.message)
  }

  function Streamed(existing: Option<Snapshot>, e: StreamEvent): Snapshot {
    var same := OfTurn(existing, e.turnId);
    var intermediate :=
      if same.None? then []
      else if MessageChanged(existing, e) then Upsert(same.value.intermediate, same.value.current)
      else same.value.intermediate;
    Snapshot(e.turnId, e.seqNo, e.message, intermediate, None)
  }

  const NO_MESSAGE := Message(None, None, "[]")

  function Lifecycled(existing: Option<Snapshot>, turnId: Option<TurnId>, phase: string): Snapshot {
    match OfTurn(existing, turnId)
    case Some(same) => same.(lifecycle := Some(phase))
    case None => Snapshot(turnId, 0, NO_MESSAGE, [], Some(phase))
  }

  // ---------------------------------------------------------------- local copy and Redis

  datatype Local = Local(snapshot: Snapshot, lastPersistedAt: int, timer: Option<int>)

  datatype World = World(now: nat, local: Option<Local>, stored: Option<Snapshot>)

  const EMPTY := World(0, None, None)

  /** getLocalSessionStreamSnapshot: the local copy, or the stored one unless a stream starts afresh. */
  function Existing(w: World, baseSeq: int): Option<Snapshot> {
    if w.local.Some? then Some(w.local.value.snapshot) else if baseSeq == 0 then None else w.stored
  }

  /** The local entry as `getLocal...` leaves it, for its times. */
  function Entry(w: World, baseSeq: int): Option<Local> {
    if w.local.None? && baseSeq != 0 && w.stored.Some? then Some(Local(w.stored.value, w.now, None)) else w.local
  }

  function PersistNow(w: World): World {
    if w.local.None? then w
    else w.(local := Some(w.local.value.(timer := None, lastPersistedAt := w.now)),
      stored := Some(w.local.value.snapshot))
  }

  function SchedulePersist(w: World, force: bool): World {
    if w.local.None? then w
    else if force || w.now - w.local.value.lastPersistedAt >= WRITE_INTERVAL_MS then PersistNow(w)
    else if w.local.value.timer.Some? then w
    else w.(local := Some(w.local.value.(timer := Some(w.local.value.lastPersistedAt + WRITE_INTERVAL_MS))))
  }

  function PutLocal(w: World, entry: Option<Local>, snapshot: Snapshot): World {
    w.(local := Some(if entry.Some? then entry.value.(snapshot := snapshot) else Local(snapshot, 0, None)))
  }

  /** clearSessionStreamSnapshot drops any snapshot, or only one of the named turn. */
  predicate Clears(onlyTurn: Option<TurnId>, s: Snapshot) {
    onlyTurn.None? || onlyTurn == Some("") || s.turnId == onlyTurn
  }

  datatype Event =
    | Stream(e: StreamEvent)
    | Lifecycle(turnId: Option<TurnId>, phase: string)
    | Advance(ms: nat)
    | TimerFires
    | Evict
    | Clear(onlyTurn: Option<TurnId>)

  function Next(w: World, event: Event): World {
    match event
    case Stream(e) =>
      if e.seqNo <= 0 then w
      else
        SchedulePersist(PutLocal(w, Entry(w, e.baseSeq), Streamed(Existing(w, e.baseSeq), e)),
                        e.baseSeq == 0 || e.turnEnd || MessageChanged(Existing(w, e.baseSeq), e))
    case Lifecycle(turnId, phase) =>
      SchedulePersist(PutLocal(w, Entry(w, 1), Lifecycled(Existing(w, 1), turnId, phase)), true)
    case Advance(ms) => w.(now := w.now + ms)
    case TimerFires =>
      if w.local.Some? && w.local.value.timer.Some? && w.local.value.timer.value <= w.now then PersistNow(w) else w
    case Evict => if w.local.Some? && w.local.value.timer.None? then w.(local := None) else w
    case Clear(onlyTurn) =>
      w.(local := if w.local.Some? && Clears(onlyTurn, w.local.value.snapshot) then None else w.local,
         stored := if w.stored.Some? && Clears(onlyTurn, w.stored.value) then None else w.stored)
  }

  // ---------------------------------------------------------------- the simple picture

  /** The current turn with the latest content of each of its identified messages. */
  datatype Picture = NoTurn | Turn(turnId: Option<TurnId>, latest: map<Identity, Content>)

  function Remember(latest: map<Identity, Content>, m: Message): map<Identity, Content> {
    if IdentityOf(m).Some? then latest[IdentityOf(m).value := m.content] else latest
  }

  function Follow(p: Picture, event: Event): Picture {
    match event
    case Stream(e) =>
      if e.seqNo <= 0 then p
      else Turn(e.turnId, Remember(if p.Turn? && p.turnId == e.turnId then p.latest else map[], e.message))
    case Lifecycle(turnId, _) => if p.Turn? && p.turnId == turnId then p else Turn(turnId, map[])
    case Clear(onlyTurn) =>
      if p.Turn? && (onlyTurn.None? || onlyTurn == Some("") || p.turnId == onlyTurn) then NoTurn else p
    case _ => p
  }

  function Latest(messages: seq<Message>): map<Identity, Content> {
    if messages == [] then map[] else Remember(Latest(messages[..|messages| - 1]), messages[|messages| - 1])
  }

  /** What a reader rebuilds: intermediate messages, overridden by the current one. */
  function View(s: Snapshot): map<Identity, Content> {
    Remember(Latest(s.intermediate), s.current)
  }

  function Seen(w: World): Picture {
    if w.local.Some? then Turn(w.local.value.snapshot.turnId, View(w.local.value.snapshot))
    else if w.stored.Some? then Turn(w.stored.value.turnId, View(w.stored.value))
    else NoTurn
  }

  ghost predicate UniqueIdentities(messages: seq<Message>) {
    forall i, j :: 0 <= i < j < |messages| && IdentityOf(messages[i]).Some? ==>
      IdentityOf(messages[i]) != IdentityOf(messages[j])
  }

  lemma {:induction false} LatestAt(messages: seq<Message>, id: Identity)
    requires UniqueIdentities(messages)
    ensures forall k :: 0 <= k < |messages| && IdentityOf(messages[k]) == Some(id) ==>
      id in Latest(messages) && Latest(messages)[id] == messages[k].content
    ensures id in Latest(messages) ==> exists k :: 0 <= k < |messages| && IdentityOf(messages[k]) == Some(id)
  {
    if messages != [] {
      var front := messages[..|messages| - 1];
      LatestAt(front, id);
      assert forall k :: 0 <= k < |front| ==> front[k] == messages[k];
    }
  }

  lemma {:induction false} UpsertKeepsUnique(messages: seq<Message>, m: Message)
    requires UniqueIdentities(messages)
    ensures UniqueIdentities(Upsert(messages, m))
  {
    var after := Upsert(messages, m);
    var index := FindIndex(messages, m);
    forall i, j | 0 <= i < j < |after| && IdentityOf(after[i]).Some?
      ensures IdentityOf(after[i]) != IdentityOf(after[j])
    {
      if index >= 0 {
        assert IdentityOf(after[i]) == IdentityOf(messages[i]) && IdentityOf(after[j]) == IdentityOf(messages[j]);
      } else if j == |messages| {
        assert !SameKey(messages[i], m);
      }
    }
  }

  /** Replacing a message by one of the same identity changes what is latest for that identity only. */
  lemma {:induction false} ReplaceRemembers(messages: seq<Message>, index: nat, m: Message)
    requires UniqueIdentities(messages) && index < |messages| && IdentityOf(messages[index]) == IdentityOf(m)
    ensures Latest(messages[index := m]) == Remember(Latest(messages), m)
  {
    var last := |messages| - 1;
    var front := messages[..last];
    if index == last {
      assert messages[index := m][..last] == front;
    } else {
      assert messages[index := m][..last] == front[index := m];
      ReplaceRemembers(front, index, m);
      assert IdentityOf(messages[index]).Some? ==> IdentityOf(messages[index]) != IdentityOf(messages[last]);
    }
  }

  /** Upserting keeps identities unique and records the message as the latest under its identity. */
  lemma {:induction false} UpsertRemembers(messages: seq<Message>, m: Message)
    requires UniqueIdentities(messages)
    ensures UniqueIdentities(Upsert(messages, m))
    ensures Latest(Upsert(messages, m)) == Remember(Latest(messages), m)
  {
    UpsertKeepsUnique(messages, m);
    var index := FindIndex(messages, m);
    if index < 0 {
      PushRemembers(messages, m);
    } else {
      SameKeySameIdentity(messages[index], m);
      ReplaceRemembers(messages, index, m);
    }
  }

  lemma PushRemembers(messages: seq<Message>, m: Message)
    ensures Latest(messages + [m]) == Remember(Latest(messages), m)
  {
    assert (messages + [m])[..|messages|] == messages;
  }

  lemma SameKeySameIdentity(a: Message, b: Message)
    requires SameKey(a, b)
    ensures IdentityOf(a) == IdentityOf(b)
  {
  }

  ghost predicate Inv(w: World) {
    && (w.local.Some? ==> UniqueIdentities(w.local.value.snapshot.intermediate))
    && (w.stored.Some? ==> UniqueIdentities(w.stored.value.intermediate))
    && (w.local.Some? && w.local.value.timer.None? ==> w.stored == Some(w.local.value.snapshot))
  }

  /** The snapshot holds an identified message besides `m`. */
  ghost predicate HoldsOther(s: Snapshot, m: Message) {
    exists other :: other in s.intermediate + [s.current] && IdentityOf(other).Some? &&
      IdentityOf(other) != IdentityOf(m)
  }

  /**
   A stream starts afresh, while the local copy is gone, on a turn of which Redis still holds
   another message.
   */
  ghost predicate ForgetsTurn(w: World, event: Event) {
    event.Stream? && event.e.seqNo > 0 && event.e.baseSeq == 0 && w.local.None? && w.stored.Some?
    && w.stored.value.turnId == event.e.turnId
    && HoldsOther(w.stored.value, event.e.message)
  }

  /** A turn is cleared before its first write, while Redis still holds the turn before it. */
  predicate RevivesTurn(w: World, event: Event) {
    event.Clear? && w.local.Some? && Clears(event.onlyTurn, w.local.value.snapshot)
    && w.stored.Some? && !Clears(event.onlyTurn, w.stored.value)
  }

  ghost predicate Departs(w: World, event: Event) {
    ForgetsTurn(w, event) || RevivesTurn(w, event)
  }

  lemma ViewHolds(s: Snapshot, id: Identity)
    requires UniqueIdentities(s.intermediate)
    ensures id in View(s) <==> exists m :: m in s.intermediate + [s.current] && IdentityOf(m) == Some(id)
  {
    LatestAt(s.intermediate, id);
    if k :| 0 <= k < |s.intermediate| && IdentityOf(s.intermediate[k]) == Some(id) {
      assert s.intermediate[k] in s.intermediate + [s.current];
    }
    if IdentityOf(s.current) == Some(id) {
      assert s.current in s.intermediate + [s.current];
    }
  }

  /** Starting afresh with `m` loses what the snapshot holds exactly when it holds another message. */
  lemma FreshLosesOther(s: Snapshot, m: Message)
    requires UniqueIdentities(s.intermediate)
    ensures Remember(View(s), m) == Remember(map[], m) <==> !HoldsOther(s, m)
  {
    if other :| other in s.intermediate + [s.current] && IdentityOf(other).Some? && IdentityOf(other) != IdentityOf(m) {
      ViewHolds(s, IdentityOf(other).value);
      assert IdentityOf(other).value in Remember(View(s), m);
      assert IdentityOf(other).value !in Remember(map[], m);
    } else {
      forall id | id in View(s)
        ensures IdentityOf(m) == Some(id)
      {
        ViewHolds(s, id);
      }
      assert Remember(View(s), m) == Remember(map[], m);
    }
  }

  lemma StreamedView(existing: Option<Snapshot>, e: StreamEvent)
    requires existing.Some? ==> UniqueIdentities(existing.value.intermediate)
    ensures UniqueIdentities(Streamed(existing, e).intermediate)
    ensures View(Streamed(existing, e)) ==
            Remember(if OfTurn(existing, e.turnId).Some? then View(existing.value) else map[], e.message)
  {
    if MessageChanged(existing, e) {
      UpsertRemembers(existing.value.intermediate, existing.value.current);
    }
  }

  lemma NextKeepsInv(w: World, event: Event)
    requires Inv(w)
    ensures Inv(Next(w, event))
  {
    if event.Stream? {
      StreamedView(Existing(w, event.e.baseSeq), event.e);
    }
  }

  /**
   One step follows the simple picture exactly when it neither forgets the turn nor brings the
   turn before it back.
   */
  lemma StepRefinesIff(w: World, event: Event)
    requires Inv(w)
    ensures Seen(Next(w, event)) == Follow(Seen(w), event) <==> !Departs(w, event)
  {
    if event.Stream? {
      StreamRefinesIff(w, event.e);
    } else if event.Lifecycle? {
      assert View(Lifecycled(None, event.turnId, event.phase)) == map[];
    }
  }

  lemma StreamRefinesIff(w: World, e: StreamEvent)
    requires Inv(w)
    ensures Seen(Next(w, Stream(e))) == Follow(Seen(w), Stream(e)) <==> !ForgetsTurn(w, Stream(e))
  {
    StreamedView(Existing(w, e.baseSeq), e);
    if w.local.None? && w.stored.Some? {
      FreshLosesOther(w.stored.value, e.message);
    }
  }

  function Run(w: World, events: seq<Event>): World {
    if events == [] then w else Next(Run(w, events[..|events| - 1]), events[|events| - 1])
  }

  function Pictured(p: Picture, events: seq<Event>): Picture {
    if events == [] then p else Follow(Pictured(p, events[..|events| - 1]), events[|events| - 1])
  }

  ghost predicate NeverDeparts(w: World, events: seq<Event>) {
    forall k :: 0 <= k < |events| ==> !Departs(Run(w, events[..k]), events[k])
  }

  ghost predicate ShowsPictureThroughout(events: seq<Event>) {
    forall k :: 0 <= k <= |events| ==> Seen(Run(EMPTY, events[..k])) == Pictured(NoTurn, events[..k])
  }

  lemma {:induction false} RunKeepsInv(events: seq<Event>)
    ensures Inv(Run(EMPTY, events))
  {
    if events != [] {
      RunKeepsInv(events[..|events| - 1]);
      NextKeepsInv(Run(EMPTY, events[..|events| - 1]), events[|events| - 1]);
    }
  }

  lemma RunStep(events: seq<Event>, k: nat)
    requires k < |events|
    ensures Run(EMPTY, events[..k + 1]) == Next(Run(EMPTY, events[..k]), events[k])
    ensures Pictured(NoTurn, events[..k + 1]) == Follow(Pictured(NoTurn, events[..k]), events[k])
  {
    assert events[..k + 1][..k] == events[..k];
  }

  lemma {:induction false} ShowsPictureSoFar(events: seq<Event>, k: nat)
    requires k <= |events| && NeverDeparts(EMPTY, events)
    ensures Seen(Run(EMPTY, events[..k])) == Pictured(NoTurn, events[..k])
  {
    if k > 0 {
      ShowsPictureSoFar(events, k - 1);
      RunStep(events, k - 1);
      RunKeepsInv(events[..k - 1]);
      StepRefinesIff(Run(EMPTY, events[..k - 1]), events[k - 1]);
    }
  }

  lemma DepartureShows(events: seq<Event>, k: nat)
    requires k < |events| && Departs(Run(EMPTY, events[..k]), events[k])
    ensures !ShowsPictureThroughout(events)
  {
    RunKeepsInv(events[..k]);
    StepRefinesIff(Run(EMPTY, events[..k]), events[k]);
    RunStep(events, k);
    if Seen(Run(EMPTY, events[..k])) == Pictured(NoTurn, events[..k]) {
      assert Seen(Run(EMPTY, events[..k + 1])) != Pictured(NoTurn, events[..k + 1]);
    }
  }

  /**
   The snapshot shows, at every moment of a run of stream and lifecycle events, writes,
   evictions and clears, the latest content of every identified message of the current turn, exactly when no step
   forgets a turn or brings an older one back.
   */
  lemma SnapshotRefinesPicture(events: seq<Event>)
    ensures ShowsPictureThroughout(events) <==> NeverDeparts(EMPTY, events)
  {
    if NeverDeparts(EMPTY, events) {
      forall k | 0 <= k <= |events|
        ensures Seen(Run(EMPTY, events[..k])) == Pictured(NoTurn, events[..k])
      {
        ShowsPictureSoFar(events, k);
      }
    }
    if k :| 0 <= k < |events| && Departs(Run(EMPTY, events[..k]), events[k]) {
      DepartureShows(events, k);
    }
  }

  /** While the local copy is never dropped, nothing is forgotten. */
  lemma {:induction false} HeldCopyNeverForgets(events: seq<Event>)
    requires forall e :: e in events ==> !e.Evict? && !e.Clear?
    ensures NeverDeparts(EMPTY, events)
  {
    forall k | 0 <= k < |events|
      ensures !Departs(Run(EMPTY, events[..k]), events[k])
    {
      CopyIsHeld(events[..k]);
      assert events[k] in events;
    }
  }

  lemma {:induction false} CopyIsHeld(events: seq<Event>)
    requires forall e :: e in events ==> !e.Evict? && !e.Clear?
    ensures Run(EMPTY, events).stored.Some? ==> Run(EMPTY, events).local.Some?
  {
    if events != [] {
      CopyIsHeld(events[..|events| - 1]);
      assert events[|events| - 1] in events;
    }
  }

  /** A turn's first message disappears when its stream restarts after an eviction. */
  lemma RestartForgetsTurn() returns (events: seq<Event>)
    ensures |events| == 3 && ForgetsTurn(Run(EMPTY, events[..2]), events[2])
    ensures var first := events[0]; first.Stream? && IdentityOf(first.e.message) == Some(ByOrdinal(1))
    ensures var shown, pictured := Seen(Run(EMPTY, events)), Pictured(NoTurn, events);
      && shown.Turn? && pictured.Turn? && shown.turnId == pictured.turnId
      && ByOrdinal(1) in pictured.latest && ByOrdinal(1) !in shown.latest
    ensures !ShowsPictureThroughout(events)
  {
    var turn := Some("turn");
    var one, two := Message(None, Some(1), "one"), Message(None, Some(2), "two");
    events := [Stream(StreamEvent(turn, 1, 0, false, one)), Evict, Stream(StreamEvent(turn, 1, 0, false, two))];
    var first := Streamed(None, events[0].e);
    RunStep(events, 0);
    RunStep(events, 1);
    RunStep(events, 2);
    assert Run(EMPTY, events[..0]) == EMPTY && Pictured(NoTurn, events[..0]) == NoTurn && events[..3] == events;
    assert Run(EMPTY, events[..1]).local.value.timer.None?;
    assert Run(EMPTY, events[..2]).stored == Some(first) && Run(EMPTY, events[..2]).local.None?;
    assert first.current in first.intermediate + [first.current] && HoldsOther(first, two);
    assert Pictured(NoTurn, events[..1]) == Pictured(NoTurn, events[..2]) == Turn(turn, map[ByOrdinal(1) := "one"]);
    assert Seen(Run(EMPTY, events)) == Turn(turn, map[ByOrdinal(2) := "two"]);
    assert Departs(Run(EMPTY, events[..2]), events[2]);
    SnapshotRefinesPicture(events);
  }

  /** An older turn reappears when a turn is cleared whose first write is still pending. */
  lemma EarlyClearRevivesTurn() returns (events: seq<Event>)
    ensures !ShowsPictureThroughout(events)
    ensures forall k :: 0 <= k < |events| ==> !ForgetsTurn(Run(EMPTY, events[..k]), events[k])
  {
    var older, young := Some("old"), Some("young");
    events := [Stream(StreamEvent(older, 1, 0, false, Message(None, Some(1), "one"))),
               Stream(StreamEvent(young, 2, 1, false, Message(None, Some(2), "two"))),
               Clear(young)];
    var first := Streamed(None, events[0].e);
    RunStep(events, 0);
    RunStep(events, 1);
    assert Run(EMPTY, events[..0]) == EMPTY;
    assert Run(EMPTY, events[..1]).local.value.timer.None?;
    assert Run(EMPTY, events[..1]).stored == Some(first);
    assert Run(EMPTY, events[..2]).stored == Some(first);
    assert Run(EMPTY, events[..2]).local.value.snapshot.turnId == young;
    assert Departs(Run(EMPTY, events[..2]), events[2]);
    SnapshotRefinesPicture(events);
  }

  // ---------------------------------------------------------------- what one event stores

  /** Two messages are one message when they share an ordinal or, both without one, an id; an empty id is none. */
  lemma SameMessageIff(a: Message, b: Message)
    ensures a.ordinal.Some? || b.ordinal.Some? ==> (SameMessage(a, b) <==> a.ordinal == b.ordinal)
    ensures a.ordinal.None? && b.ordinal.None? ==>
      (SameMessage(a, b) <==> a.messageId == b.messageId || {a.messageId, b.messageId} == {None, Some("")})
  {
    if {a.messageId, b.messageId} == {None, Some("")} {
      assert a.messageId in {a.messageId, b.messageId} && b.messageId in {a.messageId, b.messageId};
    } else if a.messageId != b.messageId {
      assert a.messageId == None ==> b.messageId != Some("");
    }
  }

  /** Messages without identity are told apart by content, and never taken for one that has an identity. */
  lemma UnidentifiedKey(a: Message, b: Message)
    requires a.ordinal.None? && (a.messageId.None? || a.messageId == Some(""))
    ensures SameKey(a, b) <==>
      b.ordinal.None? && (b.messageId.None? || b.messageId == Some("")) && a.content == b.content
  {
  }

  /** Upserting puts the message in the place of its key's, or last, and touches no other. */
  lemma UpsertPlaces(messages: seq<Message>, m: Message)
    ensures var after := Upsert(messages, m);
      && m in after && |messages| <= |after| <= |messages| + 1
      && (|after| == |messages| <==> exists k :: 0 <= k < |messages| && SameKey(messages[k], m))
      && (forall k :: 0 <= k < |messages| ==> after[k] == messages[k] || (after[k] == m && SameKey(messages[k], m)))
  {
    var index := FindIndex(messages, m);
    assert Upsert(messages, m)[if index < 0 then |messages| else index] == m;
  }

  /** A stream event makes its message current; the same turn's message before it moves to the intermediate ones. */
  lemma StreamEventStores(w: World, e: StreamEvent)
    ensures e.seqNo <= 0 ==> Next(w, Stream(e)) == w
    ensures e.seqNo > 0 ==>
      var before, after := Existing(w, e.baseSeq), Next(w, Stream(e)).local;
      && after.Some?
      && after.value.snapshot.turnId == e.turnId && after.value.snapshot.seqNo == e.seqNo
      && after.value.snapshot.current == e.message && after.value.snapshot.lifecycle == None
      && after.value.snapshot.intermediate == (
        if before.None? || before.value.turnId != e.turnId then []
        else if SameMessage(before.value.current, e.message) then before.value.intermediate
        else Upsert(before.value.intermediate, before.value.current))
  {
  }

  /** A lifecycle event records the phase at once; the turn's messages and sequence number stay. */
  lemma LifecycleStores(w: World, turnId: Option<TurnId>, phase: string)
    ensures var held := if w.local.Some? then Some(w.local.value.snapshot) else w.stored;
      var after := Next(w, Lifecycle(turnId, phase));
      && after.stored.Some? && after.stored.value.turnId == turnId && after.stored.value.lifecycle == Some(phase)
      && after.local == Some(Local(after.stored.value, w.now, None))
      && (held.Some? && held.value.turnId == turnId ==>
            && after.stored.value.seqNo == held.value.seqNo && after.stored.value.current == held.value.current
            && after.stored.value.intermediate == held.value.intermediate)
      && (held.None? || held.value.turnId != turnId ==>
            after.stored.value.seqNo == 0 && View(after.stored.value) == map[])
  {
  }

  /** A pending write is due one interval after the last one. */
  ghost predicate Throttled(w: World) {
    w.local.Some? ==>
      && w.local.value.lastPersistedAt <= w.now
      && (w.local.value.timer.Some? ==> w.local.value.timer == Some(w.local.value.lastPersistedAt + WRITE_INTERVAL_MS))
  }

  lemma {:induction false} RunIsThrottled(events: seq<Event>)
    ensures Throttled(Run(EMPTY, events))
  {
    if events != [] {
      RunIsThrottled(events[..|events| - 1]);
    }
  }

  /** Redis has the new snapshot at once, or a timer will write it within one interval. */
  lemma RedisCatchesUp(w: World, e: StreamEvent)
    requires Throttled(w) && e.seqNo > 0
    ensures var after := Next(w, Stream(e));
      && after.local.Some? && after.now == w.now
      && (after.local.value.timer.None? ==>
            after.stored == Some(after.local.value.snapshot) && after.local.value.lastPersistedAt == w.now)
      && (after.local.value.timer.Some? ==>
            after.stored == w.stored && w.now < after.local.value.timer.value <= w.now + WRITE_INTERVAL_MS)
  {
  }

  /**
   Which stream events write at once: the first of a stream, the last, one of another message, and one
   that comes late.
   */
  lemma WritesAtOnceIff(w: World, e: StreamEvent)
    requires Throttled(w) && e.seqNo > 0
    ensures var held := Existing(w, e.baseSeq);
      var since := if w.local.Some? then w.local.value.lastPersistedAt else if held.Some? then w.now else 0;
      Next(w, Stream(e)).local.value.timer.None? <==>
        || e.baseSeq == 0 || e.turnEnd
        || (held.Some? && held.value.turnId == e.turnId && !SameMessage(held.value.current, e.message))
        || w.now - since >= WRITE_INTERVAL_MS
  {
  }

  /**
   The timer writes the local copy exactly when it is due, and the local copy is dropped exactly when
   it has no timer.
   */
  lemma TimerWrites(w: World)
    requires w.local.Some?
    ensures var held := w.local.value;
      Next(w, TimerFires) ==
        if held.timer.Some? && held.timer.value <= w.now
        then World(w.now, Some(Local(held.snapshot, w.now, None)), Some(held.snapshot))
        else w
    ensures Next(w, Evict) == if w.local.value.timer.None? then World(w.now, None, w.stored) else w
  {
  }

  /** What is pending is written once its time has come, unless the copy is cleared before. */
  lemma PendingWriteHappens(w: World, ms: nat)
    requires w.local.Some? && w.local.value.timer.Some? && w.now + ms >= w.local.value.timer.value
    ensures var later := Next(Next(w, Advance(ms)), TimerFires);
      && later.stored == Some(w.local.value.snapshot) && later.now == w.now + ms
      && later.local == Some(Local(w.local.value.snapshot, later.now, None))
  {
  }

  // ---------------------------------------------------------------- as the source updates it

  /** One session's entry in the process, and the value of its key in Redis. */
  class SnapshotCache {
    var snapshot: Option<Snapshot>
    var lastPersistedAt: int
    var persistTimer: Option<int>
    var stored: Option<Snapshot>

    function State(now: nat): World
      reads this
    {
      World(now, if snapshot.Some? then Some(Local(snapshot.value, lastPersistedAt, persistTimer)) else None, stored)
    }

    constructor ()
      ensures State(0) == EMPTY
    {
      snapshot, lastPersistedAt, persistTimer, stored := None, 0, None, None;
    }

    method Persist(now: nat)
      modifies this
      ensures State(now) == PersistNow(old(State(now)))
    {
      if snapshot.Some? {
        persistTimer := None;
        stored := snapshot;
        lastPersistedAt := now;
      }
    }

    method Schedule(now: nat, force: bool)
      modifies this
      ensures State(now) == SchedulePersist(old(State(now)), force)
    {
      if snapshot.None? { return; }
      if force {
        Persist(now);
        return;
      }
      var elapsed := now - lastPersistedAt;
      if elapsed >= WRITE_INTERVAL_MS {
        Persist(now);
        return;
      }
      if persistTimer.Some? { return; }
      persistTimer := Some(now + WRITE_INTERVAL_MS - elapsed);
    }

    method GetLocal(now: nat, baseSeq: int) returns (existing: Option<Snapshot>)
      modifies this
      ensures existing == Existing(old(State(now)), baseSeq)
      ensures State(now) == old(State(now)).(local := Entry(old(State(now)), baseSeq))
    {
      if snapshot.Some? { return snapshot; }
      if baseSeq == 0 || stored.None? { return None; }
      snapshot, lastPersistedAt, persistTimer := stored, now, None;
      return stored;
    }

    method Put(now: nat, next: Snapshot)
      modifies this
      ensures State(now) == PutLocal(old(State(now)), old(State(now)).local, next)
    {
      if snapshot.None? {
        lastPersistedAt, persistTimer := 0, None;
      }
      snapshot := Some(next);
    }

    method CacheStream(now: nat, e: StreamEvent)
      modifies this
      ensures State(now) == Next(old(State(now)), Stream(e))
    {
      if e.seqNo <= 0 { return; }
      var existing := GetLocal(now, e.baseSeq);
      var same := if existing.Some? && existing.value.turnId == e.turnId then existing else None;
      var messageChanged := same.Some? && !SameMessage(same.value.current, e.message);
      var intermediate := [];
      if same.Some? {
        intermediate := same.value.intermediate;
        if messageChanged {
          intermediate := Upsert(intermediate, same.value.current);
        }
      }
      Put(now, Snapshot(e.turnId, e.seqNo, e.message, intermediate, None));
      Schedule(now, e.baseSeq == 0 || e.turnEnd || messageChanged);
    }

    method CacheLifecycle(now: nat, turnId: Option<TurnId>, phase: string)
      modifies this
      ensures State(now) == Next(old(State(now)), Lifecycle(turnId, phase))
    {
      var existing := GetLocal(now, 1);
      if existing.Some? && existing.value.turnId == turnId {
        Put(now, existing.value.(lifecycle := Some(phase)));
      } else {
        Put(now, Snapshot(turnId, 0, NO_MESSAGE, [], Some(phase)));
      }
      Schedule(now, true);
    }

    method TimerDue(now: nat)
      modifies this
      ensures State(now) == Next(old(State(now)), TimerFires)
    {
      if snapshot.Some? && persistTimer.Some? && persistTimer.value <= now {
        persistTimer := None;
        Persist(now);
      }
    }

    method Clear(now: nat, onlyTurn: Option<TurnId>)
      modifies this
      ensures State(now) == Next(old(State(now)), Event.Clear(onlyTurn))
    {
      if snapshot.Some? && (onlyTurn.None? || onlyTurn == Some("") || snapshot.value.turnId == onlyTurn) {
        snapshot := None;
      }
      if stored.Some? && (onlyTurn.None? || onlyTurn == Some("") || stored.value.turnId == onlyTurn) {
        stored := None;
      }
    }

    method Prune(now: nat)
      modifies this
      ensures State(now) == Next(old(State(now)), Evict)
    {
      if snapshot.Some? && persistTimer.None? {
        snapshot := None;
      }
    }
  }
}
