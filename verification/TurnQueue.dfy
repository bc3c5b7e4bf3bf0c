/**
 The turns of one session (apps/agent/src/batch.ts, apps/agent/src/persistence.ts): queueing,
 claiming, stale recovery, interrupting, finalizing, failing and renumbering. Every
 transaction and every conditional UPDATE is one atomic step.
 */
module TurnQueue {
  import opened Common
  import CompactionShift

  type TurnId = nat

  datatype Kind = Agent | DirectGeneration

  datatype Status = Queued | Running | AbortRequested | Merged | Interrupted | Completed | Failed | Cancelled

  datatype Intent = Steer | Followup | Compact

  /** A user message is named by the turn's metadata, or else by the turn itself. */
  datatype MessageId = Named(text: string) | OfTurn(turn: TurnId)

  datatype Batch = Batch(
    ownerTurnId: TurnId,
    turnIds: seq<TurnId>,
    mergedTurnIds: seq<TurnId>,
    userMessageIds: seq<MessageId>,
    anchorUserMessageId: Option<MessageId>)

  datatype Meta = Meta(userMessageId: Option<string>, cohubHarness: bool, mergedInto: Option<TurnId>,
      executionBatch: Option<Batch>)

  datatype Turn = Turn(kind: Kind, status: Status, intent: Intent, sequence: int, updatedAt: int, meta: Meta)

  type Table = map<TurnId, Turn>

  /** AGENT_STALE_ACTIVE_TURN_MS */
  const STALE_ACTIVE_TURN_MS := 30 * 60_000

  // ---------------------------------------------------------------- queries

  predicate Active(turn: Turn) {
    turn.kind == Agent && (turn.status == Running || turn.status == AbortRequested)
  }

  predicate Settled(status: Status) {
    status == Completed || status == Failed || status == Cancelled || status == Interrupted || status == Merged
  }

  /** The unique index on (session, sequence). */
  ghost predicate UniqueSequences(t: Table) {
    forall a, b :: a in t && b in t && a != b ==> t[a].sequence != t[b].sequence
  }

  /** ORDER BY sequence ASC */
  function OrderBySequence(t: Table, ids: set<TurnId>): (order: seq<TurnId>)
    requires UniqueSequences(t) && ids <= t.Keys
    ensures forall id :: id in order <==> id in ids
    ensures forall i, j :: 0 <= i < j < |order| ==> t[order[i]].sequence < t[order[j]].sequence
  {
    if ids == {} then []
    else
      var first := FirstBySequence(t, ids);
      var rest := OrderBySequence(t, ids - {first});
      assert forall k :: 0 <= k < |rest| ==> rest[k] in rest && rest[k] in t;
      FirstThenRest(t, ids, first, rest);
      [first] + rest
  }

  function FirstBySequence(t: Table, ids: set<TurnId>): (first: TurnId)
    requires UniqueSequences(t) && ids <= t.Keys && ids != {}
    ensures first in ids && forall id :: id in ids ==> t[first].sequence <= t[id].sequence
  {
    FirstExists(t, ids);
    var first :| first in ids && forall id :: id in ids ==> t[first].sequence <= t[id].sequence;
    first
  }

  lemma FirstThenRest(t: Table, ids: set<TurnId>, first: TurnId, rest: seq<TurnId>)
    requires UniqueSequences(t) && ids <= t.Keys && first in ids
    requires forall id :: id in ids ==> t[first].sequence <= t[id].sequence
    requires forall id :: id in rest <==> id in ids && id != first
    requires forall k :: 0 <= k < |rest| ==> rest[k] in t
    requires forall i, j :: 0 <= i < j < |rest| ==> t[rest[i]].sequence < t[rest[j]].sequence
    ensures var order := [first] + rest;
      && (forall id :: id in order <==> id in ids)
      && (forall k :: 0 <= k < |order| ==> order[k] in t)
      && forall i, j :: 0 <= i < j < |order| ==> t[order[i]].sequence < t[order[j]].sequence
  {
    forall k | 0 <= k < |rest|
      ensures t[first].sequence < t[rest[k]].sequence
    {
      assert rest[k] in rest;
    }
    ConsOrdered(t, first, rest);
    assert forall id :: id in [first] + rest <==> id == first || id in rest;
  }

  lemma ConsOrdered(t: Table, first: TurnId, rest: seq<TurnId>)
    requires first in t && forall k :: 0 <= k < |rest| ==> rest[k] in t && t[first].sequence < t[rest[k]].sequence
    requires forall i, j :: 0 <= i < j < |rest| ==> t[rest[i]].sequence < t[rest[j]].sequence
    ensures var order := [first] + rest;
      && (forall k :: 0 <= k < |order| ==> order[k] in t)
      && forall i, j :: 0 <= i < j < |order| ==> t[order[i]].sequence < t[order[j]].sequence
  {
    var order := [first] + rest;
    assert forall k :: 0 < k < |order| ==> order[k] == rest[k - 1];
  }

  lemma {:induction false} FirstExists(t: Table, ids: set<TurnId>)
    requires ids != {} && ids <= t.Keys
    ensures exists first :: first in ids && forall id :: id in ids ==> t[first].sequence <= t[id].sequence
  {
    var any :| any in ids;
    var rest := ids - {any};
    if rest != {} {
      FirstExists(t, rest);
      var first :| first in rest && forall id :: id in rest ==> t[first].sequence <= t[id].sequence;
      var best := if t[any].sequence <= t[first].sequence then any else first;
      assert forall id :: id in ids ==> id == any || id in rest;
      assert best in ids && forall id :: id in ids ==> t[best].sequence <= t[id].sequence;
    } else {
      assert forall id :: id in ids && id != any ==> id in rest;
    }
  }

  function ActiveIds(t: Table): set<TurnId> {
    set id | id in t && Active(t[id])
  }

  /** The first unfinished direct generation holds back everything queued behind it. */
  function BlockingIds(t: Table): set<TurnId> {
    set id | id in t && t[id].kind == DirectGeneration && !Settled(t[id].status)
  }

  predicate BeforeGenerations(t: Table, id: TurnId)
    requires id in t
  {
    forall g :: g in BlockingIds(t) ==> t[id].sequence < t[g].sequence
  }

  function Claimable(t: Table, intent: Intent): set<TurnId> {
    set id | id in t && t[id].kind == Agent && t[id].status == Queued && t[id].intent == intent &&
      BeforeGenerations(t, id)
  }

  /** ORDER BY updated_at ASC, sequence ASC LIMIT 1 */
  predicate IsFirstSteer(t: Table, ids: set<TurnId>, id: TurnId)
    requires ids <= t.Keys
  {
    && id in ids
    && forall other :: other in ids ==>
         t[id].updatedAt < t[other].updatedAt || (t[id].updatedAt == t[other].updatedAt &&
           t[id].sequence <= t[other].sequence)
  }

  lemma {:induction false} FirstSteerExists(t: Table, ids: set<TurnId>)
    requires ids != {} && ids <= t.Keys
    ensures exists id :: IsFirstSteer(t, ids, id)
  {
    var any :| any in ids;
    var rest := ids - {any};
    if rest != {} {
      FirstSteerExists(t, rest);
      var first :| IsFirstSteer(t, rest, first);
      assert forall id :: id in ids ==> id == any || id in rest;
      assert IsFirstSteer(t, ids, any) || IsFirstSteer(t, ids, first);
    } else {
      forall other | other in ids
        ensures other == any
      {
        assert other !in rest;
      }
      assert IsFirstSteer(t, ids, any);
    }
  }

  function FirstSteer(t: Table, ids: set<TurnId>): TurnId
    requires UniqueSequences(t) && ids != {} && ids <= t.Keys
  {
    FirstSteerExists(t, ids);
    var id :| IsFirstSteer(t, ids, id);
    id
  }

  // ---------------------------------------------------------------- claiming

  function UserMessageId(t: Table, id: TurnId): MessageId
    requires id in t
  {
    if t[id].meta.userMessageId.Some? then Named(t[id].meta.userMessageId.value) else OfTurn(id)
  }

  function UserMessageIds(t: Table, ids: seq<TurnId>): (messages: seq<MessageId>)
    requires forall id :: id in ids ==> id in t
    ensures |messages| == |ids|
    ensures forall k :: 0 <= k < |ids| ==> messages[k] == UserMessageId(t, ids[k])
  {
    if ids == [] then [] else UserMessageIds(t, ids[..|ids| - 1]) + [UserMessageId(t, ids[|ids| - 1])]
  }

  function CreateExecutionBatch(t: Table, ids: seq<TurnId>): Batch
    requires ids != [] && forall id :: id in ids ==> id in t
  {
    var messages := UserMessageIds(t, ids);
    Batch(ids[|ids| - 1], ids, ids[..|ids| - 1], messages, Some(messages[|messages| - 1]))
  }

  function MarkStale(t: Table, id: TurnId, now: int): Table
    requires id in t
  {
    if t[id].status == Running || t[id].status == AbortRequested
    then t[id := t[id].(status := Interrupted, updatedAt := now)]
    else t
  }

  function MergeInto(turn: Turn, owner: TurnId, now: int): Turn {
    turn.(status := Merged, updatedAt := now, meta := turn.meta.(mergedInto := Some(owner)))
  }

  /** The last selected turn owns the run; the others merge into it. */
  function ClaimQueued(t: Table, ids: seq<TurnId>, now: int): Table
    requires ids != [] && forall id :: id in ids ==> id in t
  {
    var owner := ids[|ids| - 1];
    var batch := CreateExecutionBatch(t, ids);
    map id | id in t ::
      if id == owner then t[id].(status := Running, updatedAt := now,
        meta := t[id].meta.(executionBatch := Some(batch)))
      else if id in ids then MergeInto(t[id], owner, now)
      else t[id]
  }

  datatype ClaimResult = Claimed(turnIds: seq<TurnId>, batch: Batch) | Busy(active: TurnId) | Noop

  /** What is claimed once nothing is active; `take` is the length the delivery and batch limits allow. */
  function Select(t: Table, take: nat): (ids: seq<TurnId>)
    requires UniqueSequences(t) && take > 0
    ensures forall id :: id in ids ==>
      id in t && t[id].kind == Agent && t[id].status == Queued && BeforeGenerations(t, id)
    ensures forall i, j :: 0 <= i < j < |ids| ==> t[ids[i]].sequence < t[ids[j]].sequence
  {
    var steers := Claimable(t, Steer);
    if steers != {} then [FirstSteer(t, steers)]
    else
      var followups := OrderBySequence(t, Claimable(t, Followup));
      var ids := if take < |followups| then followups[..take] else followups;
      assert forall id :: id in ids ==> id in followups && id in Claimable(t, Followup);
      assert forall k :: 0 <= k < |ids| ==> ids[k] == followups[k];
      ids
  }

  function StaleRecovered(t: Table, now: int): (Table, Option<TurnId>)
    requires UniqueSequences(t)
  {
    var active := OrderBySequence(t, ActiveIds(t));
    if active == [] then (t, None)
    else if t[active[0]].meta.cohubHarness && now - t[active[0]].updatedAt > STALE_ACTIVE_TURN_MS
    then (MarkStale(t, active[0], now), None)
    else (t, Some(active[0]))
  }

  function Claim(t: Table, now: int, take: nat): (Table, ClaimResult)
    requires UniqueSequences(t) && take > 0
  {
    var (free, busy) := StaleRecovered(t, now);
    if busy.Some? then (t, Busy(busy.value))
    else
      var ids := Select(free, take);
      if ids == [] then (free, Noop)
      else (ClaimQueued(free, ids, now), Claimed(ids, CreateExecutionBatch(free, ids)))
  }

  // ---------------------------------------------------------------- recovery

  datatype LoadResult = Loaded(turnIds: seq<TurnId>, batch: Batch) | InvalidBatch | HistoryMismatch

  function Known(t: Table, ids: seq<TurnId>): set<TurnId> {
    set id | id in ids && id in t
  }

  predicate AllMergedInto(t: Table, rows: seq<TurnId>, owner: TurnId)
    requires forall id :: id in rows ==> id in t
  {
    forall k :: 0 <= k < |rows| ==> t[rows[k]].status == Merged && t[rows[k]].meta.mergedInto == Some(owner)
  }

  function LoadClaimed(t: Table, owner: TurnId): LoadResult
    requires UniqueSequences(t) && owner in t
  {
    match t[owner].meta.executionBatch
    case None => Loaded([owner], CreateExecutionBatch(t, [owner]))
    case Some(recorded) =>
      var ids := recorded.turnIds;
      if ids == [] || !Distinct(ids) || ids[|ids| - 1] != owner || recorded.ownerTurnId != owner then InvalidBatch
      else if |ids| == 1 then Loaded([owner], CreateExecutionBatch(t, [owner]))
      else
        var rows := OrderBySequence(t, Known(t, ids));
        if rows != ids || !AllMergedInto(t, rows[..|rows| - 1], owner)
        then HistoryMismatch
        else Loaded(rows, CreateExecutionBatch(t, rows))
  }

  // ---------------------------------------------------------------- every mover

  datatype Event =
    | Enqueue(id: TurnId, kind: Kind, intent: Intent, sequence: int, updatedAt: int, meta: Meta)
    | StartNative(id: TurnId, sequence: int, now: int, meta: Meta)
    | ClaimNext(now: int, take: nat)
    | RequestAbort(id: TurnId, now: int)
    | UndoAbort(id: TurnId, now: int)
    | PromoteToSteer(id: TurnId, now: int)
    | CancelQueued(id: TurnId, now: int)
    | Finalize(id: TurnId, status: Status, now: int)
    | InterruptSeen(id: TurnId, seenInterrupted: bool, now: int)
    | Fail(id: TurnId, now: int)
    | StartGeneration(id: TurnId, now: int)
    | EndGeneration(id: TurnId, status: Status, now: int)
    | CompactBefore(slot: int, id: TurnId, now: int)

  /** The table with the ghost record of what each owner claimed. */
  datatype Queue = Queue(turns: Table, claims: map<TurnId, seq<TurnId>>)

  const EMPTY := Queue(map[], map[])

  predicate FreeSequence(t: Table, sequence: int) {
    forall id :: id in t ==> t[id].sequence != sequence
  }

  /** coalesce(max(sequence), 0) + 1, or anything later: all that matters is that it is the new maximum. */
  ghost function LastSequence(t: Table): (last: int)
    ensures forall id :: id in t ==> t[id].sequence <= last
    decreases |t|
  {
    if t == map[] then 0
    else
      var id :| id in t;
      var rest := t - {id};
      assert forall other :: other in t ==> other == id || other in rest;
      var last := LastSequence(rest);
      if t[id].sequence > last then t[id].sequence else last
  }

  ghost function SetStatus(q: Queue, id: TurnId, from: set<Status>, to: Status, now: int): Queue {
    if id in q.turns && q.turns[id].status in from
    then q.(turns := q.turns[id := q.turns[id].(status := to, updatedAt := now)])
    else q
  }

  function Shift(t: Table, slot: int): Table {
    map id | id in t :: if t[id].sequence >= slot then t[id].(sequence := t[id].sequence + 1) else t[id]
  }

  ghost function Next(q: Queue, e: Event): Queue
    requires UniqueSequences(q.turns)
  {
    var t := q.turns;
    match e
    case Enqueue(id, kind, intent, sequence, updatedAt, meta) =>
      if id in t || !FreeSequence(t, sequence) then q
      else q.(turns := t[id := Turn(kind, Queued, intent, sequence, updatedAt, meta)])
    case StartNative(id, sequence, now, meta) =>
      if id in t || !FreeSequence(t, sequence) || exists other :: other in t && !Settled(t[other].status) then q
      else q.(turns := t[id := Turn(Agent, Running, Followup, sequence, now, meta)])
    case ClaimNext(now, take) =>
      if take == 0 then q
      else
        var (turns, result) := Claim(t, now, take);
        Queue(turns, if result.Claimed? then q.claims[result.batch.ownerTurnId := result.turnIds] else q.claims)
    case RequestAbort(id, now) =>
      if id in t && t[id].kind == Agent then SetStatus(q, id, {Running, AbortRequested}, AbortRequested, now) else q
    case UndoAbort(id, now) => SetStatus(q, id, {AbortRequested}, Running, now)
    case PromoteToSteer(id, now) =>
      if id in t && t[id].kind == Agent && t[id].status == Queued && t[id].intent == Followup
      then q.(turns := t[id := t[id].(sequence := LastSequence(t) + 1, intent := Steer, updatedAt := now)])
      else q
    case CancelQueued(id, now) =>
      if id in t && t[id].status == Queued && t[id].intent == Followup
      then q.(turns := t[id := t[id].(sequence := LastSequence(t) + 1, status := Cancelled, updatedAt := now)])
      else q
    case Finalize(id, status, now) =>
      if status == Completed || status == Failed || status == Interrupted
      then SetStatus(q, id, {Running, AbortRequested, Interrupted}, status, now)
      else q
    case InterruptSeen(id, seenInterrupted, now) =>
      SetStatus(q, id, if seenInterrupted then {Interrupted} else {Running, AbortRequested}, Interrupted, now)
    case Fail(id, now) => SetStatus(q, id, {Queued, Running, AbortRequested, Interrupted}, Failed, now)
    case StartGeneration(id, now) =>
      if id in t && t[id].kind == DirectGeneration then SetStatus(q, id, {Queued, Running}, Running, now) else q
    case EndGeneration(id, status, now) =>
      if id in t && t[id].kind == DirectGeneration && (status == Completed || status == Failed)
      then SetStatus(q, id, {Queued, Running}, status, now)
      else q
    case CompactBefore(slot, id, now) =>
      if id in t then q
      else q.(turns := Shift(t, slot)[id := Turn(Agent, Completed, Compact, slot, now, Meta(None, false, None, None))])
  }

  // ---------------------------------------------------------------- invariants

  ghost predicate OneActive(t: Table) {
    forall a, b :: a in t && b in t && Active(t[a]) && Active(t[b]) ==> a == b
  }

  /** The table still holds, in order, everything needed to reload the claim of `owner`. */
  ghost predicate Recorded(t: Table, owner: TurnId, ids: seq<TurnId>) {
    && ids != [] && ids[|ids| - 1] == owner
    && (forall id :: id in ids ==> id in t && t[id].status != Queued)
    && t[owner].meta.executionBatch == Some(CreateExecutionBatch(t, ids))
    && (forall k :: 0 <= k < |ids| - 1 ==> t[ids[k]].status == Merged && t[ids[k]].meta.mergedInto == Some(owner))
    && (forall i, j :: 0 <= i < j < |ids| ==> t[ids[i]].sequence < t[ids[j]].sequence)
  }

  ghost predicate Inv(q: Queue) {
    && UniqueSequences(q.turns)
    && OneActive(q.turns)
    && forall owner :: owner in q.claims ==> Recorded(q.turns, owner, q.claims[owner])
  }

  /** A step leaves a claimed turn's identity alone: it may change status (unless merged), time and place. */
  ghost predicate KeepsClaimed(t: Table, u: Table, id: TurnId) {
    && id in t && id in u
    && t[id].meta == u[id].meta && u[id].status != Queued && (t[id].status == Merged ==> u[id].status == Merged)
  }

  lemma RecordedSurvives(t: Table, u: Table, owner: TurnId, ids: seq<TurnId>)
    requires Recorded(t, owner, ids)
    requires forall id :: id in ids ==> KeepsClaimed(t, u, id)
    requires forall a, b :: a in ids && b in ids && a in t && b in t && t[a].sequence < t[b].sequence ==>
               a in u && b in u && u[a].sequence < u[b].sequence
    ensures Recorded(u, owner, ids)
  {
    assert owner == ids[|ids| - 1] && owner in ids;
    SameBatch(t, u, ids);
    forall k | 0 <= k < |ids| - 1
      ensures u[ids[k]].status == Merged && u[ids[k]].meta.mergedInto == Some(owner)
    {
      assert KeepsClaimed(t, u, ids[k]);
    }
    forall i, j | 0 <= i < j < |ids|
      ensures u[ids[i]].sequence < u[ids[j]].sequence
    {
      assert ids[i] in ids && ids[j] in ids;
    }
  }

  lemma SameBatch(t: Table, u: Table, ids: seq<TurnId>)
    requires ids != [] && forall id :: id in ids ==>
      id in t && id in u && t[id].meta.userMessageId == u[id].meta.userMessageId
    ensures CreateExecutionBatch(t, ids) == CreateExecutionBatch(u, ids)
  {
    assert UserMessageIds(t, ids) == UserMessageIds(u, ids);
  }

  /** `u` differs from `t` in the row `id` only. */
  ghost predicate OnlyRow(t: Table, u: Table, id: TurnId) {
    u.Keys == t.Keys + {id} && forall other :: other in t && other != id ==> u[other] == t[other]
  }

  /** Changing one row that no claim has merged, or adding a row, keeps every claim reloadable. */
  lemma RowChangeKeepsClaims(q: Queue, u: Table, id: TurnId)
    requires Inv(q) && OnlyRow(q.turns, u, id)
    requires id in q.turns && q.turns[id].status != Queued ==>
               KeepsClaimed(q.turns, u, id) && u[id].sequence == q.turns[id].sequence
    ensures forall owner :: owner in q.claims ==> Recorded(u, owner, q.claims[owner])
  {
    forall owner | owner in q.claims
      ensures Recorded(u, owner, q.claims[owner])
    {
      RowChangeKeepsClaim(q.turns, u, id, owner, q.claims[owner]);
    }
  }

  lemma RowChangeKeepsClaim(t: Table, u: Table, id: TurnId, owner: TurnId, ids: seq<TurnId>)
    requires Recorded(t, owner, ids) && OnlyRow(t, u, id)
    requires id in t && t[id].status != Queued ==> KeepsClaimed(t, u, id) && u[id].sequence == t[id].sequence
    ensures Recorded(u, owner, ids)
  {
    RecordedSurvives(t, u, owner, ids);
  }

  lemma ShiftKeepsInv(q: Queue, slot: int, id: TurnId, now: int)
    requires Inv(q)
    ensures Inv(Next(q, CompactBefore(slot, id, now)))
  {
    if id !in q.turns {
      var u := Next(q, CompactBefore(slot, id, now)).turns;
      ShiftKeepsTable(q.turns, slot, id, u[id]);
      forall owner | owner in q.claims
        ensures Recorded(u, owner, q.claims[owner])
      {
        ShiftKeepsClaim(q.turns, slot, id, u[id], owner, q.claims[owner]);
      }
    }
  }

  lemma ShiftKeepsTable(t: Table, slot: int, id: TurnId, row: Turn)
    requires UniqueSequences(t) && OneActive(t) && id !in t && row.sequence == slot && !Active(row)
    ensures UniqueSequences(Shift(t, slot)[id := row]) && OneActive(Shift(t, slot)[id := row])
  {
    var u := Shift(t, slot);
    assert forall a :: a in u ==> u[a].sequence != slot && Active(u[a]) == Active(t[a]);
  }

  lemma ShiftKeepsClaim(t: Table, slot: int, id: TurnId, row: Turn, owner: TurnId, ids: seq<TurnId>)
    requires Recorded(t, owner, ids) && id !in t
    ensures Recorded(Shift(t, slot)[id := row], owner, ids)
  {
    RecordedSurvives(t, Shift(t, slot)[id := row], owner, ids);
  }

  lemma StaleRecoveryClears(q: Queue, now: int)
    requires Inv(q)
    ensures var (free, busy) := StaleRecovered(q.turns, now);
      && Inv(q.(turns := free))
      && (busy.None? ==> ActiveIds(free) == {})
  {
    var active := OrderBySequence(q.turns, ActiveIds(q.turns));
    if active != [] {
      assert active[0] in ActiveIds(q.turns);
      MarkStaleClears(q, active[0], now);
    } else {
      assert forall id :: id in ActiveIds(q.turns) ==> id in active;
    }
  }

  lemma MarkStaleClears(q: Queue, id: TurnId, now: int)
    requires Inv(q) && id in ActiveIds(q.turns)
    ensures Inv(q.(turns := MarkStale(q.turns, id, now)))
    ensures ActiveIds(MarkStale(q.turns, id, now)) == {}
  {
    RowChangeKeepsClaims(q, MarkStale(q.turns, id, now), id);
  }

  lemma ClaimKeepsInv(q: Queue, now: int, take: nat)
    requires Inv(q)
    ensures Inv(Next(q, ClaimNext(now, take)))
  {
    if take > 0 {
      StaleRecoveryClears(q, now);
      var (free, busy) := StaleRecovered(q.turns, now);
      if busy.None? {
        var ids := Select(free, take);
        if ids != [] {
          ClaimQueuedKeepsInv(q.(turns := free), ids, now);
        }
      }
    }
  }

  /** The selection a claim may commit: queued rows in sequence order. */
  ghost predicate Selectable(t: Table, ids: seq<TurnId>) {
    && ids != [] && (forall id :: id in ids ==> id in t && t[id].status == Queued)
    && forall i, j :: 0 <= i < j < |ids| ==> t[ids[i]].sequence < t[ids[j]].sequence
  }

  lemma ClaimIsRecorded(t: Table, ids: seq<TurnId>, now: int)
    requires Selectable(t, ids)
    ensures Recorded(ClaimQueued(t, ids, now), ids[|ids| - 1], ids)
  {
    var u, owner := ClaimQueued(t, ids, now), ids[|ids| - 1];
    SameBatch(t, u, ids);
    OrderedIsDistinct(t, ids);
    forall k | 0 <= k < |ids| - 1
      ensures u[ids[k]].status == Merged && u[ids[k]].meta.mergedInto == Some(owner)
    {
      assert ids[k] != owner && ids[k] in ids;
    }
    forall i, j | 0 <= i < j < |ids|
      ensures u[ids[i]].sequence < u[ids[j]].sequence
    {
      assert u[ids[i]].sequence == t[ids[i]].sequence && u[ids[j]].sequence == t[ids[j]].sequence;
    }
  }

  lemma ClaimKeepsOthers(q: Queue, ids: seq<TurnId>, now: int, other: TurnId)
    requires Inv(q) && Selectable(q.turns, ids) && other in q.claims
    ensures Recorded(ClaimQueued(q.turns, ids, now), other, q.claims[other])
  {
    RecordedSurvives(q.turns, ClaimQueued(q.turns, ids, now), other, q.claims[other]);
  }

  lemma ClaimKeepsTable(t: Table, ids: seq<TurnId>, now: int)
    requires UniqueSequences(t) && Selectable(t, ids) && ActiveIds(t) == {}
    ensures UniqueSequences(ClaimQueued(t, ids, now)) && OneActive(ClaimQueued(t, ids, now))
  {
    var u, owner := ClaimQueued(t, ids, now), ids[|ids| - 1];
    forall id | id in u && id != owner
      ensures !Active(u[id])
    {
      assert id !in ActiveIds(t);
    }
  }

  lemma ClaimQueuedKeepsInv(q: Queue, ids: seq<TurnId>, now: int)
    requires Inv(q) && ActiveIds(q.turns) == {} && Selectable(q.turns, ids)
    ensures Inv(Queue(ClaimQueued(q.turns, ids, now), q.claims[ids[|ids| - 1] := ids]))
  {
    ClaimKeepsTable(q.turns, ids, now);
    ClaimIsRecorded(q.turns, ids, now);
    forall other | other in q.claims
      ensures Recorded(ClaimQueued(q.turns, ids, now), other, q.claims[other])
    {
      ClaimKeepsOthers(q, ids, now, other);
    }
  }

  /** A conditional UPDATE of a row's status never activates a row that was not active. */
  lemma SetStatusKeepsInv(q: Queue, id: TurnId, from: set<Status>, to: Status, now: int)
    requires Inv(q) && Merged !in from && to != Queued && to != Merged
    requires to == Running || to == AbortRequested ==>
               from <= {Running, AbortRequested} || (id in q.turns && q.turns[id].kind == DirectGeneration)
    ensures Inv(SetStatus(q, id, from, to, now))
  {
    var next := SetStatus(q, id, from, to, now);
    if next != q {
      RowChangeKeepsClaims(q, next.turns, id);
    }
  }

  lemma StatusEventsKeepInv(q: Queue, e: Event)
    requires Inv(q)
    requires e.RequestAbort? || e.UndoAbort? || e.Finalize? || e.InterruptSeen? || e.Fail?
      || e.StartGeneration? || e.EndGeneration?
    ensures Inv(Next(q, e))
  {
    match e
    case RequestAbort(id, now) => SetStatusKeepsInv(q, id, {Running, AbortRequested}, AbortRequested, now);
    case UndoAbort(id, now) => SetStatusKeepsInv(q, id, {AbortRequested}, Running, now);
    case Finalize(id, status, now) =>
      if status == Completed || status == Failed || status == Interrupted {
        SetStatusKeepsInv(q, id, {Running, AbortRequested, Interrupted}, status, now);
      }
    case InterruptSeen(id, seen, now) =>
      SetStatusKeepsInv(q, id, if seen then {Interrupted} else {Running, AbortRequested}, Interrupted, now);
    case Fail(id, now) => SetStatusKeepsInv(q, id, {Queued, Running, AbortRequested, Interrupted}, Failed, now);
    case StartGeneration(id, now) =>
      if id in q.turns && q.turns[id].kind == DirectGeneration {
        SetStatusKeepsInv(q, id, {Queued, Running}, Running, now);
      }
    case EndGeneration(id, status, now) =>
      if status == Completed || status == Failed {
        SetStatusKeepsInv(q, id, {Queued, Running}, status, now);
      }
  }

  /** A row whose sequence is unused keeps sequences unique. */
  lemma RowKeepsInv(q: Queue, id: TurnId, row: Turn)
    requires Inv(q) && FreeSequence(q.turns, row.sequence)
    requires id in q.turns ==> q.turns[id].status == Queued
    requires Active(row) ==> ActiveIds(q.turns) == {}
    ensures Inv(q.(turns := q.turns[id := row]))
  {
    var u := q.turns[id := row];
    forall other | other in q.turns && Active(row)
      ensures !Active(q.turns[other])
    {
      assert other !in ActiveIds(q.turns);
    }
    RowChangeKeepsClaims(q, u, id);
  }

  lemma RowEventsKeepInv(q: Queue, e: Event)
    requires Inv(q)
    requires e.Enqueue? || e.StartNative? || e.PromoteToSteer? || e.CancelQueued?
    ensures Inv(Next(q, e))
  {
    var next := Next(q, e);
    if next != q {
      RowKeepsInv(q, e.id, next.turns[e.id]);
    }
  }

  lemma NextKeepsInv(q: Queue, e: Event)
    requires Inv(q)
    ensures Inv(Next(q, e))
  {
    if e.ClaimNext? {
      ClaimKeepsInv(q, e.now, e.take);
    } else if e.CompactBefore? {
      ShiftKeepsInv(q, e.slot, e.id, e.now);
    } else if e.Enqueue? || e.StartNative? || e.PromoteToSteer? || e.CancelQueued? {
      RowEventsKeepInv(q, e);
    } else {
      StatusEventsKeepInv(q, e);
    }
  }

  // ---------------------------------------------------------------- every run

  ghost function Run(q: Queue, events: seq<Event>): (end: Queue)
    requires Inv(q)
    ensures Inv(end)
    decreases |events|
  {
    if events == [] then q
    else
      NextKeepsInv(q, events[0]);
      Run(Next(q, events[0]), events[1..])
  }

  /** In every interleaving of the movers a session runs at most one agent turn. */
  lemma AtMostOneActiveTurn(events: seq<Event>, a: TurnId, b: TurnId)
    requires var t := Run(EMPTY, events).turns; a in t && b in t && Active(t[a]) && Active(t[b])
    ensures a == b
  {
  }

  predicate Final(status: Status) {
    status == Completed || status == Failed || status == Merged || status == Cancelled
  }

  lemma StepKeepsFinal(q: Queue, e: Event, id: TurnId)
    requires Inv(q) && id in q.turns && Final(q.turns[id].status)
    ensures id in Next(q, e).turns && Next(q, e).turns[id].status == q.turns[id].status
  {
    if e.ClaimNext? {
      if e.take > 0 {
        ClaimKeepsFinal(q.turns, e.now, e.take, id);
      }
    } else {
      OtherStepsKeepFinal(q, e, id);
    }
  }

  lemma ClaimKeepsFinal(t: Table, now: int, take: nat, id: TurnId)
    requires UniqueSequences(t) && take > 0 && id in t && Final(t[id].status)
    ensures id in Claim(t, now, take).0 && Claim(t, now, take).0[id].status == t[id].status
  {
    var free := StaleRecovered(t, now).0;
    StaleRecoveryOnlyInterrupts(t, now);
    assert free[id] == t[id];
    var ids := Select(free, take);
    assert id !in ids;
  }

  lemma OtherStepsKeepFinal(q: Queue, e: Event, id: TurnId)
    requires UniqueSequences(q.turns) && id in q.turns && Final(q.turns[id].status) && !e.ClaimNext?
    ensures id in Next(q, e).turns && Next(q, e).turns[id].status == q.turns[id].status
  {
  }

  /** A completed, failed, merged or cancelled turn keeps that status for ever. */
  lemma {:induction false} FinalStatusIsForever(q: Queue, events: seq<Event>, id: TurnId)
    requires Inv(q) && id in q.turns && Final(q.turns[id].status)
    ensures var t := Run(q, events).turns; id in t && t[id].status == q.turns[id].status
    decreases |events|
  {
    if events != [] {
      StepKeepsFinal(q, events[0], id);
      NextKeepsInv(q, events[0]);
      FinalStatusIsForever(Next(q, events[0]), events[1..], id);
    }
  }

  ghost predicate KeepsStatus(q: Queue, events: seq<Event>, id: TurnId)
    requires Inv(q) && id in q.turns
  {
    var t := Run(q, events).turns; id in t && t[id].status == q.turns[id].status
  }

  /**
   The final statuses are exactly those no further step can change: a queued, active or
   interrupted turn may still fail, so a late result may yet replace an interruption.
   */
  lemma FinalIffKeptForever(q: Queue, id: TurnId)
    requires Inv(q) && id in q.turns
    ensures Final(q.turns[id].status) <==> forall events :: KeepsStatus(q, events, id)
  {
    if Final(q.turns[id].status) {
      forall events
        ensures KeepsStatus(q, events, id)
      {
        FinalStatusIsForever(q, events, id);
      }
    } else {
      FailingChangesStatus(q, id);
      assert !KeepsStatus(q, [Fail(id, 0)], id);
    }
  }

  lemma FailingChangesStatus(q: Queue, id: TurnId)
    requires Inv(q) && id in q.turns && !Final(q.turns[id].status)
    ensures !KeepsStatus(q, [Fail(id, 0)], id)
  {
    var failing := Fail(id, 0);
    NextKeepsInv(q, failing);
    assert [failing][1..] == [];
    assert Run(q, [failing]) == Next(q, failing);
    assert Next(q, failing).turns[id].status == Failed;
  }

  /** `u` is `t` with at most some active agent turns interrupted. */
  ghost predicate OnlyInterrupts(t: Table, u: Table) {
    && u.Keys == t.Keys
    && forall id :: id in t ==>
         u[id] == t[id] || (Active(t[id]) && u[id] == t[id].(status := Interrupted, updatedAt := u[id].updatedAt))
  }

  lemma StaleRecoveryOnlyInterrupts(t: Table, now: int)
    requires UniqueSequences(t)
    ensures OnlyInterrupts(t, StaleRecovered(t, now).0)
  {
    var active := OrderBySequence(t, ActiveIds(t));
    if active != [] {
      assert active[0] in ActiveIds(t);
    }
  }

  /** Stale recovery touches no queued row and no generation. */
  lemma InterruptsKeepQueues(t: Table, u: Table, intent: Intent)
    requires OnlyInterrupts(t, u)
    ensures BlockingIds(u) == BlockingIds(t) && Claimable(u, intent) == Claimable(t, intent)
  {
    assert BlockingIds(u) == BlockingIds(t);
    forall id | id in t
      ensures id in Claimable(u, intent) <==> id in Claimable(t, intent)
    {
      InterruptsKeepBarrier(t, u, id);
    }
  }

  lemma InterruptsKeepBarrier(t: Table, u: Table, id: TurnId)
    requires OnlyInterrupts(t, u) && id in t && BlockingIds(u) == BlockingIds(t)
    ensures BeforeGenerations(u, id) == BeforeGenerations(t, id)
  {
    assert forall g :: g in BlockingIds(t) ==> u[g].sequence == t[g].sequence;
  }

  /** A prefix of rows in sequence order leaves only later rows out. */
  lemma PrefixIsFirst(t: Table, order: seq<TurnId>, n: nat, id: TurnId, k: nat)
    requires k < n <= |order| && id in order && id !in order[..n]
    requires forall other :: other in order ==> other in t
    requires forall i, j :: 0 <= i < j < |order| ==> t[order[i]].sequence < t[order[j]].sequence
    ensures order[k] in t && t[order[k]].sequence < t[id].sequence
  {
    assert forall m :: 0 <= m < n ==> order[..n][m] == order[m] && order[m] != id;
    var m :| 0 <= m < |order| && order[m] == id;
  }

  /** A queued agent turn of this intent, ahead of every direct generation that is not over. */
  ghost predicate Waits(t: Table, id: TurnId, intent: Intent) {
    && id in t && t[id].kind == Agent && t[id].status == Queued && t[id].intent == intent
    && forall g :: g in t && t[g].kind == DirectGeneration && t[g].status in {Queued, Running, AbortRequested} ==>
      t[id].sequence < t[g].sequence
  }

  lemma ClaimableIff(t: Table, id: TurnId, intent: Intent)
    ensures id in Claimable(t, intent) <==> Waits(t, id, intent)
  {
  }

  ghost predicate TakesOldestSteer(t: Table, ids: seq<TurnId>) {
    && |ids| == 1 && Waits(t, ids[0], Steer)
    && forall other :: Waits(t, other, Steer) ==>
      t[ids[0]].updatedAt < t[other].updatedAt
      || (t[ids[0]].updatedAt == t[other].updatedAt && t[ids[0]].sequence <= t[other].sequence)
  }

  ghost predicate Ascends(t: Table, ids: seq<TurnId>) {
    && (forall id :: id in ids ==> id in t)
    && forall i, j :: 0 <= i < j < |ids| ==> t[ids[i]].sequence < t[ids[j]].sequence
  }

  ghost predicate TakesFirstFollowups(t: Table, take: nat, ids: seq<TurnId>) {
    && |ids| <= take && Ascends(t, ids) && (forall id :: id in ids ==> Waits(t, id, Followup))
    && forall other :: Waits(t, other, Followup) && other !in ids ==>
      |ids| == take && forall id :: id in ids ==> t[id].sequence < t[other].sequence
  }

  /**
   Nobody who waits for longer is passed over: the oldest steer alone, or else follow-ups in order up
   to the limit.
   */
  ghost predicate TakesWaiting(t: Table, take: nat, ids: seq<TurnId>) {
    if exists steer :: Waits(t, steer, Steer) then TakesOldestSteer(t, ids) else TakesFirstFollowups(t, take, ids)
  }

  lemma FollowupsTaken(t: Table, order: seq<TurnId>, take: nat, ids: seq<TurnId>)
    requires Ascends(t, order) && ids == if take < |order| then order[..take] else order
    requires forall id :: id in order <==> Waits(t, id, Followup)
    ensures TakesFirstFollowups(t, take, ids)
  {
    forall other, k | other in order && other !in ids && 0 <= k < |ids|
      ensures t[ids[k]].sequence < t[other].sequence
    {
      PrefixIsFirst(t, order, |ids|, other, k);
    }
  }

  lemma SelectTakesWaiting(t: Table, take: nat)
    requires UniqueSequences(t) && take > 0
    ensures TakesWaiting(t, take, Select(t, take))
    ensures Select(t, take) == [] <==> forall id :: !Waits(t, id, Steer) && !Waits(t, id, Followup)
  {
    forall id, intent
      ensures id in Claimable(t, intent) <==> Waits(t, id, intent)
    {
      ClaimableIff(t, id, intent);
    }
    if Claimable(t, Steer) != {} {
      SteerTaken(t, Claimable(t, Steer), FirstSteer(t, Claimable(t, Steer)));
    } else {
      var order := OrderBySequence(t, Claimable(t, Followup));
      FollowupsTaken(t, order, take, Select(t, take));
      assert order != [] ==> order[0] in order;
    }
  }

  lemma SteerTaken(t: Table, steers: set<TurnId>, first: TurnId)
    requires steers <= t.Keys && IsFirstSteer(t, steers, first)
    requires forall id :: id in steers <==> Waits(t, id, Steer)
    ensures TakesOldestSteer(t, [first]) && exists steer :: Waits(t, steer, Steer)
  {
  }

  lemma InterruptsKeepWaiting(t: Table, u: Table, take: nat, ids: seq<TurnId>)
    requires OnlyInterrupts(t, u) && TakesWaiting(u, take, ids)
    ensures forall id, intent :: Waits(u, id, intent) <==> Waits(t, id, intent)
    ensures TakesWaiting(t, take, ids)
  {
    forall id, intent
      ensures Waits(u, id, intent) <==> Waits(t, id, intent)
      ensures Waits(t, id, intent) ==> u[id] == t[id]
    {
      InterruptsKeepQueues(t, u, intent);
      ClaimableIff(t, id, intent);
      ClaimableIff(u, id, intent);
    }
  }

  /** A claim that is not turned away takes who waits, and comes back empty exactly when nobody does. */
  lemma ClaimTakesQueuedInOrder(q: Queue, now: int, take: nat)
    requires Inv(q) && take > 0 && !Claim(q.turns, now, take).1.Busy?
    ensures var t, result := q.turns, Claim(q.turns, now, take).1;
      && (result.Noop? <==> forall id :: !Waits(t, id, Steer) && !Waits(t, id, Followup))
      && (result.Claimed? ==> result.turnIds != [] && TakesWaiting(t, take, result.turnIds))
  {
    var free := StaleRecovered(q.turns, now).0;
    StaleRecoveryOnlyInterrupts(q.turns, now);
    SelectTakesWaiting(free, take);
    InterruptsKeepWaiting(q.turns, free, take, Select(free, take));
  }

  lemma {:induction false} OrderIsUnique(t: Table, ids: set<TurnId>, order: seq<TurnId>)
    requires UniqueSequences(t) && ids <= t.Keys
    requires forall id :: id in order <==> id in ids
    requires forall i, j :: 0 <= i < j < |order| ==> t[order[i]].sequence < t[order[j]].sequence
    ensures OrderBySequence(t, ids) == order
  {
    var sorted := OrderBySequence(t, ids);
    SameSorted(t, sorted, order);
  }

  lemma {:induction false} SameSorted(t: Table, a: seq<TurnId>, b: seq<TurnId>)
    requires forall id :: id in a <==> id in b
    requires forall id :: id in a ==> id in t
    requires forall i, j :: 0 <= i < j < |a| ==> t[a[i]].sequence < t[a[j]].sequence
    requires forall i, j :: 0 <= i < j < |b| ==> t[b[i]].sequence < t[b[j]].sequence
    ensures a == b
    decreases |a|
  {
    if a == [] {
      assert forall k :: 0 <= k < |b| ==> b[k] in b;
    } else {
      assert a[0] in b && b != [] && b[0] in a;
      FirstIsLeast(t, a, b[0]);
      FirstIsLeast(t, b, a[0]);
      assert a[0] == b[0];
      TailMembers(t, a);
      TailMembers(t, b);
      SameSorted(t, a[1..], b[1..]);
    }
  }

  lemma FirstIsLeast(t: Table, a: seq<TurnId>, id: TurnId)
    requires id in a && forall other :: other in a ==> other in t
    requires forall i, j :: 0 <= i < j < |a| ==> t[a[i]].sequence < t[a[j]].sequence
    ensures id == a[0] || t[a[0]].sequence < t[id].sequence
  {
  }

  lemma TailMembers(t: Table, a: seq<TurnId>)
    requires a != [] && forall id :: id in a ==> id in t
    requires forall i, j :: 0 <= i < j < |a| ==> t[a[i]].sequence < t[a[j]].sequence
    ensures forall id :: id in a[1..] <==> id in a && id != a[0]
  {
    assert a == [a[0]] + a[1..];
    forall k | 0 < k < |a|
      ensures a[k] != a[0]
    {
      assert t[a[0]].sequence < t[a[k]].sequence;
    }
  }

  /** A recorded claim reloads exactly as it was made. */
  lemma RecordedReloads(t: Table, owner: TurnId, ids: seq<TurnId>)
    requires UniqueSequences(t) && Recorded(t, owner, ids)
    ensures owner in t && LoadClaimed(t, owner) == Loaded(ids, CreateExecutionBatch(t, ids))
  {
    var batch := CreateExecutionBatch(t, ids);
    assert batch.turnIds == ids && batch.ownerTurnId == owner;
    OrderedIsDistinct(t, ids);
    if |ids| == 1 {
      assert ids == [owner];
    } else {
      OrderIsUnique(t, Known(t, ids), ids);
      RecordedIsMerged(t, owner, ids);
    }
  }

  lemma OrderedIsDistinct(t: Table, ids: seq<TurnId>)
    requires forall id :: id in ids ==> id in t
    requires forall i, j :: 0 <= i < j < |ids| ==> t[ids[i]].sequence < t[ids[j]].sequence
    ensures Distinct(ids)
  {
    forall i, j | 0 <= i < j < |ids|
      ensures ids[i] != ids[j]
    {
      assert t[ids[i]].sequence < t[ids[j]].sequence;
    }
  }

  lemma RecordedIsMerged(t: Table, owner: TurnId, ids: seq<TurnId>)
    requires Recorded(t, owner, ids)
    ensures AllMergedInto(t, ids[..|ids| - 1], owner)
  {
    assert forall k :: 0 <= k < |ids| - 1 ==> ids[..|ids| - 1][k] == ids[k];
  }

  lemma {:induction false} RunKeepsClaim(q: Queue, events: seq<Event>, owner: TurnId)
    requires Inv(q) && owner in q.claims
    ensures owner in Run(q, events).claims && Run(q, events).claims[owner] == q.claims[owner]
    ensures owner in Run(q, events).turns
    ensures Run(q, events).turns[owner].meta == q.turns[owner].meta
    decreases |events|
  {
    assert owner in q.claims[owner] && owner in q.turns;
    if events != [] {
      NextKeepsInv(q, events[0]);
      StepKeepsClaim(q, events[0], owner);
      RunKeepsClaim(Next(q, events[0]), events[1..], owner);
    }
  }

  lemma StepKeepsClaim(q: Queue, e: Event, owner: TurnId)
    requires Inv(q) && owner in q.claims && owner in q.turns
    ensures var next := Next(q, e);
      && owner in next.claims && next.claims[owner] == q.claims[owner]
      && owner in next.turns && next.turns[owner].meta == q.turns[owner].meta
  {
    assert owner in q.claims[owner] && q.turns[owner].status != Queued;
    if !e.ClaimNext? {
      OtherStepsKeepRow(q, e, owner);
    } else if e.take > 0 {
      ClaimSparesOwner(q, e.now, e.take, owner);
    }
  }

  /** Only a claim records claims, and no other step rewrites the metadata of a turn. */
  lemma OtherStepsKeepRow(q: Queue, e: Event, id: TurnId)
    requires UniqueSequences(q.turns) && id in q.turns && !e.ClaimNext?
    ensures var next := Next(q, e);
      next.claims == q.claims && id in next.turns && next.turns[id].meta == q.turns[id].meta
  {
  }

  lemma ClaimSparesOwner(q: Queue, now: int, take: nat, owner: TurnId)
    requires Inv(q) && take > 0 && owner in q.turns && q.turns[owner].status != Queued
    ensures var (turns, result) := Claim(q.turns, now, take);
      && owner in turns && turns[owner].meta == q.turns[owner].meta
      && (result.Claimed? ==> owner != result.batch.ownerTurnId)
  {
    StaleRecoveryOnlyInterrupts(q.turns, now);
    if Claim(q.turns, now, take).1.Claimed? {
      ClaimTakesQueuedInOrder(q, now, take);
      var ids := Claim(q.turns, now, take).1.turnIds;
      assert owner !in ids && ids[|ids| - 1] in ids;
    }
  }

  /**
   Recovery undoes claim: whatever is enqueued, claimed, promoted, cancelled, interrupted,
   finalized, failed or renumbered later, loading the owner gives back exactly the claim.
   */
  lemma RecoveryUndoesClaim(before: seq<Event>, now: int, take: nat, later: seq<Event>)
    requires take > 0 && Claim(Run(EMPTY, before).turns, now, take).1.Claimed?
    ensures var result := Claim(Run(EMPTY, before).turns, now, take).1;
      var end := Run(EMPTY, before + [ClaimNext(now, take)] + later).turns;
      var owner := result.batch.ownerTurnId;
      && owner in end
      && LoadClaimed(end, owner) == Loaded(result.turnIds, result.batch)
  {
    var q := Run(EMPTY, before);
    var result := Claim(q.turns, now, take).1;
    NextKeepsInv(q, ClaimNext(now, take));
    var claimed := Next(q, ClaimNext(now, take));
    RunThrough(before, ClaimNext(now, take), later);
    ClaimIsReloadable(claimed, later, result.batch.ownerTurnId, result.turnIds, result.batch);
  }

  /** A claim that the table records now reloads after any further steps. */
  lemma ClaimIsReloadable(q: Queue, later: seq<Event>, owner: TurnId, ids: seq<TurnId>, batch: Batch)
    requires Inv(q) && owner in q.claims && q.claims[owner] == ids
    requires owner in q.turns && q.turns[owner].meta.executionBatch == Some(batch)
    ensures owner in Run(q, later).turns && LoadClaimed(Run(q, later).turns, owner) == Loaded(ids, batch)
  {
    RunKeepsClaim(q, later, owner);
    RecordedReloads(Run(q, later).turns, owner, ids);
  }

  lemma RunThrough(before: seq<Event>, e: Event, later: seq<Event>)
    ensures Inv(Next(Run(EMPTY, before), e))
    ensures Run(EMPTY, before + [e] + later) == Run(Next(Run(EMPTY, before), e), later)
  {
    RunConcat(EMPTY, before, [e] + later);
    RunFirst(Run(EMPTY, before), e, later);
    assert before + [e] + later == before + ([e] + later);
  }

  lemma RunFirst(q: Queue, e: Event, later: seq<Event>)
    requires Inv(q)
    ensures Inv(Next(q, e)) && Run(q, [e] + later) == Run(Next(q, e), later)
  {
    NextKeepsInv(q, e);
    assert ([e] + later)[1..] == later;
  }

  lemma {:induction false} RunConcat(q: Queue, first: seq<Event>, second: seq<Event>)
    requires Inv(q)
    ensures Run(q, first + second) == Run(Run(q, first), second)
    decreases |first|
  {
    if first == [] {
      assert first + second == second;
    } else {
      assert (first + second)[1..] == first[1..] + second;
      NextKeepsInv(q, first[0]);
      RunConcat(Next(q, first[0]), first[1..], second);
    }
  }

  /** The renumbering step is the one the two UPDATE statements perform. */
  lemma ShiftIsCompactionShift(t: Table, slot: int)
    requires UniqueSequences(t)
    ensures CompactionShift.Unique(Sequences(t))
    ensures Sequences(Shift(t, slot)) == CompactionShift.Shifted(Sequences(t), slot)
  {
  }

  function Sequences(t: Table): CompactionShift.Rows {
    map id | id in t :: t[id].sequence
  }

  /** The rows named are there, in sequence order, all but the last merged into the owner. */
  ghost predicate StoredAsClaimed(t: Table, owner: TurnId, ids: seq<TurnId>) {
    && Ascends(t, ids)
    && forall id :: id in ids && id != owner ==> t[id].status == Merged && t[id].meta.mergedInto == Some(owner)
  }

  ghost predicate ValidIds(ids: seq<TurnId>, owner: TurnId) {
    ids != [] && ids[|ids| - 1] == owner && forall i, j :: 0 <= i < j < |ids| ==> ids[i] != ids[j]
  }

  ghost predicate ValidBatch(batch: Batch, owner: TurnId) {
    ValidIds(batch.turnIds, owner) && batch.ownerTurnId == owner
  }

  lemma RowsAreIdsIff(t: Table, ids: seq<TurnId>)
    requires UniqueSequences(t)
    ensures OrderBySequence(t, Known(t, ids)) == ids <==> Ascends(t, ids)
  {
    if Ascends(t, ids) {
      OrderIsUnique(t, Known(t, ids), ids);
    }
  }

  lemma MergedIff(t: Table, owner: TurnId, ids: seq<TurnId>)
    requires ValidIds(ids, owner) && forall id :: id in ids ==> id in t
    ensures AllMergedInto(t, ids[..|ids| - 1], owner) <==>
      forall id :: id in ids && id != owner ==> t[id].status == Merged && t[id].meta.mergedInto == Some(owner)
  {
    var front := ids[..|ids| - 1];
    assert ids == front + [owner];
    forall k | 0 <= k < |front|
      ensures front[k] == ids[k] && ids[k] != owner
    {
    }
  }

  lemma BatchReloadsIff(t: Table, owner: TurnId, ids: seq<TurnId>)
    requires UniqueSequences(t) && ValidIds(ids, owner)
    ensures var rows := OrderBySequence(t, Known(t, ids));
      rows == ids && AllMergedInto(t, rows[..|rows| - 1], owner) <==> StoredAsClaimed(t, owner, ids)
  {
    RowsAreIdsIff(t, ids);
    if Ascends(t, ids) {
      MergedIff(t, owner, ids);
    }
  }

  lemma InvalidIff(t: Table, owner: TurnId, batch: Batch)
    requires UniqueSequences(t) && owner in t && t[owner].meta.executionBatch == Some(batch)
    ensures LoadClaimed(t, owner) == InvalidBatch <==> !ValidBatch(batch, owner)
  {
  }

  lemma AloneReloads(t: Table, owner: TurnId, batch: Batch)
    requires UniqueSequences(t) && owner in t && t[owner].meta.executionBatch == Some(batch)
    requires ValidBatch(batch, owner) && |batch.turnIds| == 1
    ensures batch.turnIds == [owner] && StoredAsClaimed(t, owner, [owner])
    ensures LoadClaimed(t, owner) == Loaded([owner], CreateExecutionBatch(t, [owner]))
  {
    assert batch.turnIds == [owner];
  }

  lemma ManyReload(t: Table, owner: TurnId, batch: Batch)
    requires UniqueSequences(t) && owner in t && t[owner].meta.executionBatch == Some(batch)
    requires ValidBatch(batch, owner) && |batch.turnIds| > 1
    ensures LoadClaimed(t, owner) ==
      if StoredAsClaimed(t, owner, batch.turnIds) then Loaded(batch.turnIds, CreateExecutionBatch(t, batch.turnIds))
      else HistoryMismatch
  {
    BatchReloadsIff(t, owner, batch.turnIds);
  }

  /** What a reload accepts: a turn without batch, and exactly the batches that are stored as claimed. */
  lemma ReloadOutcome(t: Table, owner: TurnId)
    requires UniqueSequences(t) && owner in t
    ensures match t[owner].meta.executionBatch
      case None => LoadClaimed(t, owner) == Loaded([owner], CreateExecutionBatch(t, [owner]))
      case Some(batch) =>
        && (LoadClaimed(t, owner).InvalidBatch? <==> !ValidBatch(batch, owner))
        && (LoadClaimed(t, owner).Loaded? <==> ValidBatch(batch, owner) && StoredAsClaimed(t, owner, batch.turnIds))
        && (LoadClaimed(t, owner).Loaded? ==> LoadClaimed(t, owner).turnIds == batch.turnIds)
  {
    if t[owner].meta.executionBatch.Some? {
      var batch := t[owner].meta.executionBatch.value;
      InvalidIff(t, owner, batch);
      if ValidBatch(batch, owner) {
        if |batch.turnIds| == 1 {
          AloneReloads(t, owner, batch);
        } else {
          ManyReload(t, owner, batch);
        }
      }
    }
  }

  // ---------------------------------------------------------------- what each step does to the rows

  /** The active turn has shown no sign of life for more than half an hour; other harnesses never go stale. */
  predicate IsStale(turn: Turn, now: int) {
    turn.meta.cohubHarness && now - turn.updatedAt > 30 * 60_000
  }

  lemma ActiveIsFirst(t: Table, id: TurnId)
    requires UniqueSequences(t) && OneActive(t) && id in t && Active(t[id])
    ensures OrderBySequence(t, ActiveIds(t)) != [] && OrderBySequence(t, ActiveIds(t))[0] == id
  {
    var order := OrderBySequence(t, ActiveIds(t));
    assert id in ActiveIds(t) && id in order;
    assert order[0] in order && order[0] in ActiveIds(t);
  }

  /** A claim is turned away by an active turn exactly when that is not stale, and then changes nothing. */
  lemma FreshTurnIsBusy(q: Queue, now: int, take: nat, id: TurnId)
    requires Inv(q) && take > 0 && id in q.turns && Active(q.turns[id])
    ensures Claim(q.turns, now, take) == (q.turns, Busy(id)) <==> !IsStale(q.turns[id], now)
    ensures IsStale(q.turns[id], now) ==>
      && !Claim(q.turns, now, take).1.Busy? && id in Claim(q.turns, now, take).0
      && Claim(q.turns, now, take).0[id] == q.turns[id].(status := Interrupted, updatedAt := now)
  {
    ActiveIsFirst(q.turns, id);
    var (free, busy) := StaleRecovered(q.turns, now);
    if IsStale(q.turns[id], now) {
      assert busy.None? && free[id] == q.turns[id].(status := Interrupted, updatedAt := now);
      assert id !in Select(free, take);
    }
  }

  /** Without an active turn no claim is turned away, and nothing but the claimed turns changes. */
  lemma IdleIsNeverBusy(q: Queue, now: int, take: nat)
    requires Inv(q) && take > 0 && forall id :: id in q.turns ==> !Active(q.turns[id])
    ensures !Claim(q.turns, now, take).1.Busy?
    ensures StaleRecovered(q.turns, now) == (q.turns, None)
  {
    assert ActiveIds(q.turns) == {};
  }

  /** A stale turn is the only row that recovery touches. */
  lemma RecoveryTouchesStaleOnly(q: Queue, now: int, id: TurnId)
    requires Inv(q) && id in q.turns
    ensures var free := StaleRecovered(q.turns, now).0;
      && free.Keys == q.turns.Keys
      && free[id] == if Active(q.turns[id]) && IsStale(q.turns[id], now)
                     then q.turns[id].(status := Interrupted, updatedAt := now) else q.turns[id]
  {
    if Active(q.turns[id]) {
      ActiveIsFirst(q.turns, id);
    } else {
      StaleRecoveryOnlyInterrupts(q.turns, now);
    }
  }

  /** The row of a claimed, stale or other turn after a claim that takes `ids`. */
  function ClaimedRow(turn: Turn, id: TurnId, ids: seq<TurnId>, batch: Batch, now: int): Turn
    requires ids != []
  {
    var owner := ids[|ids| - 1];
    if id == owner then turn.(status := Running, updatedAt := now, meta := turn.meta.(executionBatch := Some(batch)))
    else if id in ids then turn.(status := Merged, updatedAt := now, meta := turn.meta.(mergedInto := Some(owner)))
    else if Active(turn) && IsStale(turn, now) then turn.(status := Interrupted, updatedAt := now)
    else turn
  }

  /** What a claim writes, row by row. */
  lemma ClaimWrites(q: Queue, now: int, take: nat, id: TurnId)
    requires Inv(q) && take > 0 && id in q.turns && Claim(q.turns, now, take).1.Claimed?
    ensures var (after, result) := Claim(q.turns, now, take);
      && after.Keys == q.turns.Keys && result.turnIds != []
      && after[id] == ClaimedRow(q.turns[id], id, result.turnIds, result.batch, now)
  {
    RecoveryTouchesStaleOnly(q, now, id);
    ClaimTakesQueuedInOrder(q, now, take);
  }

  /** The batch names its turns in order, the last one as owner, the others as merged, and a message for each. */
  lemma BatchNamesTurns(t: Table, ids: seq<TurnId>)
    requires ids != [] && forall id :: id in ids ==> id in t
    ensures var batch := CreateExecutionBatch(t, ids);
      && batch.turnIds == ids && batch.mergedTurnIds + [batch.ownerTurnId] == ids
      && |batch.userMessageIds| == |ids|
      && (forall k :: 0 <= k < |ids| ==>
            batch.userMessageIds[k] ==
              match t[ids[k]].meta.userMessageId case Some(text) => Named(text) case None => OfTurn(ids[k]))
      && batch.anchorUserMessageId == Some(batch.userMessageIds[|ids| - 1])
  {
  }

  /** Where a status update takes a turn, None where it does not apply. */
  function Destination(e: Event, turn: Turn): Option<Status> {
    match e
    case RequestAbort(_, _) => if Active(turn) then Some(AbortRequested) else None
    case UndoAbort(_, _) => if turn.status == AbortRequested then Some(Running) else None
    case Finalize(_, status, _) =>
      if (turn.status == Running || turn.status == AbortRequested || turn.status == Interrupted)
        && (status == Completed || status == Failed || status == Interrupted)
      then Some(status) else None
    case InterruptSeen(_, seenInterrupted, _) =>
      var running := turn.status == Running || turn.status == AbortRequested;
      if (if seenInterrupted then turn.status == Interrupted else running) then Some(Interrupted) else None
    case Fail(_, _) => if Final(turn.status) then None else Some(Failed)
    case StartGeneration(_, _) =>
      if turn.kind == DirectGeneration && (turn.status == Queued || turn.status == Running) then Some(Running) else None
    case EndGeneration(_, status, _) =>
      if turn.kind == DirectGeneration && (turn.status == Queued || turn.status == Running)
        && (status == Completed || status == Failed)
      then Some(status) else None
    case _ => None
  }

  predicate IsStatusUpdate(e: Event) {
    e.RequestAbort? || e.UndoAbort? || e.Finalize? || e.InterruptSeen? || e.Fail?
    || e.StartGeneration? || e.EndGeneration?
  }

  lemma UpdateSparesOthers(q: Queue, e: Event, id: TurnId)
    requires UniqueSequences(q.turns) && IsStatusUpdate(e) && id in q.turns && id != e.id
    ensures var after := Next(q, e);
      after.claims == q.claims && after.turns.Keys == q.turns.Keys && after.turns[id] == q.turns[id]
  {
  }

  lemma UpdateFollowsDiagram(q: Queue, e: Event)
    requires UniqueSequences(q.turns) && IsStatusUpdate(e) && e.id in q.turns
    ensures var after, turn := Next(q, e), q.turns[e.id];
      && after.claims == q.claims && after.turns.Keys == q.turns.Keys
      && after.turns[e.id] ==
           match Destination(e, turn)
           case Some(status) => turn.(status := status, updatedAt := e.now)
           case None => turn
  {
  }

  /** The status diagram: each update takes exactly its own turn, and exactly where its guard allows. */
  lemma UpdatesFollowDiagram(q: Queue, e: Event, id: TurnId)
    requires UniqueSequences(q.turns) && IsStatusUpdate(e) && id in q.turns
    ensures var after := Next(q, e);
      && after.claims == q.claims && after.turns.Keys == q.turns.Keys
      && after.turns[id] ==
           match if id == e.id then Destination(e, q.turns[id]) else None
           case Some(status) => q.turns[id].(status := status, updatedAt := e.now)
           case None => q.turns[id]
  {
    if id == e.id {
      UpdateFollowsDiagram(q, e);
    } else {
      UpdateSparesOthers(q, e, id);
    }
  }

  /** A queued follow-up that is promoted becomes a steer, a cancelled one is over; both go behind all other turns. */
  lemma QueuedTurnMovesLast(q: Queue, id: TurnId, now: int)
    requires Inv(q) && id in q.turns && q.turns[id].status == Queued && q.turns[id].intent == Followup
    ensures var after := Next(q, CancelQueued(id, now)).turns;
      && after == q.turns[id := after[id]]
      && after[id] == q.turns[id].(status := Cancelled, updatedAt := now, sequence := after[id].sequence)
      && forall other :: other in q.turns ==> q.turns[other].sequence < after[id].sequence
    ensures q.turns[id].kind == Agent ==>
      var after := Next(q, PromoteToSteer(id, now)).turns;
      && after == q.turns[id := after[id]]
      && after[id] == q.turns[id].(intent := Steer, updatedAt := now, sequence := after[id].sequence)
      && forall other :: other in q.turns ==> q.turns[other].sequence < after[id].sequence
  {
  }

  /** Any other turn can be neither promoted nor cancelled. */
  lemma OtherTurnsStayQueued(q: Queue, id: TurnId, now: int)
    requires UniqueSequences(q.turns)
    requires id in q.turns ==> q.turns[id].status != Queued || q.turns[id].intent != Followup
    ensures Next(q, CancelQueued(id, now)) == q == Next(q, PromoteToSteer(id, now))
  {
  }

  /** New rows: a queued turn at a free place, and a native turn running at once exactly when nothing is unfinished. */
  lemma NewTurnsAreAdded(q: Queue, e: Event)
    requires UniqueSequences(q.turns) && (e.Enqueue? || e.StartNative?)
    ensures var free := e.id !in q.turns && forall id :: id in q.turns ==> q.turns[id].sequence != e.sequence;
      var idle := forall id :: id in q.turns ==> Final(q.turns[id].status) || q.turns[id].status == Interrupted;
      Next(q, e) ==
        if e.Enqueue? && free
        then q.(turns := q.turns[e.id := Turn(e.kind, Queued, e.intent, e.sequence, e.updatedAt, e.meta)])
        else if e.StartNative? && free && idle
        then q.(turns := q.turns[e.id := Turn(Agent, Running, Followup, e.sequence, e.now, e.meta)])
        else q
  {
  }

  /** A compaction event takes the slot, and every turn from there on moves up by one. */
  lemma CompactionTakesSlot(q: Queue, slot: int, id: TurnId, now: int, other: TurnId)
    requires UniqueSequences(q.turns) && id !in q.turns && other in q.turns
    ensures var after := Next(q, CompactBefore(slot, id, now)).turns;
      && after.Keys == q.turns.Keys + {id}
      && after[id] == Turn(Agent, Completed, Compact, slot, now, Meta(None, false, None, None))
      && after[other] == q.turns[other].(
           sequence := q.turns[other].sequence + if q.turns[other].sequence >= slot then 1 else 0)
  {
  }

  // ---------------------------------------------------------------- the table itself

  /** The owner is running and the first `k` selected rows have been merged into it. */
  ghost predicate MergedSoFar(t: Table, u: Table, queued: seq<TurnId>, k: nat, now: int)
    requires queued != [] && forall id :: id in queued ==> id in t
  {
    && k < |queued| && u.Keys == t.Keys
    && forall id :: id in t ==>
         u[id] == if id == queued[|queued| - 1] || id in queued[..k] then ClaimQueued(t, queued, now)[id] else t[id]
  }

  lemma MergeStep(t: Table, u: Table, queued: seq<TurnId>, k: nat, now: int)
    requires queued != [] && Distinct(queued) && k + 1 < |queued| && forall id :: id in queued ==> id in t
    requires MergedSoFar(t, u, queued, k, now)
    ensures queued[k] in u
    ensures MergedSoFar(t, u[queued[k] := MergeInto(u[queued[k]], queued[|queued| - 1], now)], queued, k + 1, now)
  {
    assert queued[k] !in queued[..k] && queued[..k + 1] == queued[..k] + [queued[k]];
  }

  lemma MergedAll(t: Table, u: Table, queued: seq<TurnId>, now: int)
    requires queued != [] && forall id :: id in queued ==> id in t
    requires MergedSoFar(t, u, queued, |queued| - 1, now)
    ensures u == ClaimQueued(t, queued, now)
  {
    assert queued == queued[..|queued| - 1] + [queued[|queued| - 1]];
  }

  class TurnStore {
    var turns: Table

    constructor ()
      ensures turns == EMPTY.turns
    {
      turns := map[];
    }

    /** UPDATE ... WHERE id = ? AND status IN (...) */
    method UpdateStatus(id: TurnId, from: set<Status>, to: Status, now: int) returns (changed: bool)
      modifies this
      ensures turns == SetStatus(Queue(old(turns), map[]), id, from, to, now).turns
      ensures changed <==> id in old(turns) && old(turns)[id].status in from
    {
      changed := id in turns && turns[id].status in from;
      if changed {
        turns := turns[id := turns[id].(status := to, updatedAt := now)];
      }
    }

    /** Marks the owner running, then merges the other selected rows one by one. */
    method ClaimQueuedTurns(queued: seq<TurnId>, now: int) returns (batch: Batch)
      requires Selectable(turns, queued)
      modifies this
      ensures turns == ClaimQueued(old(turns), queued, now)
      ensures batch == CreateExecutionBatch(old(turns), queued)
    {
      var owner, merged := queued[|queued| - 1], queued[..|queued| - 1];
      batch := CreateExecutionBatch(turns, queued);
      var ownerMeta := turns[owner].meta.(executionBatch := Some(batch));
      turns := turns[owner := turns[owner].(status := Running, updatedAt := now, meta := ownerMeta)];
      OrderedIsDistinct(turns, queued);
      for k := 0 to |merged|
        invariant MergedSoFar(old(turns), turns, queued, k, now)
      {
        MergeStep(old(turns), turns, queued, k, now);
        turns := turns[merged[k] := MergeInto(turns[merged[k]], owner, now)];
      }
      MergedAll(old(turns), turns, queued, now);
    }

    /** Interrupts the active turn when it has gone stale, and reports one that has not. */
    method RecoverStale(now: int) returns (busy: Option<TurnId>)
      requires UniqueSequences(turns)
      modifies this
      ensures (turns, busy) == StaleRecovered(old(turns), now)
    {
      var active := OrderBySequence(turns, ActiveIds(turns));
      if active == [] {
        return None;
      }
      assert active[0] in ActiveIds(turns);
      if turns[active[0]].meta.cohubHarness && now - turns[active[0]].updatedAt > STALE_ACTIVE_TURN_MS {
        var _ := UpdateStatus(active[0], {Running, AbortRequested}, Interrupted, now);
        return None;
      }
      return Some(active[0]);
    }

    method ClaimNextTurnBatch(now: int, take: nat) returns (result: ClaimResult)
      requires UniqueSequences(turns) && take > 0
      modifies this
      ensures (turns, result) == Claim(old(turns), now, take)
    {
      var busy := RecoverStale(now);
      if busy.Some? {
        assert turns == old(turns);
        return Busy(busy.value);
      }
      var queued: seq<TurnId>;
      var steers := Claimable(turns, Steer);
      if steers != {} {
        queued := [FirstSteer(turns, steers)];
      } else {
        var followups := OrderBySequence(turns, Claimable(turns, Followup));
        queued := if take < |followups| then followups[..take] else followups;
      }
      assert queued == Select(turns, take);
      if queued == [] {
        return Noop;
      }
      var batch := ClaimQueuedTurns(queued, now);
      result := Claimed(queued, batch);
    }
  }
}
