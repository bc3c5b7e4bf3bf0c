/**
 Opening a sequence slot for a compaction event (apps/agent/src/persistence.ts,
 persistCompactionEvent): two UPDATE statements, +1000000 then -999999, over a column with
 a unique index. PostgreSQL checks that index row by row, in an order of its own choosing.
 */
module CompactionShift {
  import opened Common

  type RowId = nat

  /** One session's rows: id to sequence. */
  type Rows = map<RowId, int>

  const LIFT := 1_000_000
  const LOWER := -999_999

  ghost predicate Unique(rows: Rows) {
    forall a, b :: a in rows && b in rows && a != b ==> rows[a] != rows[b]
  }

  /** The rows a statement selects when it starts. */
  function Tail(rows: Rows, from: int): set<RowId> {
    set id | id in rows && rows[id] >= from
  }

  /** `order` visits exactly the rows of `ids`, each once. */
  ghost predicate Visits(order: seq<RowId>, ids: set<RowId>) {
    Distinct(order) && forall id :: id in order <==> id in ids
  }

  function Ids(order: seq<RowId>): set<RowId> {
    set id | id in order
  }

  /** Whether giving row `id` the sequence `value` would violate the unique index. */
  predicate Clashes(rows: Rows, id: RowId, value: int) {
    exists other :: other in rows && other != id && rows[other] == value
  }

  /** UPDATE ... SET sequence = sequence + offset, row by row; None when the index refuses a row. */
  function Update(rows: Rows, order: seq<RowId>, offset: int): Option<Rows>
    requires forall id :: id in order ==> id in rows
    ensures Update(rows, order, offset).Some? ==> Update(rows, order, offset).value.Keys == rows.Keys
  {
    if order == [] then Some(rows)
    else
      var k := |order| - 1;
      match Update(rows, order[..k], offset)
      case None => None
      case Some(done) =>
        if Clashes(done, order[k], done[order[k]] + offset) then None
        else Some(done[order[k] := done[order[k]] + offset])
  }

  function Moved(rows: Rows, ids: set<RowId>, offset: int): Rows {
    map id | id in rows :: if id in ids then rows[id] + offset else rows[id]
  }

  /** Both statements, or None when either one fails and the transaction rolls back. */
  function OpenSlot(rows: Rows, slot: int, first: seq<RowId>, second: seq<RowId>): Option<Rows>
    requires forall id :: id in first || id in second ==> id in rows
  {
    match Update(rows, first, LIFT)
    case None => None
    case Some(lifted) => Update(lifted, second, LOWER)
  }

  /** No two rows of the tail are exactly 1000000 or 999999 apart. */
  ghost predicate SpanSafe(rows: Rows, slot: int) {
    forall a, b :: a in Tail(rows, slot) && b in Tail(rows, slot) ==>
      rows[b] - rows[a] != LIFT && rows[b] - rows[a] != -LOWER
  }

  /** What the statements are for: the tail moves up by one. */
  function Shifted(rows: Rows, slot: int): Rows {
    Moved(rows, Tail(rows, slot), 1)
  }

  // ---------------------------------------------------------------- one statement

  /** A statement that succeeds has moved each selected row once. */
  lemma {:induction false} UpdateMoves(rows: Rows, order: seq<RowId>, offset: int)
    requires Distinct(order) && forall id :: id in order ==> id in rows
    requires Update(rows, order, offset).Some?
    ensures Update(rows, order, offset) == Some(Moved(rows, Ids(order), offset))
  {
    if order == [] {
      assert Moved(rows, Ids(order), offset) == rows;
    } else {
      var front, last := order[..|order| - 1], order[|order| - 1];
      UpdateMoves(rows, front, offset);
      IdsPush(front, last);
      MovedPush(rows, Ids(front), last, offset);
      assert order == front + [last] && last !in front;
    }
  }

  lemma IdsPush(front: seq<RowId>, last: RowId)
    ensures Ids(front + [last]) == Ids(front) + {last}
  {
  }

  lemma MovedPush(rows: Rows, ids: set<RowId>, last: RowId, offset: int)
    requires last in rows && last !in ids
    ensures Moved(rows, ids + {last}, offset) == Moved(rows, ids, offset)[last := rows[last] + offset]
  {
  }

  /** A statement succeeds in every order when no selected row lands on a row's old place. */
  lemma {:induction false} UpdateSucceeds(rows: Rows, order: seq<RowId>, offset: int)
    requires Unique(rows) && Distinct(order)
    requires forall id :: id in order ==> id in rows
    requires forall a, b :: a in order && b in rows && a != b ==> rows[a] + offset != rows[b]
    ensures Update(rows, order, offset).Some?
  {
    if order != [] {
      var k := |order| - 1;
      assert order == order[..k] + [order[k]] && order[k] !in order[..k];
      UpdateSucceeds(rows, order[..k], offset);
      UpdateMoves(rows, order[..k], offset);
    }
  }

  /** A statement that starts with a row landing on another one fails. */
  lemma {:induction false} UpdateFails(rows: Rows, order: seq<RowId>, offset: int, other: RowId)
    requires order != [] && forall id :: id in order ==> id in rows
    requires other in rows && other != order[0] && rows[other] == rows[order[0]] + offset
    ensures Update(rows, order, offset).None?
  {
    var k := |order| - 1;
    if k == 0 {
      assert order[..0] == [];
    } else {
      UpdateFails(rows, order[..k], offset, other);
    }
  }

  lemma {:induction false} OrderStartingWith(ids: set<RowId>, first: RowId) returns (order: seq<RowId>)
    requires first in ids
    ensures Visits(order, ids) && order[0] == first
  {
    var rest := ids - {first};
    if rest == {} {
      order := [first];
    } else {
      var next :| next in rest;
      order := OrderStartingWith(rest, next);
      order := [first] + order;
    }
  }

  lemma OrderExists(ids: set<RowId>) returns (order: seq<RowId>)
    ensures Visits(order, ids)
  {
    if ids == {} {
      order := [];
    } else {
      var first :| first in ids;
      order := OrderStartingWith(ids, first);
    }
  }

  // ---------------------------------------------------------------- both statements

  lemma LiftedTail(rows: Rows, slot: int)
    ensures var lifted := Moved(rows, Tail(rows, slot), LIFT);
      && Tail(lifted, slot + LIFT) == Tail(rows, slot)
      && Moved(lifted, Tail(rows, slot), LOWER) == Shifted(rows, slot)
  {
  }

  /** Whenever both statements succeed, the tail has moved up by one. */
  lemma OpenSlotShifts(rows: Rows, slot: int, first: seq<RowId>, second: seq<RowId>)
    requires Visits(first, Tail(rows, slot)) && Visits(second, Tail(rows, slot))
    requires OpenSlot(rows, slot, first, second).Some?
    ensures OpenSlot(rows, slot, first, second) == Some(Shifted(rows, slot))
  {
    assert Ids(first) == Tail(rows, slot) == Ids(second);
    UpdateMoves(rows, first, LIFT);
    UpdateMoves(Moved(rows, Tail(rows, slot), LIFT), second, LOWER);
    LiftedTail(rows, slot);
  }

  lemma OpenSlotSucceeds(rows: Rows, slot: int, first: seq<RowId>, second: seq<RowId>)
    requires Unique(rows) && SpanSafe(rows, slot)
    requires Visits(first, Tail(rows, slot)) && Visits(second, Tail(rows, slot))
    ensures OpenSlot(rows, slot, first, second).Some?
  {
    assert Ids(first) == Tail(rows, slot) == Ids(second);
    UpdateSucceeds(rows, first, LIFT);
    UpdateMoves(rows, first, LIFT);
    UpdateSucceeds(Moved(rows, Tail(rows, slot), LIFT), second, LOWER);
  }

  /** The two statements are safe in every visiting order exactly when no distances clash. */
  lemma OpenSlotSafeIff(rows: Rows, slot: int)
    requires Unique(rows)
    ensures SpanSafe(rows, slot) <==>
            forall first, second :: Visits(first, Tail(rows, slot)) && Visits(second, Tail(rows, slot)) ==>
              OpenSlot(rows, slot, first, second).Some?
  {
    if SpanSafe(rows, slot) {
      forall first, second | Visits(first, Tail(rows, slot)) && Visits(second, Tail(rows, slot))
        ensures OpenSlot(rows, slot, first, second).Some?
      {
        OpenSlotSucceeds(rows, slot, first, second);
      }
    } else {
      var first, second := FailingOrders(rows, slot);
    }
  }

  lemma FailingOrders(rows: Rows, slot: int) returns (first: seq<RowId>, second: seq<RowId>)
    requires Unique(rows) && !SpanSafe(rows, slot)
    ensures Visits(first, Tail(rows, slot)) && Visits(second, Tail(rows, slot))
    ensures OpenSlot(rows, slot, first, second).None?
  {
    var tail := Tail(rows, slot);
    if a, b :| a in tail && b in tail && rows[b] - rows[a] == LIFT {
      first := OrderStartingWith(tail, a);
      second := first;
      UpdateFails(rows, first, LIFT, b);
    } else {
      var a, b :| a in tail && b in tail && rows[b] - rows[a] == -LOWER;
      first := OrderExists(tail);
      second := OrderStartingWith(tail, b);
      assert Ids(first) == tail;
      if Update(rows, first, LIFT).None? {
        return;
      }
      UpdateMoves(rows, first, LIFT);
      LiftedTail(rows, slot);
      UpdateFails(Moved(rows, tail, LIFT), second, LOWER, a);
    }
  }

  /** A tail spanning fewer than 999999 is always safe; at 999999 exactly it may fail. */
  lemma ShortTailIsSafe(rows: Rows, slot: int)
    requires forall a, b :: a in Tail(rows, slot) && b in Tail(rows, slot) ==> rows[b] - rows[a] < -LOWER
    ensures SpanSafe(rows, slot)
  {
  }

  lemma SpanBelowMillionCanFail() returns (rows: Rows, first: seq<RowId>, second: seq<RowId>)
    ensures Unique(rows) && forall a, b :: a in rows && b in rows ==> rows[b] - rows[a] < LIFT
    ensures Visits(first, Tail(rows, 1)) && Visits(second, Tail(rows, 1))
    ensures OpenSlot(rows, 1, first, second).None?
  {
    rows := map[0 := 1, 1 := 1_000_000];
    assert rows[1] - rows[0] == -LOWER && 0 in Tail(rows, 1) && 1 in Tail(rows, 1);
    first, second := FailingOrders(rows, 1);
  }

  /** The result: unique, in the old order, rows before the slot untouched, the slot free. */
  lemma ShiftedOpensSlot(rows: Rows, slot: int)
    requires Unique(rows)
    ensures Unique(Shifted(rows, slot)) && slot !in Shifted(rows, slot).Values
    ensures forall a, b :: a in rows && b in rows && rows[a] < rows[b] ==>
      Shifted(rows, slot)[a] < Shifted(rows, slot)[b]
    ensures forall a :: a in rows ==> Shifted(rows, slot)[a] == rows[a] + if rows[a] >= slot then 1 else 0
  {
  }

  // ---------------------------------------------------------------- the table

  class SequenceTable {
    var rows: Rows

    constructor (rows: Rows)
      ensures this.rows == rows
    {
      this.rows := rows;
    }

    method UpdateRows(order: seq<RowId>, offset: int) returns (ok: bool)
      requires forall id :: id in order ==> id in rows
      modifies this
      ensures ok <==> Update(old(rows), order, offset).Some?
      ensures ok ==> Some(rows) == Update(old(rows), order, offset)
    {
      for k := 0 to |order|
        invariant rows.Keys == old(rows.Keys)
        invariant Some(rows) == Update(old(rows), order[..k], offset)
      {
        var id := order[k];
        assert order[..k + 1][..k] == order[..k];
        if Clashes(rows, id, rows[id] + offset) {
          UpdateStaysFailed(old(rows), order, offset, k + 1);
          return false;
        }
        rows := rows[id := rows[id] + offset];
      }
      assert order[..|order|] == order;
      ok := true;
    }

    /** The transaction: both statements, and the row of the compaction event itself. */
    method InsertAt(slot: int, first: seq<RowId>, second: seq<RowId>, id: RowId) returns (ok: bool)
      requires Unique(rows) && id !in rows
      requires Visits(first, Tail(rows, slot)) && Visits(second, Tail(rows, slot))
      modifies this
      ensures ok <==> OpenSlot(old(rows), slot, first, second).Some?
      ensures SpanSafe(old(rows), slot) ==> ok
      ensures ok ==> rows == Shifted(old(rows), slot)[id := slot] && Unique(rows)
      ensures !ok ==> rows == old(rows)
    {
      var before := rows;
      if SpanSafe(rows, slot) {
        OpenSlotSucceeds(rows, slot, first, second);
      }
      ShiftedOpensSlot(rows, slot);
      ok := UpdateRows(first, LIFT);
      if ok {
        ok := UpdateRows(second, LOWER);
      }
      if ok {
        OpenSlotShifts(before, slot, first, second);
        rows := rows[id := slot];
      } else {
        rows := before;
      }
    }
  }

  lemma {:induction false} UpdateStaysFailed(rows: Rows, order: seq<RowId>, offset: int, k: nat)
    requires forall id :: id in order ==> id in rows
    requires k <= |order| && Update(rows, order[..k], offset).None?
    ensures Update(rows, order, offset).None?
    decreases |order| - k
  {
    if k == |order| {
      assert order[..k] == order;
    } else {
      assert order[..k + 1][..k] == order[..k];
      UpdateStaysFailed(rows, order, offset, k + 1);
    }
  }
}
