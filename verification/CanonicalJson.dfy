/**
 Canonical serialization of a board-creation payload and the identity derived from it
 (apps/api/src/board-create-idempotency.ts).
 */
module CanonicalJson {
  import opened Common
  import opened JsonText

  /** Where localeCompare places each key; keys it finds equal have the same weight. */
  type Collation = map<Text, int>

  function Weight(c: Collation, key: Text): int {
    if key in c then c[key] else 0
  }

  // ---------------------------------------------------------------- the serializer

  /** Stable sort of entries by key, as Array.prototype.sort does it. */
  function Insert(c: Collation, e: Entry, sorted: seq<Entry>): seq<Entry> {
    if sorted == [] || Weight(c, e.key) <= Weight(c, sorted[0].key) then [e] + sorted
    else [sorted[0]] + Insert(c, e, sorted[1..])
  }

  function Sort(c: Collation, entries: seq<Entry>): seq<Entry> {
    if entries == [] then [] else Insert(c, entries[0], Sort(c, entries[1..]))
  }

  /** Drops undefined members and sorts the rest, at every depth. */
  function Normalize(c: Collation, v: Json): Json
    decreases v, 0
  {
    match v
    case Arr(items) => Arr(NormalizeItems(c, items))
    case Obj(entries) => Obj(Sort(c, NormalizeEntries(c, entries)))
    case _ => v
  }

  function NormalizeItems(c: Collation, items: seq<Json>): (normal: seq<Json>)
    ensures |normal| == |items| && forall k :: 0 <= k < |items| ==> normal[k] == Normalize(c, items[k])
    decreases items, 0
  {
    if items == [] then [] else [Normalize(c, items[0])] + NormalizeItems(c, items[1..])
  }

  function NormalizeEntry(c: Collation, e: Entry): Entry
    decreases e, 1
  {
    Entry(e.key, Normalize(c, e.value))
  }

  function NormalizeEntries(c: Collation, entries: seq<Entry>): seq<Entry>
    decreases entries, 0
  {
    if entries == [] then []
    else (if entries[0].value.Undefined? then []
      else [NormalizeEntry(c, entries[0])]) + NormalizeEntries(c, entries[1..])
  }

  /** canonicalJson */
  function Canonical(c: Collation, v: Json): Text {
    Print(Normalize(c, v))
  }

  // ---------------------------------------------------------------- values, and when they are the same

  ghost predicate DistinctKeys(entries: seq<Entry>) {
    forall i, j :: 0 <= i < j < |entries| ==> entries[i].key != entries[j].key
  }

  // Integer-like keys come first in a JavaScript object, in ascending order, whatever wrote them.

  const MAX_INDEX := 4294967294

  function IndexValue(key: Text): int {
    if key == [] then 0 else 10 * IndexValue(key[..|key| - 1]) + (key[|key| - 1] as int - 0x30)
  }

  /** The key is an array index: canonical decimal digits below 2^32 - 1. */
  predicate IsIndex(key: Text) {
    && key != [] && (forall k :: 0 <= k < |key| ==> 0x30 <= key[k] <= 0x39)
    && (|key| == 1 || key[0] != 0x30) && IndexValue(key) <= MAX_INDEX
  }

  /** The order of two keys is fixed, and `x` comes first. */
  predicate Listed(x: Text, y: Text) {
    IsIndex(x) && (!IsIndex(y) || IndexValue(x) < IndexValue(y))
  }

  /** The order in which Object.entries lists an object. */
  ghost predicate ObjectOrder(entries: seq<Entry>) {
    forall i, j :: 0 <= i < j < |entries| && IsIndex(entries[j].key) ==> Listed(entries[i].key, entries[j].key)
  }

  /** A JSON value: undefined only as a member of an object, keys of an object distinct and in its order. */
  ghost predicate IsJson(v: Json)
    decreases v, 0
  {
    match v
    case Undefined => false
    case Num(digits) => IsNumber(digits)
    case Arr(items) => forall k :: 0 <= k < |items| ==> IsJson(items[k])
    case Obj(entries) =>
      && DistinctKeys(entries) && ObjectOrder(entries)
      && forall k :: 0 <= k < |entries| ==> entries[k].value.Undefined? || IsJson(entries[k].value)
    case _ => true
  }

  /** The value of a member, None when it is missing or undefined. */
  function Find(entries: seq<Entry>, key: Text): Option<Json> {
    if entries == [] then None
    else if entries[0].key == key && !entries[0].value.Undefined? then Some(entries[0].value)
    else Find(entries[1..], key)
  }

  lemma {:induction false} FindIsEntry(entries: seq<Entry>, key: Text)
    ensures Find(entries, key).Some? ==>
      exists k :: 0 <= k < |entries| && entries[k] == Entry(key, Find(entries, key).value) &&
        !entries[k].value.Undefined?
    ensures forall k :: 0 <= k < |entries| && entries[k].key == key && !entries[k].value.Undefined? ==>
      Find(entries, key).Some?
    ensures DistinctKeys(entries) ==>
      forall k :: 0 <= k < |entries| && entries[k].key == key && !entries[k].value.Undefined? ==>
        Find(entries, key) == Some(entries[k].value)
  {
    if entries != [] {
      FindIsEntry(entries[1..], key);
      assert forall k :: 0 < k < |entries| ==> entries[k] == entries[1..][k - 1];
      if Find(entries[1..], key).Some? {
        var k :| 0 <= k < |entries[1..]| && entries[1..][k] == Entry(key, Find(entries[1..], key).value) &&
          !entries[1..][k].value.Undefined?;
        assert entries[k + 1] == entries[1..][k];
      }
    }
  }

  /** Equal up to the order of object members and to members that are undefined, at every depth. */
  ghost predicate SameValue(v: Json, w: Json)
    decreases v, 1
  {
    match v
    case Arr(items) =>
      w.Arr? && |items| == |w.items| && forall k :: 0 <= k < |items| ==> SameValue(items[k], w.items[k])
    case Obj(entries) =>
      && w.Obj?
      && (forall k :: 0 <= k < |entries| && !entries[k].value.Undefined? ==>
            Find(w.entries, entries[k].key).Some? && SameValue(entries[k].value, Find(w.entries, entries[k].key).value))
      && (forall k :: 0 <= k < |w.entries| && !w.entries[k].value.Undefined? ==> Find(entries, w.entries[k].key).Some?)
    case _ => v == w
  }

  /** The collation tells any two keys apart whose order is not fixed anyway. */
  ghost predicate SeparatedKeys(c: Collation, entries: seq<Entry>) {
    forall i, j :: 0 <= i < j < |entries| && Free(entries[i]) && Free(entries[j]) ==>
      Weight(c, entries[i].key) != Weight(c, entries[j].key)
  }

  /** A member that is printed, and whose place depends on who wrote the object. */
  predicate Free(e: Entry) {
    !e.value.Undefined? && !IsIndex(e.key)
  }

  /** No object has two members that neither localeCompare nor the order of objects tells apart. */
  ghost predicate Separated(c: Collation, v: Json)
    decreases v, 0
  {
    match v
    case Arr(items) => forall k :: 0 <= k < |items| ==> Separated(c, items[k])
    case Obj(entries) =>
      && SeparatedKeys(c, entries)
      && forall k :: 0 <= k < |entries| ==> entries[k].value.Undefined? || Separated(c, entries[k].value)
    case _ => true
  }

  // ---------------------------------------------------------------- sorting

  lemma {:induction false} InsertMembers(c: Collation, e: Entry, sorted: seq<Entry>)
    ensures forall x :: x in Insert(c, e, sorted) <==> x == e || x in sorted
    ensures |Insert(c, e, sorted)| == |sorted| + 1
  {
    if sorted != [] {
      InsertMembers(c, e, sorted[1..]);
    }
  }

  lemma {:induction false} SortMembers(c: Collation, entries: seq<Entry>)
    ensures forall x :: x in Sort(c, entries) <==> x in entries
    ensures |Sort(c, entries)| == |entries|
  {
    if entries != [] {
      SortMembers(c, entries[1..]);
      InsertMembers(c, entries[0], Sort(c, entries[1..]));
    }
  }

  /** By weight, and by the fixed order of keys where weights are equal. */
  predicate Precedes(c: Collation, x: Text, y: Text) {
    Weight(c, x) < Weight(c, y) || (Weight(c, x) == Weight(c, y) && Listed(x, y))
  }

  /** Keys strictly increase, so no two entries are alike. */
  ghost predicate Ascending(c: Collation, entries: seq<Entry>) {
    forall i, j :: 0 <= i < j < |entries| ==> Precedes(c, entries[i].key, entries[j].key)
  }

  /** Entries of equal weight already stand in the fixed order of their keys. */
  ghost predicate Sortable(c: Collation, entries: seq<Entry>) {
    forall i, j :: 0 <= i < j < |entries| ==> MaySort(c, entries[i].key, entries[j].key)
  }

  predicate MaySort(c: Collation, x: Text, y: Text) {
    Weight(c, x) == Weight(c, y) ==> Listed(x, y)
  }

  lemma PrecedesTransitive(c: Collation, x: Text, y: Text, z: Text)
    requires Precedes(c, x, y) && Precedes(c, y, z)
    ensures Precedes(c, x, z)
  {
  }

  lemma ConsAscends(c: Collation, first: Entry, rest: seq<Entry>)
    requires Ascending(c, rest) && forall x :: x in rest ==> Precedes(c, first.key, x.key)
    ensures Ascending(c, [first] + rest)
  {
    var all := [first] + rest;
    forall i, j | 0 <= i < j < |all|
      ensures Precedes(c, all[i].key, all[j].key)
    {
      assert all[j] == rest[j - 1] && rest[j - 1] in rest;
      if i > 0 {
        assert all[i] == rest[i - 1];
      }
    }
  }

  lemma {:induction false} InsertAscends(c: Collation, e: Entry, sorted: seq<Entry>)
    requires Ascending(c, sorted) && forall x :: x in sorted ==> MaySort(c, e.key, x.key)
    ensures Ascending(c, Insert(c, e, sorted))
  {
    if sorted != [] && Weight(c, e.key) > Weight(c, sorted[0].key) {
      var first, rest := sorted[0], sorted[1..];
      InsertAscends(c, e, rest);
      InsertMembers(c, e, rest);
      forall x | x in Insert(c, e, rest)
        ensures Precedes(c, first.key, x.key)
      {
        if x != e {
          var k :| 0 <= k < |rest| && rest[k] == x;
          assert sorted[k + 1] == x;
        }
      }
      ConsAscends(c, first, Insert(c, e, rest));
    } else {
      forall x | x in sorted
        ensures Precedes(c, e.key, x.key)
      {
        var k :| 0 <= k < |sorted| && sorted[k] == x;
        assert k > 0 ==> Precedes(c, sorted[0].key, sorted[k].key);
      }
      ConsAscends(c, e, sorted);
    }
  }

  lemma {:induction false} SortAscends(c: Collation, entries: seq<Entry>)
    requires Sortable(c, entries)
    ensures Ascending(c, Sort(c, entries))
  {
    if entries != [] {
      var rest := entries[1..];
      SortAscends(c, rest);
      SortMembers(c, rest);
      forall x | x in Sort(c, rest)
        ensures MaySort(c, entries[0].key, x.key)
      {
        var k :| 0 <= k < |rest| && rest[k] == x;
        assert entries[k + 1] == x;
      }
      InsertAscends(c, entries[0], Sort(c, rest));
    }
  }

  /** Two ascending lists with the same members are the same list. */
  lemma {:induction false} AscendingUnique(c: Collation, a: seq<Entry>, b: seq<Entry>)
    requires Ascending(c, a) && Ascending(c, b)
    requires forall x :: x in a <==> x in b
    ensures a == b
    decreases |a|
  {
    if a == [] {
      assert forall k :: 0 <= k < |b| ==> b[k] in a;
    } else {
      assert a[0] in b;
      FirstPrecedes(c, a, b[0]);
      FirstPrecedes(c, b, a[0]);
      assert a[0] == b[0];
      forall x
        ensures x in a[1..] <==> x in b[1..]
      {
        TailMembers(c, a, x);
        TailMembers(c, b, x);
      }
      AscendingUnique(c, a[1..], b[1..]);
    }
  }

  lemma FirstPrecedes(c: Collation, a: seq<Entry>, x: Entry)
    requires Ascending(c, a) && a != []
    ensures a[0] in a
    ensures x in a ==> x == a[0] || Precedes(c, a[0].key, x.key)
  {
  }

  lemma TailMembers(c: Collation, a: seq<Entry>, x: Entry)
    requires a != [] && Ascending(c, a)
    ensures x in a[1..] <==> x in a && x != a[0]
  {
    if x in a && x != a[0] {
      var k :| 0 <= k < |a| && a[k] == x;
      assert a[1..][k - 1] == x;
    }
  }

  // ---------------------------------------------------------------- equal texts mean equal values

  /** The normalized entries are the defined ones, normalized. */
  lemma {:induction false} NormalMembers(c: Collation, entries: seq<Entry>)
    ensures forall x :: x in NormalizeEntries(c, entries) <==>
      exists k :: 0 <= k < |entries| && !entries[k].value.Undefined? && x == NormalizeEntry(c, entries[k])
  {
    if entries != [] {
      var rest := entries[1..];
      NormalMembers(c, rest);
      forall x
        ensures x in NormalizeEntries(c, entries) <==>
          exists k :: 0 <= k < |entries| && !entries[k].value.Undefined? && x == NormalizeEntry(c, entries[k])
      {
        if x in NormalizeEntries(c, rest) {
          var k :| 0 <= k < |rest| && !rest[k].value.Undefined? && x == NormalizeEntry(c, rest[k]);
          assert entries[k + 1] == rest[k];
        }
        if k :| 0 <= k < |entries| && !entries[k].value.Undefined? && x == NormalizeEntry(c, entries[k]) {
          assert k > 0 ==> rest[k - 1] == entries[k];
        }
      }
    }
  }

  lemma {:induction false} NormalizedIsExpressible(c: Collation, v: Json)
    requires IsJson(v)
    ensures Expressible(Normalize(c, v))
    decreases v
  {
    match v
    case Arr(items) =>
      forall k | 0 <= k < |items|
        ensures Expressible(NormalizeItems(c, items)[k])
      {
        NormalizedIsExpressible(c, items[k]);
      }
    case Obj(entries) =>
      var sorted := Sort(c, NormalizeEntries(c, entries));
      SortMembers(c, NormalizeEntries(c, entries));
      NormalMembers(c, entries);
      forall m | 0 <= m < |sorted|
        ensures Expressible(sorted[m].value)
      {
        assert sorted[m] in sorted;
        var k :| 0 <= k < |entries| && !entries[k].value.Undefined? && sorted[m] == NormalizeEntry(c, entries[k]);
        NormalizedIsExpressible(c, entries[k].value);
      }
    case _ =>
  }

  /** A member that is equal on both sides once normalized. */
  lemma MemberMatches(c: Collation, entries: seq<Entry>, others: seq<Entry>, k: nat) returns (m: nat)
    requires k < |entries| && !entries[k].value.Undefined? && DistinctKeys(others)
    requires forall x :: x in NormalizeEntries(c, entries) <==> x in NormalizeEntries(c, others)
    ensures m < |others| && others[m].key == entries[k].key && !others[m].value.Undefined?
    ensures Normalize(c, others[m].value) == Normalize(c, entries[k].value)
    ensures Find(others, entries[k].key) == Some(others[m].value)
  {
    NormalMembers(c, entries);
    NormalMembers(c, others);
    var x := NormalizeEntry(c, entries[k]);
    assert x in NormalizeEntries(c, others);
    m :| 0 <= m < |others| && !others[m].value.Undefined? && x == NormalizeEntry(c, others[m]);
    FindIsEntry(others, entries[k].key);
  }

  lemma {:induction false} EqualNormalsAreSame(c: Collation, v: Json, w: Json)
    requires IsJson(v) && IsJson(w) && Normalize(c, v) == Normalize(c, w)
    ensures SameValue(v, w)
    decreases v
  {
    match v
    case Arr(items) =>
      forall k | 0 <= k < |items|
        ensures SameValue(items[k], w.items[k])
      {
        assert NormalizeItems(c, items)[k] == NormalizeItems(c, w.items)[k];
        EqualNormalsAreSame(c, items[k], w.items[k]);
      }
    case Obj(entries) =>
      var others := w.entries;
      SortMembers(c, NormalizeEntries(c, entries));
      SortMembers(c, NormalizeEntries(c, others));
      forall k | 0 <= k < |entries| && !entries[k].value.Undefined?
        ensures Find(others, entries[k].key).Some? && SameValue(entries[k].value, Find(others, entries[k].key).value)
      {
        var m := MemberMatches(c, entries, others, k);
        EqualNormalsAreSame(c, entries[k].value, others[m].value);
      }
      forall m | 0 <= m < |others| && !others[m].value.Undefined?
        ensures Find(entries, others[m].key).Some?
      {
        var _ := MemberMatches(c, others, entries, m);
      }
    case _ =>
  }

  lemma TextsAreNormals(c: Collation, v: Json, w: Json)
    requires IsJson(v) && IsJson(w)
    ensures Canonical(c, v) == Canonical(c, w) <==> Normalize(c, v) == Normalize(c, w)
  {
    NormalizedIsExpressible(c, v);
    NormalizedIsExpressible(c, w);
    if Canonical(c, v) == Canonical(c, w) {
      assert Canonical(c, v) + [] == Canonical(c, v) && Canonical(c, w) + [] == Canonical(c, w);
      PrintUnique(Normalize(c, v), Normalize(c, w), [], []);
    }
  }

  /** The same text means the same value, whatever the collation. */
  lemma EqualTextsAreSame(c: Collation, v: Json, w: Json)
    requires IsJson(v) && IsJson(w) && Canonical(c, v) == Canonical(c, w)
    ensures SameValue(v, w)
  {
    TextsAreNormals(c, v, w);
    EqualNormalsAreSame(c, v, w);
  }

  // ---------------------------------------------------------------- equal values have equal texts

  lemma {:induction false} NormalsSortable(c: Collation, entries: seq<Entry>)
    requires SeparatedKeys(c, entries) && ObjectOrder(entries)
    ensures Sortable(c, NormalizeEntries(c, entries))
  {
    if entries != [] {
      var first, rest := entries[0], entries[1..];
      var normal := NormalizeEntries(c, rest);
      NormalsSortable(c, rest);
      NormalMembers(c, rest);
      NormalCons(c, entries);
      if !first.value.Undefined? {
        forall x | x in normal
          ensures MaySort(c, first.key, x.key)
        {
          var k :| 0 <= k < |rest| && !rest[k].value.Undefined? && x == NormalizeEntry(c, rest[k]);
          assert entries[k + 1] == rest[k];
        }
        ConsSortable(c, NormalizeEntry(c, first), normal);
      }
    }
  }

  lemma ConsSortable(c: Collation, first: Entry, rest: seq<Entry>)
    requires Sortable(c, rest) && forall x :: x in rest ==> MaySort(c, first.key, x.key)
    ensures Sortable(c, [first] + rest)
  {
    var all := [first] + rest;
    forall i, j | 0 <= i < j < |all|
      ensures MaySort(c, all[i].key, all[j].key)
    {
      assert all[j] == rest[j - 1] && rest[j - 1] in rest;
      if i > 0 {
        assert all[i] == rest[i - 1];
      }
    }
  }

  /** An object with the same members has its keys separated too. */
  lemma SameKeysSeparated(c: Collation, entries: seq<Entry>, others: seq<Entry>)
    requires SeparatedKeys(c, entries) && DistinctKeys(others)
    requires forall m :: 0 <= m < |others| && !others[m].value.Undefined? ==> Find(entries, others[m].key).Some?
    ensures SeparatedKeys(c, others)
  {
    forall i, j | 0 <= i < j < |others| && Free(others[i]) && Free(others[j])
      ensures Weight(c, others[i].key) != Weight(c, others[j].key)
    {
      FindIsEntry(entries, others[i].key);
      FindIsEntry(entries, others[j].key);
      var a :| 0 <= a < |entries| && entries[a] == Entry(others[i].key, Find(entries, others[i].key).value) &&
        !entries[a].value.Undefined?;
      var b :| 0 <= b < |entries| && entries[b] == Entry(others[j].key, Find(entries, others[j].key).value) &&
        !entries[b].value.Undefined?;
      assert a < b || b < a;
    }
  }

  lemma {:induction false} SameHaveEqualNormals(c: Collation, v: Json, w: Json)
    requires IsJson(v) && IsJson(w) && SameValue(v, w) && Separated(c, v)
    ensures Normalize(c, v) == Normalize(c, w)
    decreases v
  {
    match v
    case Arr(items) =>
      forall k | 0 <= k < |items|
        ensures Normalize(c, items[k]) == Normalize(c, w.items[k])
      {
        SameHaveEqualNormals(c, items[k], w.items[k]);
      }
      assert NormalizeItems(c, items) == NormalizeItems(c, w.items);
    case Obj(entries) =>
      var others := w.entries;
      forall k | 0 <= k < |entries| && !entries[k].value.Undefined?
        ensures Find(others, entries[k].key).Some? &&
          Normalize(c, entries[k].value) == Normalize(c, Find(others, entries[k].key).value)
      {
        var y := Find(others, entries[k].key).value;
        FindIsEntry(others, entries[k].key);
        SameHaveEqualNormals(c, entries[k].value, y);
      }
      SameNormalMembers(c, entries, others);
      SameKeysSeparated(c, entries, others);
      NormalsSortable(c, entries);
      NormalsSortable(c, others);
      SortAscends(c, NormalizeEntries(c, entries));
      SortAscends(c, NormalizeEntries(c, others));
      SortMembers(c, NormalizeEntries(c, entries));
      SortMembers(c, NormalizeEntries(c, others));
      AscendingUnique(c, Sort(c, NormalizeEntries(c, entries)), Sort(c, NormalizeEntries(c, others)));
    case _ =>
  }

  lemma SameNormalMembers(c: Collation, entries: seq<Entry>, others: seq<Entry>)
    requires DistinctKeys(entries) && DistinctKeys(others)
    requires forall k :: 0 <= k < |entries| && !entries[k].value.Undefined? ==>
      Find(others, entries[k].key).Some? &&
        Normalize(c, entries[k].value) == Normalize(c, Find(others, entries[k].key).value)
    requires forall m :: 0 <= m < |others| && !others[m].value.Undefined? ==> Find(entries, others[m].key).Some?
    ensures forall x :: x in NormalizeEntries(c, entries) <==> x in NormalizeEntries(c, others)
  {
    NormalMembers(c, entries);
    NormalMembers(c, others);
    forall x | x in NormalizeEntries(c, entries)
      ensures x in NormalizeEntries(c, others)
    {
      var k :| 0 <= k < |entries| && !entries[k].value.Undefined? && x == NormalizeEntry(c, entries[k]);
      FindIsEntry(others, entries[k].key);
      var m :| 0 <= m < |others| && others[m] == Entry(entries[k].key, Find(others, entries[k].key).value) &&
        !others[m].value.Undefined?;
      assert x == NormalizeEntry(c, others[m]);
    }
    forall x | x in NormalizeEntries(c, others)
      ensures x in NormalizeEntries(c, entries)
    {
      var m :| 0 <= m < |others| && !others[m].value.Undefined? && x == NormalizeEntry(c, others[m]);
      FindIsEntry(entries, others[m].key);
      FindIsEntry(others, others[m].key);
      var k :| 0 <= k < |entries| && entries[k] == Entry(others[m].key, Find(entries, others[m].key).value) &&
        !entries[k].value.Undefined?;
      assert x == NormalizeEntry(c, entries[k]);
    }
  }

  /** Under a collation that tells an object's keys apart, texts are equal exactly for equal values. */
  lemma CanonicalIsExact(c: Collation, v: Json, w: Json)
    requires IsJson(v) && IsJson(w) && Separated(c, v)
    ensures Canonical(c, v) == Canonical(c, w) <==> SameValue(v, w)
  {
    if Canonical(c, v) == Canonical(c, w) {
      EqualTextsAreSame(c, v, w);
    }
    if SameValue(v, w) {
      SameHaveEqualNormals(c, v, w);
    }
  }

  // ---------------------------------------------------------------- and only under such a collation

  ghost predicate Before<T>(s: seq<T>, x: T, y: T) {
    exists p, q :: 0 <= p < q < |s| && s[p] == x && s[q] == y
  }

  lemma BeforeCons<T>(first: T, s: seq<T>, x: T, y: T)
    ensures Before(s, x, y) ==> Before([first] + s, x, y)
    ensures y in s ==> Before([first] + s, first, y)
  {
    var t := [first] + s;
    if p, q :| 0 <= p < q < |s| && s[p] == x && s[q] == y {
      assert t[p + 1] == x && t[q + 1] == y;
    }
    if q :| 0 <= q < |s| && s[q] == y {
      assert t[0] == first && t[q + 1] == y;
    }
  }

  lemma BeforeTail<T>(s: seq<T>, x: T, y: T)
    requires Before(s, x, y)
    ensures s != [] && y in s[1..]
    ensures x != s[0] ==> Before(s[1..], x, y)
  {
    var p, q :| 0 <= p < q < |s| && s[p] == x && s[q] == y;
    assert s[1..][q - 1] == y;
    if x != s[0] {
      assert s[1..][p - 1] == x;
    }
  }

  lemma {:induction false} InsertKeepsBefore(c: Collation, e: Entry, sorted: seq<Entry>, x: Entry, y: Entry)
    requires Before(sorted, x, y)
    ensures Before(Insert(c, e, sorted), x, y)
  {
    if Weight(c, e.key) <= Weight(c, sorted[0].key) {
      BeforeCons(e, sorted, x, y);
    } else {
      BeforeTail(sorted, x, y);
      InsertMembers(c, e, sorted[1..]);
      if x != sorted[0] {
        InsertKeepsBefore(c, e, sorted[1..], x, y);
      }
      BeforeCons(sorted[0], Insert(c, e, sorted[1..]), x, y);
    }
  }

  lemma {:induction false} InsertGoesBeforeTied(c: Collation, e: Entry, sorted: seq<Entry>, y: Entry)
    requires y in sorted && Weight(c, e.key) == Weight(c, y.key)
    ensures Before(Insert(c, e, sorted), e, y)
  {
    if Weight(c, e.key) <= Weight(c, sorted[0].key) {
      BeforeCons(e, sorted, e, y);
    } else {
      assert sorted == [sorted[0]] + sorted[1..];
      InsertGoesBeforeTied(c, e, sorted[1..], y);
      BeforeCons(sorted[0], Insert(c, e, sorted[1..]), e, y);
    }
  }

  /** Sorting keeps the order of members whose keys compare equal. */
  lemma {:induction false} SortKeepsTiedOrder(c: Collation, entries: seq<Entry>, x: Entry, y: Entry)
    requires Before(entries, x, y) && Weight(c, x.key) == Weight(c, y.key)
    ensures Before(Sort(c, entries), x, y)
  {
    var first, rest := entries[0], entries[1..];
    BeforeTail(entries, x, y);
    SortMembers(c, rest);
    if x == first {
      InsertGoesBeforeTied(c, first, Sort(c, rest), y);
    } else {
      SortKeepsTiedOrder(c, rest, x, y);
      InsertKeepsBefore(c, first, Sort(c, rest), x, y);
    }
  }

  lemma NormalCons(c: Collation, entries: seq<Entry>)
    requires entries != []
    ensures NormalizeEntries(c, entries) ==
      if entries[0].value.Undefined? then NormalizeEntries(c, entries[1..])
      else [NormalizeEntry(c, entries[0])] + NormalizeEntries(c, entries[1..])
  {
  }

  lemma NormalHas(c: Collation, entries: seq<Entry>, k: nat)
    requires k < |entries| && !entries[k].value.Undefined?
    ensures NormalizeEntry(c, entries[k]) in NormalizeEntries(c, entries)
  {
    NormalMembers(c, entries);
  }

  lemma {:induction false} NormalKeepsOrder(c: Collation, entries: seq<Entry>, i: nat, j: nat)
    requires i < j < |entries| && !entries[i].value.Undefined? && !entries[j].value.Undefined?
    ensures Before(NormalizeEntries(c, entries), NormalizeEntry(c, entries[i]), NormalizeEntry(c, entries[j]))
  {
    var first, rest := NormalizeEntry(c, entries[0]), NormalizeEntries(c, entries[1..]);
    NormalCons(c, entries);
    BeforeCons(first, rest, NormalizeEntry(c, entries[i]), NormalizeEntry(c, entries[j]));
    if i == 0 {
      NormalHas(c, entries[1..], j - 1);
    } else {
      NormalKeepsOrder(c, entries[1..], i - 1, j - 1);
    }
  }

  lemma {:induction false} DistinctCons(first: Entry, rest: seq<Entry>)
    requires DistinctKeys(rest) && forall x :: x in rest ==> x.key != first.key
    ensures DistinctKeys([first] + rest)
  {
    var all := [first] + rest;
    forall i, j | 0 <= i < j < |all|
      ensures all[i].key != all[j].key
    {
      assert all[j] == rest[j - 1] && rest[j - 1] in rest;
      if i > 0 {
        assert all[i] == rest[i - 1];
      }
    }
  }

  lemma {:induction false} InsertKeepsDistinct(c: Collation, e: Entry, sorted: seq<Entry>)
    requires DistinctKeys(sorted) && forall x :: x in sorted ==> x.key != e.key
    ensures DistinctKeys(Insert(c, e, sorted))
  {
    if sorted == [] || Weight(c, e.key) <= Weight(c, sorted[0].key) {
      DistinctCons(e, sorted);
    } else {
      var first, rest := sorted[0], sorted[1..];
      InsertKeepsDistinct(c, e, rest);
      InsertMembers(c, e, rest);
      assert first in sorted && forall k :: 0 <= k < |rest| ==> rest[k] == sorted[k + 1];
      DistinctCons(first, Insert(c, e, rest));
    }
  }

  lemma {:induction false} SortedNormalsDistinct(c: Collation, entries: seq<Entry>)
    requires DistinctKeys(entries)
    ensures DistinctKeys(Sort(c, NormalizeEntries(c, entries)))
  {
    if entries != [] {
      var first, rest := entries[0], entries[1..];
      var normal := NormalizeEntries(c, rest);
      SortedNormalsDistinct(c, rest);
      if first.value.Undefined? {
        assert NormalizeEntries(c, entries) == normal;
      } else {
        NormalMembers(c, rest);
        SortMembers(c, normal);
        forall x | x in normal
          ensures x.key != first.key
        {
          var k :| 0 <= k < |rest| && !rest[k].value.Undefined? && x == NormalizeEntry(c, rest[k]);
          assert rest[k] == entries[k + 1];
        }
        assert NormalizeEntries(c, entries) == [NormalizeEntry(c, first)] + normal;
        assert ([NormalizeEntry(c, first)] + normal)[1..] == normal;
        InsertKeepsDistinct(c, NormalizeEntry(c, first), Sort(c, normal));
      }
    }
  }

  lemma OneOrder(entries: seq<Entry>, x: Entry, y: Entry)
    requires DistinctKeys(entries) && Before(entries, x, y) && x.key != y.key
    ensures !Before(entries, y, x)
  {
    var p, q :| 0 <= p < q < |entries| && entries[p] == x && entries[q] == y;
    forall k | 0 <= k < |entries|
      ensures entries[k] == x ==> k == p
      ensures entries[k] == y ==> k == q
    {
      assert k < p || k == p || p < k;
      assert k < q || k == q || q < k;
    }
  }

  lemma {:induction false} SameAsItself(v: Json)
    requires IsJson(v)
    ensures SameValue(v, v)
    decreases v
  {
    match v
    case Arr(items) =>
      forall k | 0 <= k < |items|
        ensures SameValue(items[k], items[k])
      {
        SameAsItself(items[k]);
      }
    case Obj(entries) =>
      forall k | 0 <= k < |entries| && !entries[k].value.Undefined?
        ensures Find(entries, entries[k].key) == Some(entries[k].value) && SameValue(entries[k].value, entries[k].value)
      {
        FindIsEntry(entries, entries[k].key);
        SameAsItself(entries[k].value);
      }
    case _ =>
  }

  /** The list with two members exchanged. */
  function Exchanged(entries: seq<Entry>, i: nat, j: nat): seq<Entry>
    requires i < j < |entries|
  {
    entries[i := entries[j]][j := entries[i]]
  }

  lemma ExchangedIsSame(entries: seq<Entry>, i: nat, j: nat)
    requires i < j < |entries| && IsJson(Obj(entries)) && Free(entries[i]) && Free(entries[j])
    ensures IsJson(Obj(Exchanged(entries, i, j)))
    ensures SameValue(Obj(entries), Obj(Exchanged(entries, i, j)))
  {
    var others := Exchanged(entries, i, j);
    ExchangedKeepsOrder(entries, i, j);
    forall k | 0 <= k < |entries|
      ensures others[k].value.Undefined? || IsJson(others[k].value)
      ensures !entries[k].value.Undefined? ==>
        Find(others, entries[k].key) == Some(entries[k].value) && SameValue(entries[k].value, entries[k].value)
      ensures !others[k].value.Undefined? ==> Find(entries, others[k].key).Some?
    {
      ExchangedFinds(entries, i, j, k);
      if !entries[k].value.Undefined? {
        SameAsItself(entries[k].value);
      }
    }
  }

  lemma ExchangedFinds(entries: seq<Entry>, i: nat, j: nat, k: nat)
    requires i < j < |entries| && k < |entries| && DistinctKeys(Exchanged(entries, i, j))
    ensures var others := Exchanged(entries, i, j);
      && (exists m :: 0 <= m < |entries| && others[k] == entries[m])
      && (!entries[k].value.Undefined? ==> Find(others, entries[k].key) == Some(entries[k].value))
      && (!others[k].value.Undefined? ==> Find(entries, others[k].key).Some?)
  {
    var others := Exchanged(entries, i, j);
    var m := if k == i then j else if k == j then i else k;
    assert others[m] == entries[k] && others[k] == entries[m];
    FindIsEntry(others, entries[k].key);
    FindIsEntry(entries, others[k].key);
  }

  lemma ExchangedKeepsOrder(entries: seq<Entry>, i: nat, j: nat)
    requires i < j < |entries| && DistinctKeys(entries) && ObjectOrder(entries)
    requires !IsIndex(entries[i].key) && !IsIndex(entries[j].key)
    ensures DistinctKeys(Exchanged(entries, i, j)) && ObjectOrder(Exchanged(entries, i, j))
  {
    var others := Exchanged(entries, i, j);
    assert forall k :: i < k < |entries| ==> !IsIndex(entries[k].key);
    assert forall k :: 0 <= k < |entries| ==> others[k] == entries[if k == i then j else if k == j then i else k];
  }

  lemma ExchangingTiedShows(c: Collation, entries: seq<Entry>, i: nat, j: nat)
    requires i < j < |entries| && IsJson(Obj(entries)) && Free(entries[i]) && Free(entries[j])
    requires Weight(c, entries[i].key) == Weight(c, entries[j].key)
    ensures Normalize(c, Obj(Exchanged(entries, i, j))) != Normalize(c, Obj(entries))
  {
    var others := Exchanged(entries, i, j);
    var x, y := NormalizeEntry(c, entries[i]), NormalizeEntry(c, entries[j]);
    NormalKeepsOrder(c, entries, i, j);
    SortKeepsTiedOrder(c, NormalizeEntries(c, entries), x, y);
    NormalKeepsOrder(c, others, i, j);
    SortKeepsTiedOrder(c, NormalizeEntries(c, others), y, x);
    SortedNormalsDistinct(c, entries);
    OneOrder(Sort(c, NormalizeEntries(c, entries)), x, y);
  }

  lemma ReplacedItemIsSame(items: seq<Json>, k: nat, twin: Json)
    requires k < |items| && IsJson(Arr(items)) && IsJson(twin) && SameValue(items[k], twin)
    ensures IsJson(Arr(items[k := twin])) && SameValue(Arr(items), Arr(items[k := twin]))
  {
    forall m | 0 <= m < |items|
      ensures SameValue(items[m], items[k := twin][m])
    {
      SameAsItself(items[m]);
    }
  }

  lemma ReplacedMemberIsSame(entries: seq<Entry>, k: nat, twin: Json)
    requires k < |entries| && IsJson(Obj(entries)) && IsJson(twin) && !entries[k].value.Undefined? &&
      SameValue(entries[k].value, twin)
    ensures var others := entries[k := Entry(entries[k].key, twin)];
      IsJson(Obj(others)) && SameValue(Obj(entries), Obj(others))
  {
    var others := entries[k := Entry(entries[k].key, twin)];
    forall m | 0 <= m < |entries| && !entries[m].value.Undefined?
      ensures Find(others, entries[m].key).Some? && SameValue(entries[m].value, Find(others, entries[m].key).value)
      ensures Find(entries, others[m].key).Some?
    {
      FindIsEntry(others, others[m].key);
      FindIsEntry(entries, entries[m].key);
      SameAsItself(entries[m].value);
    }
  }

  lemma ReplacedMemberShows(c: Collation, entries: seq<Entry>, k: nat, twin: Json)
    requires k < |entries| && DistinctKeys(entries) && !entries[k].value.Undefined? && !twin.Undefined?
    requires Normalize(c, twin) != Normalize(c, entries[k].value)
    ensures Normalize(c, Obj(entries[k := Entry(entries[k].key, twin)])) != Normalize(c, Obj(entries))
  {
    var others := entries[k := Entry(entries[k].key, twin)];
    var x := NormalizeEntry(c, others[k]);
    NormalMembers(c, entries);
    NormalMembers(c, others);
    assert x in NormalizeEntries(c, others) && x !in NormalizeEntries(c, entries);
    SortMembers(c, NormalizeEntries(c, entries));
    SortMembers(c, NormalizeEntries(c, others));
  }

  /** A value with tied keys somewhere has a twin: the same value, printed differently. */
  lemma {:induction false} TiedKeysHaveTwin(c: Collation, v: Json) returns (w: Json)
    requires IsJson(v) && !Separated(c, v)
    ensures IsJson(w) && SameValue(v, w) && Normalize(c, w) != Normalize(c, v)
    decreases v
  {
    match v
    case Arr(items) =>
      var k :| 0 <= k < |items| && !Separated(c, items[k]);
      var twin := TiedKeysHaveTwin(c, items[k]);
      w := Arr(items[k := twin]);
      ReplacedItemIsSame(items, k, twin);
      assert NormalizeItems(c, items[k := twin])[k] != NormalizeItems(c, items)[k];
    case Obj(entries) =>
      if SeparatedKeys(c, entries) {
        var k :| 0 <= k < |entries| && !entries[k].value.Undefined? && !Separated(c, entries[k].value);
        var twin := TiedKeysHaveTwin(c, entries[k].value);
        w := Obj(entries[k := Entry(entries[k].key, twin)]);
        ReplacedMemberIsSame(entries, k, twin);
        ReplacedMemberShows(c, entries, k, twin);
      } else {
        var i, j :| 0 <= i < j < |entries| && Free(entries[i]) && Free(entries[j])
          && Weight(c, entries[i].key) == Weight(c, entries[j].key);
        w := Obj(Exchanged(entries, i, j));
        ExchangedIsSame(entries, i, j);
        ExchangingTiedShows(c, entries, i, j);
      }
    case _ =>
      assert false;
  }

  /**
   Every way to write a value gives one text exactly when the collation tells the keys of each of its
   objects apart.
   */
  lemma SeparatedIffOneText(c: Collation, v: Json)
    requires IsJson(v)
    ensures Separated(c, v) <==> forall w :: IsJson(w) && SameValue(v, w) ==> Canonical(c, v) == Canonical(c, w)
  {
    if Separated(c, v) {
      forall w | IsJson(w) && SameValue(v, w)
        ensures Canonical(c, v) == Canonical(c, w)
      {
        SameHaveEqualNormals(c, v, w);
      }
    } else {
      var w := TiedKeysHaveTwin(c, v);
      TextsAreNormals(c, v, w);
    }
  }

  // ---------------------------------------------------------------- the identity of a creation

  const NUL: Unit := 0
  const BOARD: Text := [0x62, 0x6F, 0x61, 0x72, 0x64]
  const TRANSACTION: Text := [0x74, 0x72, 0x61, 0x6E, 0x73, 0x61, 0x63, 0x74, 0x69, 0x6F, 0x6E]

  /** A SHA-256 digest in hexadecimal has 64 digits. */
  const DIGEST_LENGTH := 64

  /** Seeds of the two UUIDs. */
  datatype Identity = Identity(boardSeed: Text, transactionSeed: Text)

  function Seed(kind: Text, spaceId: Text, mutationId: Text, fingerprint: Text): Text {
    kind + ([NUL] + (spaceId + ([NUL] + (mutationId + ([NUL] + fingerprint)))))
  }

  /** buildBoardCreateIdentity: nothing without a mutation id, missing or empty. */
  function BuildIdentity(sha: Text -> Text, c: Collation, spaceId: Text, mutationId: Option<Text>,
      payload: Json): Option<Identity> {
    if mutationId.GetOr([]) == [] then None
    else
      var fingerprint := sha(Canonical(c, payload));
      Some(Identity(Seed(BOARD, spaceId, mutationId.value, fingerprint), Seed(TRANSACTION, spaceId, mutationId.value,
        fingerprint)))
  }

  lemma PartNotShorter(a: Text, b: Text, r: Text, q: Text)
    requires NUL !in b && a + ([NUL] + r) == b + ([NUL] + q)
    ensures |a| >= |b|
  {
    if |a| < |b| {
      Overlap(a, b, [NUL] + r, [NUL] + q, |a|);
    }
  }

  lemma PartsUnique(a: Text, b: Text, r: Text, q: Text)
    requires NUL !in a && NUL !in b && a + ([NUL] + r) == b + ([NUL] + q)
    ensures a == b && r == q
  {
    PartNotShorter(a, b, r, q);
    PartNotShorter(b, a, q, r);
    SameLengthUnique(a, b, [NUL] + r, [NUL] + q);
    SameLengthUnique([NUL], [NUL], r, q);
  }

  /** The digest's fixed length keeps the seed readable from its end, whatever the mutation id holds. */
  lemma SeedUnique(kind: Text, other: Text, space1: Text, space2: Text, mutation1: Text, mutation2: Text,
      digest1: Text, digest2: Text)
    requires NUL !in kind && NUL !in other && NUL !in space1 && NUL !in space2 && |digest1| == |digest2|
    requires Seed(kind, space1, mutation1, digest1) == Seed(other, space2, mutation2, digest2)
    ensures kind == other && space1 == space2 && mutation1 == mutation2 && digest1 == digest2
  {
    var x, y := mutation1 + ([NUL] + digest1), mutation2 + ([NUL] + digest2);
    PartsUnique(kind, other, space1 + ([NUL] + x), space2 + ([NUL] + y));
    PartsUnique(space1, space2, x, y);
    SameLengthUnique(mutation1, mutation2, [NUL] + digest1, [NUL] + digest2);
    SameLengthUnique([NUL], [NUL], digest1, digest2);
  }

  /**
   Retrying gives the same identity exactly for the same space, mutation and digest, hence, unless
   the digests of the two payloads collide, for the same payload up to member order; and a board
   never shares its seed with a transaction.
   */
  lemma IdentityIsExact(sha: Text -> Text, c: Collation, space1: Text, space2: Text, mutation1: Text,
      mutation2: Text, v: Json, w: Json)
    requires forall t :: |sha(t)| == DIGEST_LENGTH
    requires NUL !in space1 && NUL !in space2 && mutation1 != [] && mutation2 != []
    requires IsJson(v) && IsJson(w)
    ensures var one := BuildIdentity(sha, c, space1, Some(mutation1), v).value;
      var two := BuildIdentity(sha, c, space2, Some(mutation2), w).value;
      && (one == two <==> space1 == space2 && mutation1 == mutation2 && sha(Canonical(c, v)) == sha(Canonical(c, w)))
      && (Separated(c, v) && (sha(Canonical(c, v)) == sha(Canonical(c, w)) ==> Canonical(c, v) == Canonical(c, w)) ==>
            (one == two <==> space1 == space2 && mutation1 == mutation2 && SameValue(v, w)))
      && (one.boardSeed == two.boardSeed <==> one == two)
      && one.boardSeed != two.transactionSeed
  {
    var one := BuildIdentity(sha, c, space1, Some(mutation1), v).value;
    var two := BuildIdentity(sha, c, space2, Some(mutation2), w).value;
    var digest1, digest2 := sha(Canonical(c, v)), sha(Canonical(c, w));
    if one.boardSeed == two.boardSeed {
      SeedUnique(BOARD, BOARD, space1, space2, mutation1, mutation2, digest1, digest2);
    }
    if Separated(c, v) {
      CanonicalIsExact(c, v, w);
    }
    assert one.boardSeed[0] == BOARD[0] && two.transactionSeed[0] == TRANSACTION[0];
  }
}
