/**
 JSON text as JSON.stringify writes it, over UTF-16 code units, and the fact that it can be
 read back: no two values have texts that start the same and end at a delimiter.
 */
module JsonText {
  import opened Common

  newtype Unit = x: int | 0 <= x < 0x1_0000

  type Text = seq<Unit>

  /** A value; numbers are their shortest decimal text, so -0 and 0 are one number. */
  datatype Json =
    | Undefined
    | Null
    | Bool(value: bool)
    | Num(digits: Text)
    | Str(text: Text)
    | Arr(items: seq<Json>)
    | Obj(entries: seq<Entry>)

  datatype Entry = Entry(key: Text, value: Json)

  const QUOTE: Unit := 0x22
  const BACKSLASH: Unit := 0x5C
  const COMMA: Unit := 0x2C
  const COLON: Unit := 0x3A
  const OPEN_ARRAY: Unit := 0x5B
  const CLOSE_ARRAY: Unit := 0x5D
  const OPEN_OBJECT: Unit := 0x7B
  const CLOSE_OBJECT: Unit := 0x7D

  // ---------------------------------------------------------------- strings

  predicate IsHigh(u: Unit) {
    0xD800 <= u <= 0xDBFF
  }

  predicate IsLow(u: Unit) {
    0xDC00 <= u <= 0xDFFF
  }

  function HexDigit(n: int): (u: Unit)
    requires 0 <= n < 16
  {
    if n < 10 then (0x30 + n) as Unit else (0x61 + n - 10) as Unit
  }

  function HexValue(u: Unit): int {
    if 0x30 <= u <= 0x39 then u as int - 0x30 else u as int - 0x61 + 10
  }

  function Hex(u: Unit): Text {
    var n := u as int;
    [HexDigit(n / 4096), HexDigit(n / 256 % 16), HexDigit(n / 16 % 16), HexDigit(n % 16)]
  }

  /** The letter of a two-character escape, 0 when there is none. */
  function ShortEscape(u: Unit): Unit {
    if u == QUOTE || u == BACKSLASH then u
    else if u == 0x08 then 0x62
    else if u == 0x0C then 0x66
    else if u == 0x0A then 0x6E
    else if u == 0x0D then 0x72
    else if u == 0x09 then 0x74
    else 0
  }

  /** One code unit that does not start a surrogate pair. */
  function EscapeUnit(u: Unit): Text {
    if ShortEscape(u) != 0 then [BACKSLASH, ShortEscape(u)]
    else if u < 0x20 || IsHigh(u) || IsLow(u) then [BACKSLASH, 0x75] + Hex(u)
    else [u]
  }

  /** A surrogate pair is copied, a lone surrogate escaped. */
  function Escape(s: Text): Text {
    if s == [] then []
    else if StartsPair(s) then [s[0], s[1]] + Escape(s[2..])
    else EscapeUnit(s[0]) + Escape(s[1..])
  }

  /** What JSON leaves as it is: no control character, quote, backslash or surrogate. */
  predicate IsPlain(u: Unit) {
    u >= 0x20 && u != 0x22 && u != 0x5C && !(0xD800 <= u <= 0xDFFF)
  }

  lemma EscapedIff(u: Unit)
    ensures EscapeUnit(u) == [u] <==> IsPlain(u)
  {
  }

  lemma {:induction false} PlainTextStays(s: Text)
    requires forall k :: 0 <= k < |s| ==> IsPlain(s[k])
    ensures Escape(s) == s
  {
    if s != [] {
      PlainTextStays(s[1..]);
      assert [s[0]] + s[1..] == s;
    }
  }

  function Quoted(s: Text): Text {
    [QUOTE] + Escape(s) + [QUOTE]
  }

  /** Reads an escaped string up to its closing quote: the string and what follows. */
  function Unescape(t: Text): (Text, Text)
    decreases |t|
  {
    if t == [] || t[0] == QUOTE then ([], if t == [] then [] else t[1..])
    else if t[0] == BACKSLASH && |t| >= 6 && t[1] == 0x75 then
      var n := HexValue(t[2]) * 4096 + HexValue(t[3]) * 256 + HexValue(t[4]) * 16 + HexValue(t[5]);
      var (s, rest) := Unescape(t[6..]);
      (if 0 <= n < 0x1_0000 then [n as Unit] + s else s, rest)
    else if t[0] == BACKSLASH && |t| >= 2 then
      var u: Unit := if t[1] == 0x62 then 0x08 else if t[1] == 0x66 then 0x0C else if t[1] == 0x6E then 0x0A
                     else if t[1] == 0x72 then 0x0D else if t[1] == 0x74 then 0x09 else t[1];
      var (s, rest) := Unescape(t[2..]);
      ([u] + s, rest)
    else
      var (s, rest) := Unescape(t[1..]);
      ([t[0]] + s, rest)
  }

  lemma HexReads(u: Unit)
    ensures var h := Hex(u);
      HexValue(h[0]) * 4096 + HexValue(h[1]) * 256 + HexValue(h[2]) * 16 + HexValue(h[3]) == u as int
  {
    var n := u as int;
    assert forall d :: 0 <= d < 16 ==> HexValue(HexDigit(d)) == d;
    assert n / 256 == n / 4096 * 16 + n / 256 % 16;
    assert n / 16 == n / 256 * 16 + n / 16 % 16;
  }

  lemma HexEscapeReads(u: Unit, t: Text)
    ensures Unescape([BACKSLASH, 0x75] + Hex(u) + t) == ([u] + Unescape(t).0, Unescape(t).1)
  {
    var h := Hex(u);
    var text := [BACKSLASH, 0x75] + h + t;
    assert text == [BACKSLASH, 0x75, h[0], h[1], h[2], h[3]] + t;
    HexEscapeAt(u, text);
    assert text[6..] == t;
  }

  lemma HexEscapeAt(u: Unit, text: Text)
    requires |text| >= 6 && text[0] == BACKSLASH && text[1] == 0x75
    requires var h := Hex(u); text[2] == h[0] && text[3] == h[1] && text[4] == h[2] && text[5] == h[3]
    ensures Unescape(text) == ([u] + Unescape(text[6..]).0, Unescape(text[6..]).1)
  {
    HexReads(u);
  }

  lemma ShortEscapeReads(u: Unit, t: Text)
    requires ShortEscape(u) != 0
    ensures Unescape([BACKSLASH, ShortEscape(u)] + t) == ([u] + Unescape(t).0, Unescape(t).1)
  {
    var text := [BACKSLASH, ShortEscape(u)] + t;
    assert text[0] == BACKSLASH && text[1] == ShortEscape(u) && text[2..] == t;
  }

  lemma PlainReads(u: Unit, t: Text)
    requires u != QUOTE && u != BACKSLASH
    ensures Unescape([u] + t) == ([u] + Unescape(t).0, Unescape(t).1)
  {
    assert ([u] + t)[1..] == t;
  }

  lemma EscapeUnitReads(u: Unit, t: Text)
    ensures Unescape(EscapeUnit(u) + t) == ([u] + Unescape(t).0, Unescape(t).1)
  {
    if ShortEscape(u) != 0 {
      ShortEscapeReads(u, t);
    } else if u < 0x20 || IsHigh(u) || IsLow(u) {
      HexEscapeReads(u, t);
    } else {
      PlainReads(u, t);
    }
  }

  predicate StartsPair(s: Text) {
    |s| > 1 && IsHigh(s[0]) && IsLow(s[1])
  }

  lemma PairReads(a: Unit, b: Unit, t: Text)
    requires IsHigh(a) && IsLow(b)
    ensures Unescape([a, b] + t) == ([a, b] + Unescape(t).0, Unescape(t).1)
  {
    PlainReads(b, t);
    PlainReads(a, [b] + t);
    assert [a, b] + t == [a] + ([b] + t);
    assert [a] + ([b] + Unescape(t).0) == [a, b] + Unescape(t).0;
  }

  lemma {:induction false} EscapeReads(s: Text, t: Text)
    ensures Unescape(Escape(s) + ([QUOTE] + t)) == (s, t)
  {
    var end := [QUOTE] + t;
    if s == [] {
      assert [] + end == end && end[1..] == t;
    } else if StartsPair(s) {
      EscapeReads(s[2..], t);
      PairReads(s[0], s[1], Escape(s[2..]) + end);
      ConcatAssociates([s[0], s[1]], Escape(s[2..]), end);
      assert [s[0], s[1]] + s[2..] == s;
    } else {
      EscapeReads(s[1..], t);
      EscapeUnitReads(s[0], Escape(s[1..]) + end);
      ConcatAssociates(EscapeUnit(s[0]), Escape(s[1..]), end);
      assert [s[0]] + s[1..] == s;
    }
  }

  /** Quoted strings that start the same are the same, and so is what follows them. */
  lemma QuotedUnique(a: Text, b: Text, r: Text, q: Text)
    requires Quoted(a) + r == Quoted(b) + q
    ensures a == b && r == q
  {
    assert (Quoted(a) + r)[1..] == Escape(a) + ([QUOTE] + r);
    assert (Quoted(b) + q)[1..] == Escape(b) + ([QUOTE] + q);
    EscapeReads(a, r);
    EscapeReads(b, q);
  }

  // ---------------------------------------------------------------- values

  const NULL_TEXT: Text := [0x6E, 0x75, 0x6C, 0x6C]
  const TRUE_TEXT: Text := [0x74, 0x72, 0x75, 0x65]
  const FALSE_TEXT: Text := [0x66, 0x61, 0x6C, 0x73, 0x65]

  /** JSON.stringify of a value whose members are already in their final order. */
  function Print(v: Json): Text
    decreases v, 0
  {
    match v
    case Undefined => []
    case Null => NULL_TEXT
    case Bool(value) => if value then TRUE_TEXT else FALSE_TEXT
    case Num(digits) => digits
    case Str(text) => Quoted(text)
    case Arr(items) => [OPEN_ARRAY] + PrintItems(items) + [CLOSE_ARRAY]
    case Obj(entries) => [OPEN_OBJECT] + PrintEntries(entries) + [CLOSE_OBJECT]
  }

  function PrintItems(items: seq<Json>): Text
    decreases items, 0
  {
    if items == [] then []
    else if |items| == 1 then Print(items[0])
    else Print(items[0]) + [COMMA] + PrintItems(items[1..])
  }

  function PrintEntry(e: Entry): Text
    decreases e, 1
  {
    Quoted(e.key) + [COLON] + Print(e.value)
  }

  function PrintEntries(entries: seq<Entry>): Text
    decreases entries, 0
  {
    if entries == [] then []
    else if |entries| == 1 then PrintEntry(entries[0])
    else PrintEntry(entries[0]) + [COMMA] + PrintEntries(entries[1..])
  }

  predicate NumberUnit(u: Unit) {
    0x30 <= u <= 0x39 || u == 0x2B || u == 0x2D || u == 0x2E || u == 0x45 || u == 0x65
  }

  predicate IsNumber(digits: Text) {
    && digits != [] && (0x30 <= digits[0] <= 0x39 || digits[0] == 0x2D)
    && forall k :: 0 <= k < |digits| ==> NumberUnit(digits[k])
  }

  /** A value JSON can express: no undefined inside, numbers as JSON writes them. */
  predicate Expressible(v: Json)
    decreases v, 0
  {
    match v
    case Undefined => false
    case Num(digits) => IsNumber(digits)
    case Arr(items) => forall k :: 0 <= k < |items| ==> Expressible(items[k])
    case Obj(entries) => forall k :: 0 <= k < |entries| ==> Expressible(entries[k].value)
    case _ => true
  }

  /** What may follow a value. */
  predicate Delimited(t: Text) {
    t == [] || t[0] == COMMA || t[0] == CLOSE_ARRAY || t[0] == CLOSE_OBJECT
  }

  /** Which constructor a text was printed from shows in its first unit. */
  function Shape(u: Unit): int {
    if u == 0x6E then 1 else if u == 0x74 then 2 else if u == 0x66 then 3 else if u == QUOTE then 4
    else if u == OPEN_ARRAY then 5 else if u == OPEN_OBJECT then 6 else if NumberUnit(u) then 7 else 0
  }

  function ShapeOf(v: Json): int {
    match v
    case Undefined => 0
    case Null => 1
    case Bool(value) => if value then 2 else 3
    case Str(_) => 4
    case Arr(_) => 5
    case Obj(_) => 6
    case Num(_) => 7
  }

  lemma FirstUnitShowsShape(v: Json, r: Text)
    requires Expressible(v)
    ensures Print(v) != [] && (Print(v) + r)[0] == Print(v)[0] && Shape(Print(v)[0]) == ShapeOf(v)
  {
  }

  lemma Overlap<T>(a: seq<T>, b: seq<T>, r: seq<T>, q: seq<T>, k: nat)
    requires a + r == b + q && |a| <= k < |b|
    ensures k - |a| < |r| && r[k - |a|] == b[k]
  {
    assert (a + r)[k] == (b + q)[k];
  }

  lemma NumberNotShorter(a: Text, b: Text, r: Text, q: Text)
    requires forall k :: 0 <= k < |b| ==> NumberUnit(b[k])
    requires Delimited(r) && a + r == b + q
    ensures |a| >= |b|
  {
    if |a| < |b| {
      Overlap(a, b, r, q, |a|);
    }
  }

  lemma NumbersUnique(a: Text, b: Text, r: Text, q: Text)
    requires (forall k :: 0 <= k < |a| ==> NumberUnit(a[k])) && (forall k :: 0 <= k < |b| ==> NumberUnit(b[k]))
    requires Delimited(r) && Delimited(q) && a + r == b + q
    ensures a == b && r == q
  {
    NumberNotShorter(a, b, r, q);
    NumberNotShorter(b, a, q, r);
    SameLengthUnique(a, b, r, q);
  }

  lemma SameLengthUnique<T>(a: seq<T>, b: seq<T>, r: seq<T>, q: seq<T>)
    requires |a| == |b| && a + r == b + q
    ensures a == b && r == q
  {
    assert a == (a + r)[..|a|] && b == (b + q)[..|b|];
    assert r == (a + r)[|a|..] && q == (b + q)[|b|..];
  }

  /** Values whose texts start the same and end at a delimiter are equal, and so is what follows. */
  lemma {:induction false} PrintUnique(v: Json, w: Json, r: Text, q: Text)
    requires Expressible(v) && Expressible(w) && Delimited(r) && Delimited(q)
    requires Print(v) + r == Print(w) + q
    ensures v == w && r == q
    decreases v, 0
  {
    FirstUnitShowsShape(v, r);
    FirstUnitShowsShape(w, q);
    match v
    case Null => SameLengthUnique(NULL_TEXT, NULL_TEXT, r, q);
    case Bool(value) => SameLengthUnique(Print(v), Print(w), r, q);
    case Num(digits) => NumbersUnique(digits, w.digits, r, q);
    case Str(text) => QuotedUnique(text, w.text, r, q);
    case Arr(items) =>
      ArrText(items, r);
      ArrText(w.items, q);
      ItemsUnique(items, w.items, r, q);
    case Obj(entries) =>
      ObjText(entries, r);
      ObjText(w.entries, q);
      EntriesUnique(entries, w.entries, r, q);
  }

  lemma ArrText(items: seq<Json>, r: Text)
    ensures (Print(Arr(items)) + r)[1..] == PrintItems(items) + ([CLOSE_ARRAY] + r)
  {
  }

  lemma ObjText(entries: seq<Entry>, r: Text)
    ensures (Print(Obj(entries)) + r)[1..] == PrintEntries(entries) + ([CLOSE_OBJECT] + r)
  {
  }

  /** What follows the first item of a non-empty list. */
  function AfterItem(items: seq<Json>, r: Text): Text
    requires items != []
  {
    if |items| == 1 then [CLOSE_ARRAY] + r else [COMMA] + (PrintItems(items[1..]) + ([CLOSE_ARRAY] + r))
  }

  lemma ItemsSplit(items: seq<Json>, r: Text)
    requires items != []
    ensures PrintItems(items) + ([CLOSE_ARRAY] + r) == Print(items[0]) + AfterItem(items, r)
    ensures Delimited(AfterItem(items, r))
  {
    if |items| > 1 {
      var first, rest, end := Print(items[0]), PrintItems(items[1..]), [CLOSE_ARRAY] + r;
      ConcatAssociates(first, [COMMA], rest);
      ConcatAssociates(first, [COMMA] + rest, end);
      ConcatAssociates([COMMA], rest, end);
    }
  }

  lemma AfterItemStarts(items: seq<Json>, r: Text)
    requires items != []
    ensures var rest := AfterItem(items, r);
      && rest != [] && rest[0] == (if |items| == 1 then CLOSE_ARRAY else COMMA)
      && rest[1..] == if |items| == 1 then r else PrintItems(items[1..]) + ([CLOSE_ARRAY] + r)
  {
  }

  lemma {:induction false} NoItemsUnique(a: seq<Json>, b: seq<Json>, r: Text, q: Text)
    requires a == [] && forall k :: 0 <= k < |b| ==> Expressible(b[k])
    requires PrintItems(a) + ([CLOSE_ARRAY] + r) == PrintItems(b) + ([CLOSE_ARRAY] + q)
    ensures b == [] && r == q
  {
    assert PrintItems(a) + ([CLOSE_ARRAY] + r) == [CLOSE_ARRAY] + r;
    if b == [] {
      assert PrintItems(b) + ([CLOSE_ARRAY] + q) == [CLOSE_ARRAY] + q;
      SameLengthUnique([CLOSE_ARRAY], [CLOSE_ARRAY], r, q);
    } else {
      ItemsSplit(b, q);
      FirstUnitShowsShape(b[0], AfterItem(b, q));
    }
  }

  lemma {:induction false} ItemsUnique(a: seq<Json>, b: seq<Json>, r: Text, q: Text)
    requires (forall k :: 0 <= k < |a| ==> Expressible(a[k])) && (forall k :: 0 <= k < |b| ==> Expressible(b[k]))
    requires PrintItems(a) + ([CLOSE_ARRAY] + r) == PrintItems(b) + ([CLOSE_ARRAY] + q)
    ensures a == b && r == q
    decreases a, 0
  {
    if a == [] {
      NoItemsUnique(a, b, r, q);
    } else if b == [] {
      NoItemsUnique(b, a, q, r);
    } else {
      ItemsSplit(a, r);
      ItemsSplit(b, q);
      PrintUnique(a[0], b[0], AfterItem(a, r), AfterItem(b, q));
      AfterItemStarts(a, r);
      AfterItemStarts(b, q);
      if |a| > 1 {
        ItemsUnique(a[1..], b[1..], r, q);
        assert a == [a[0]] + a[1..] && b == [b[0]] + b[1..];
      }
    }
  }

  function AfterEntry(entries: seq<Entry>, r: Text): Text
    requires entries != []
  {
    if |entries| == 1 then [CLOSE_OBJECT] + r else [COMMA] + (PrintEntries(entries[1..]) + ([CLOSE_OBJECT] + r))
  }

  lemma EntriesSplit(entries: seq<Entry>, r: Text)
    requires entries != []
    ensures PrintEntries(entries) + ([CLOSE_OBJECT] + r) ==
            Quoted(entries[0].key) + ([COLON] + (Print(entries[0].value) + AfterEntry(entries, r)))
    ensures Delimited(AfterEntry(entries, r))
  {
    var key, value, end := Quoted(entries[0].key), Print(entries[0].value), [CLOSE_OBJECT] + r;
    assert PrintEntry(entries[0]) == key + [COLON] + value;
    if |entries| > 1 {
      var rest := PrintEntries(entries[1..]);
      ConcatAssociates(PrintEntry(entries[0]), [COMMA], rest);
      ConcatAssociates(PrintEntry(entries[0]), [COMMA] + rest, end);
      ConcatAssociates([COMMA], rest, end);
    }
    ConcatAssociates(key, [COLON], value);
    ConcatAssociates(key, [COLON] + value, AfterEntry(entries, r));
    ConcatAssociates([COLON], value, AfterEntry(entries, r));
  }

  lemma AfterEntryStarts(entries: seq<Entry>, r: Text)
    requires entries != []
    ensures var rest := AfterEntry(entries, r);
      && rest != [] && rest[0] == (if |entries| == 1 then CLOSE_OBJECT else COMMA)
      && rest[1..] == if |entries| == 1 then r else PrintEntries(entries[1..]) + ([CLOSE_OBJECT] + r)
  {
  }

  lemma StartsQuoted(key: Text, t: Text)
    ensures (Quoted(key) + t)[0] == QUOTE
  {
  }

  lemma EntriesStartQuoted(b: seq<Entry>, q: Text)
    requires b != []
    ensures var t := PrintEntries(b) + ([CLOSE_OBJECT] + q); t != [] && t[0] == QUOTE
  {
    EntriesSplit(b, q);
    StartsQuoted(b[0].key, [COLON] + (Print(b[0].value) + AfterEntry(b, q)));
  }

  lemma NoEntriesUnique(b: seq<Entry>, r: Text, q: Text)
    requires [CLOSE_OBJECT] + r == PrintEntries(b) + ([CLOSE_OBJECT] + q)
    ensures b == [] && r == q
  {
    assert ([CLOSE_OBJECT] + r)[0] == CLOSE_OBJECT;
    if b == [] {
      NothingBefore(q);
      SameLengthUnique([CLOSE_OBJECT], [CLOSE_OBJECT], r, q);
    } else {
      EntriesStartQuoted(b, q);
    }
  }

  lemma NothingBefore(r: Text)
    ensures PrintEntries([]) + ([CLOSE_OBJECT] + r) == [CLOSE_OBJECT] + r
  {
  }

  /** The first entries are one: the key, and the value's text up to its delimiter. */
  lemma FirstKeyUnique(a: seq<Entry>, b: seq<Entry>, r: Text, q: Text)
    requires a != [] && b != []
    requires PrintEntries(a) + ([CLOSE_OBJECT] + r) == PrintEntries(b) + ([CLOSE_OBJECT] + q)
    ensures a[0].key == b[0].key && Delimited(AfterEntry(a, r)) && Delimited(AfterEntry(b, q))
    ensures Print(a[0].value) + AfterEntry(a, r) == Print(b[0].value) + AfterEntry(b, q)
  {
    EntriesSplit(a, r);
    EntriesSplit(b, q);
    var x, y := Print(a[0].value) + AfterEntry(a, r), Print(b[0].value) + AfterEntry(b, q);
    QuotedUnique(a[0].key, b[0].key, [COLON] + x, [COLON] + y);
    SameLengthUnique([COLON], [COLON], x, y);
  }

  lemma {:induction false} EntriesUnique(a: seq<Entry>, b: seq<Entry>, r: Text, q: Text)
    requires forall k :: 0 <= k < |a| ==> Expressible(a[k].value)
    requires forall k :: 0 <= k < |b| ==> Expressible(b[k].value)
    requires PrintEntries(a) + ([CLOSE_OBJECT] + r) == PrintEntries(b) + ([CLOSE_OBJECT] + q)
    ensures a == b && r == q
    decreases a, 0
  {
    if a == [] {
      NothingBefore(r);
      NoEntriesUnique(b, r, q);
    } else if b == [] {
      NothingBefore(q);
      NoEntriesUnique(a, q, r);
    } else {
      FirstKeyUnique(a, b, r, q);
      PrintUnique(a[0].value, b[0].value, AfterEntry(a, r), AfterEntry(b, q));
      AfterEntryStarts(a, r);
      AfterEntryStarts(b, q);
      if |a| > 1 {
        EntriesUnique(a[1..], b[1..], r, q);
        assert a == [a[0]] + a[1..] && b == [b[0]] + b[1..];
      }
    }
  }
}
