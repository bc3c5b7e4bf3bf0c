/**
 What a streamed assistant message projects to (apps/agent/src/stream/assistant-stream-state.ts):
 provider events fill pieces by content index, tool runs add results, and the projection turns
 the pieces into the blocks that stream patches carry.
 */
module StreamProjection {
  import opened Common
  import opened Strings
  import opened StreamDelta
  import StreamFlush

  datatype Piece =
    | TextPiece(text: string)
    | ThinkingPiece(text: string, signature: Option<string>)
    | ToolPiece(id: string, name: string, input: Json)
    | ImagePiece(source: Json)

  datatype Outcome = Outcome(content: Json, isError: bool)

  /** AssistantStreamState: `order` holds the content indexes, ascending. */
  datatype State = State(order: seq<nat>, pieces: map<nat, Piece>, toolMeta: map<string, map<string, MetaField>>,
      results: map<string, Outcome>)

  const EMPTY := State([], map[], map[], map[])

  const NO_ARGUMENTS: Json := "{}"

  // ---------------------------------------------------------------- events

  /** A call as the provider's partial message shows it. */
  datatype PartialCall = PartialCall(id: Option<string>, name: Option<string>, arguments: Option<Json>)

  datatype Event =
    | Quiet
    | TextStart(index: nat)
    | TextDelta(index: nat, delta: string)
    | TextEnd(index: nat, content: string)
    | ThinkingStart(index: nat)
    | ThinkingDelta(index: nat, delta: string)
    | ThinkingEnd(index: nat, content: string, signature: Option<string>)
    | ToolStart(index: nat, partial: Option<PartialCall>)
    | ToolDelta(index: nat, partial: Option<PartialCall>)
    | ToolEnd(index: nat, call: PartialCall)
    | ToolRuns(id: string, meta: map<string, MetaField>)
    | ToolFinishes(id: string, meta: map<string, MetaField>, outcome: Outcome)

  function TextAt(s: State, index: nat): string {
    if index in s.pieces && s.pieces[index].TextPiece? then s.pieces[index].text else ""
  }

  function ThinkingAt(s: State, index: nat): string {
    if index in s.pieces && s.pieces[index].ThinkingPiece? then s.pieces[index].text else ""
  }

  function SignatureAt(s: State, index: nat): Option<string> {
    if index in s.pieces && s.pieces[index].ThinkingPiece? then s.pieces[index].signature else None
  }

  function CallAt(s: State, index: nat, partial: Option<PartialCall>): Piece {
    var shown := partial.GetOr(PartialCall(None, None, None));
    var existing :=
      if index in s.pieces && s.pieces[index].ToolPiece? then s.pieces[index] else ToolPiece("", "", NO_ARGUMENTS);
    ToolPiece(shown.id.GetOr(existing.id), shown.name.GetOr(existing.name), shown.arguments.GetOr(existing.input))
  }

  /** The piece an event puts at a content index, if it does. */
  function Put(s: State, e: Event): Option<(nat, Piece)> {
    match e
    case TextStart(i) => Some((i, TextPiece("")))
    case TextDelta(i, delta) => Some((i, TextPiece(TextAt(s, i) + delta)))
    case TextEnd(i, content) => Some((i, TextPiece(content)))
    case ThinkingStart(i) => Some((i, ThinkingPiece("", None)))
    case ThinkingDelta(i, delta) => Some((i, ThinkingPiece(ThinkingAt(s, i) + delta, SignatureAt(s, i))))
    case ThinkingEnd(i, content, signature) =>
      Some((i, ThinkingPiece(content, if signature.Some? then signature else SignatureAt(s, i))))
    case ToolStart(i, partial) => Some((i, CallAt(s, i, partial)))
    case ToolDelta(i, partial) =>
      if partial.None? && !(i in s.pieces && s.pieces[i].ToolPiece?) then None else Some((i, CallAt(s, i, partial)))
    case ToolEnd(i, call) =>
      Some((i, ToolPiece(call.id.GetOr(""), call.name.GetOr(""), call.arguments.GetOr(NO_ARGUMENTS))))
    case _ => None
  }

  /** A new index goes to its place in the ascending order. */
  function Place(order: seq<nat>, index: nat): seq<nat> {
    if order == [] || index < order[0] then [index] + order else [order[0]] + Place(order[1..], index)
  }

  /** upsertBlock */
  function Upsert(s: State, index: nat, piece: Piece): State {
    s.(order := if index in s.pieces then s.order else Place(s.order, index), pieces := s.pieces[index := piece])
  }

  function Step(s: State, e: Event): State {
    match e
    case ToolRuns(id, meta) => s.(toolMeta := s.toolMeta[id := meta])
    case ToolFinishes(id, meta, outcome) => s.(toolMeta := s.toolMeta[id := meta], results := s.results[id := outcome])
    case _ => match Put(s, e) case None => s case Some((index, piece)) => Upsert(s, index, piece)
  }

  ghost predicate Ascending(order: seq<nat>) {
    forall i, j :: 0 <= i < j < |order| ==> order[i] < order[j]
  }

  ghost predicate Valid(s: State) {
    Ascending(s.order) && forall i :: i in s.order <==> i in s.pieces
  }

  lemma {:induction false} PlaceAscends(order: seq<nat>, index: nat)
    requires Ascending(order) && index !in order
    ensures Ascending(Place(order, index))
    ensures forall i :: i in Place(order, index) <==> i == index || i in order
  {
    if order != [] && index >= order[0] {
      var rest := order[1..];
      PlaceAscends(rest, index);
      assert order == [order[0]] + rest;
      forall k | 0 <= k < |Place(rest, index)|
        ensures order[0] < Place(rest, index)[k]
      {
        assert Place(rest, index)[k] in Place(rest, index);
      }
    } else {
      assert forall k :: 0 <= k < |order| ==> ([index] + order)[k + 1] == order[k];
    }
  }

  /** Every event keeps the indexes ascending and in step with the pieces. */
  lemma StepKeepsValid(s: State, e: Event)
    requires Valid(s)
    ensures Valid(Step(s, e))
  {
    var put := Put(s, e);
    if put.Some? && put.value.0 !in s.pieces {
      PlaceAscends(s.order, put.value.0);
    }
  }

  // ---------------------------------------------------------------- the projection

  /** withStreamIndexMeta */
  function StampedMeta(s: State, id: string, index: nat): Meta {
    Some((if id in s.toolMeta then s.toolMeta[id] else map[])["streamIndex" := Scalar(Decimal(index))])
  }

  function PieceBlocks(s: State, index: nat): seq<Block>
    requires index in s.pieces
  {
    match s.pieces[index]
    case TextPiece(text) => [Text(Some(index), text)]
    case ThinkingPiece(text, signature) =>
      [Thinking(Some(index), text, if signature == Some("") then None else signature)]
    case ImagePiece(source) => [Other("image", Some(index), source)]
    case ToolPiece(id, name, input) =>
      if id == "" || name == "" then []
      else
        [ToolUse(id, name, input, StampedMeta(s, id, index))] +
        if id in s.results then [ToolResult(id, s.results[id].content, s.results[id].isError)] else []
  }

  function ProjectFirst(s: State, n: nat): seq<Block>
    requires n <= |s.order| && forall i :: i in s.order ==> i in s.pieces
  {
    if n == 0 then [] else ProjectFirst(s, n - 1) + PieceBlocks(s, s.order[n - 1])
  }

  function Project(s: State): seq<Block>
    requires forall i :: i in s.order ==> i in s.pieces
  {
    ProjectFirst(s, |s.order|)
  }

  // ---------------------------------------------------------------- identities

  /** The identity of a block that carries one. */
  function Key(block: Block): Identity {
    BlockIdentity(block, 0)
  }

  /** The call that the piece at an index shows. */
  function CallShown(s: State, index: nat): Option<string> {
    if index in s.pieces && s.pieces[index].ToolPiece? && s.pieces[index].id != "" && s.pieces[index].name != ""
    then Some(s.pieces[index].id) else None
  }

  ghost predicate Clash(s: State, i: nat, j: nat) {
    CallShown(s, i).Some? && CallShown(s, i) == CallShown(s, j)
  }

  /** No two pieces show the same call. */
  ghost predicate CallsDistinct(s: State) {
    forall i, j :: i in s.pieces && j in s.pieces && i != j ==> !Clash(s, i, j)
  }

  ghost predicate AllCarry(blocks: seq<Block>) {
    forall block :: block in blocks ==> CarriesIdentity(block)
  }

  ghost predicate Apart(a: seq<Block>, b: seq<Block>) {
    forall x, y :: x in a && y in b ==> Key(x) != Key(y)
  }

  lemma ConcatIdentified(a: seq<Block>, b: seq<Block>)
    requires AllCarry(a) && AllCarry(b)
    ensures Identified(a + b) <==> Identified(a) && Identified(b) && Apart(a, b)
  {
    var all := a + b;
    assert forall k :: 0 <= k < |a| ==> all[k] == a[k] && a[k] in a;
    assert forall k :: 0 <= k < |b| ==> all[|a| + k] == b[k] && b[k] in b;
    assert forall block :: CarriesIdentity(block) ==> forall k :: BlockIdentity(block, k) == Key(block);
    if Identified(all) {
      forall x, y | x in a && y in b
        ensures Key(x) != Key(y)
      {
        var i :| 0 <= i < |a| && a[i] == x;
        var j :| 0 <= j < |b| && b[j] == y;
        assert BlockIdentity(all[i], i) != BlockIdentity(all[|a| + j], |a| + j);
      }
      forall i, j | 0 <= i < j < |b|
        ensures BlockIdentity(b[i], i) != BlockIdentity(b[j], j)
      {
        assert BlockIdentity(all[|a| + i], |a| + i) != BlockIdentity(all[|a| + j], |a| + j);
      }
    }
    if Identified(a) && Identified(b) && Apart(a, b) {
      forall i, j | 0 <= i < j < |all|
        ensures BlockIdentity(all[i], i) != BlockIdentity(all[j], j)
      {
        if i < |a| && j >= |a| {
          assert all[i] in a && all[j] == b[j - |a|];
        } else if i >= |a| {
          assert BlockIdentity(b[i - |a|], i - |a|) != BlockIdentity(b[j - |a|], j - |a|);
        }
      }
    }
  }

  lemma PieceIdentified(s: State, i: nat)
    requires i in s.pieces
    ensures AllCarry(PieceBlocks(s, i)) && Identified(PieceBlocks(s, i))
  {
  }

  lemma PiecesApartIff(s: State, i: nat, j: nat)
    requires i in s.pieces && j in s.pieces && i != j
    ensures Apart(PieceBlocks(s, i), PieceBlocks(s, j)) <==> !Clash(s, i, j)
  {
    if Clash(s, i, j) {
      assert PieceBlocks(s, i)[0] in PieceBlocks(s, i) && PieceBlocks(s, j)[0] in PieceBlocks(s, j);
      assert Key(PieceBlocks(s, i)[0]) == Key(PieceBlocks(s, j)[0]);
    }
  }

  /** Every block comes from one of the pieces. */
  lemma {:induction false} Owner(s: State, n: nat, block: Block)
    requires n <= |s.order| && forall i :: i in s.order ==> i in s.pieces
    ensures block in ProjectFirst(s, n) <==> OwnedBelow(s, n, block)
  {
    if n > 0 {
      Owner(s, n - 1, block);
      PushOwner(s, n - 1, block);
      OwnedBelowNext(s, n - 1, block);
    }
  }

  ghost predicate OwnedBelow(s: State, n: nat, block: Block)
    requires n <= |s.order| && forall i :: i in s.order ==> i in s.pieces
  {
    exists k :: 0 <= k < n && OwnedBy(s, k, block)
  }

  lemma OwnedBelowNext(s: State, n: nat, block: Block)
    requires n < |s.order| && forall i :: i in s.order ==> i in s.pieces
    ensures OwnedBelow(s, n + 1, block) <==> OwnedBelow(s, n, block) || OwnedBy(s, n, block)
  {
  }

  lemma PushOwner(s: State, n: nat, block: Block)
    requires n < |s.order| && forall i :: i in s.order ==> i in s.pieces
    ensures block in ProjectFirst(s, n + 1) <==> block in ProjectFirst(s, n) || OwnedBy(s, n, block)
  {
    InConcat(ProjectFirst(s, n), PieceBlocks(s, s.order[n]), block);
  }

  lemma InConcat(a: seq<Block>, b: seq<Block>, block: Block)
    ensures block in a + b <==> block in a || block in b
  {
  }

  ghost predicate OwnedBy(s: State, k: nat, block: Block)
    requires k < |s.order| && s.order[k] in s.pieces
  {
    block in PieceBlocks(s, s.order[k])
  }

  ghost predicate NoClashBelow(s: State, n: nat)
    requires n <= |s.order|
  {
    forall k, m :: 0 <= k < m < n ==> !Clash(s, s.order[k], s.order[m])
  }

  lemma NoClashStep(s: State, n: nat)
    requires n < |s.order|
    ensures NoClashBelow(s, n + 1) <==> NoClashBelow(s, n) && NoClashWith(s, n)
  {
  }

  ghost predicate NoClashWith(s: State, n: nat)
    requires n < |s.order|
  {
    forall k :: 0 <= k < n ==> !Clash(s, s.order[k], s.order[n])
  }

  lemma LastApartIff(s: State, n: nat)
    requires Valid(s) && n < |s.order|
    ensures Apart(ProjectFirst(s, n), PieceBlocks(s, s.order[n])) <==> NoClashWith(s, n)
  {
    var last := PieceBlocks(s, s.order[n]);
    forall k | 0 <= k < n
      ensures Apart(PieceBlocks(s, s.order[k]), last) <==> !Clash(s, s.order[k], s.order[n])
    {
      PiecesApartIff(s, s.order[k], s.order[n]);
    }
    if Apart(ProjectFirst(s, n), last) {
      forall k | 0 <= k < n
        ensures Apart(PieceBlocks(s, s.order[k]), last)
      {
        forall x, y | x in PieceBlocks(s, s.order[k]) && y in last
          ensures Key(x) != Key(y)
        {
          assert OwnedBy(s, k, x);
          Owner(s, n, x);
        }
      }
    }
    if NoClashWith(s, n) {
      forall x, y | x in ProjectFirst(s, n) && y in last
        ensures Key(x) != Key(y)
      {
        Owner(s, n, x);
        var k :| 0 <= k < n && OwnedBy(s, k, x);
        assert !Clash(s, s.order[k], s.order[n]);
      }
    }
  }

  lemma {:induction false} FirstCarries(s: State, n: nat)
    requires Valid(s) && n <= |s.order|
    ensures AllCarry(ProjectFirst(s, n))
  {
    forall block | block in ProjectFirst(s, n)
      ensures CarriesIdentity(block)
    {
      Owner(s, n, block);
      var k :| 0 <= k < n && OwnedBy(s, k, block);
      PieceIdentified(s, s.order[k]);
    }
  }

  lemma {:induction false} FirstIdentifiedIff(s: State, n: nat)
    requires Valid(s) && n <= |s.order|
    ensures Identified(ProjectFirst(s, n)) <==> NoClashBelow(s, n)
  {
    if n == 0 {
      assert ProjectFirst(s, n) == [] && Identified([]);
    } else {
      var m := n - 1;
      calc {
        Identified(ProjectFirst(s, n));
        { PushIdentifiedIff(s, m); }
        Identified(ProjectFirst(s, m)) && NoClashWith(s, m);
        { FirstIdentifiedIff(s, m); }
        NoClashBelow(s, m) && NoClashWith(s, m);
        { NoClashStep(s, m); }
        NoClashBelow(s, n);
      }
    }
  }

  lemma PushIdentifiedIff(s: State, n: nat)
    requires Valid(s) && n < |s.order|
    ensures Identified(ProjectFirst(s, n + 1)) <==> Identified(ProjectFirst(s, n)) && NoClashWith(s, n)
  {
    FirstCarries(s, n);
    PieceIdentified(s, s.order[n]);
    LastApartIff(s, n);
    ConcatIdentified(ProjectFirst(s, n), PieceBlocks(s, s.order[n]));
  }

  /** Every projected block carries its identity, and no two share one exactly when no two pieces show one call. */
  lemma ProjectionIsIdentifiedIff(s: State)
    requires Valid(s)
    ensures AllCarry(Project(s))
    ensures Identified(Project(s)) <==> CallsDistinct(s)
  {
    FirstCarries(s, |s.order|);
    FirstIdentifiedIff(s, |s.order|);
    if NoClashBelow(s, |s.order|) {
      forall i, j | i in s.pieces && j in s.pieces && i != j
        ensures !Clash(s, i, j)
      {
        var k :| 0 <= k < |s.order| && s.order[k] == i;
        var m :| 0 <= m < |s.order| && s.order[m] == j;
        assert k < m || m < k;
      }
    }
  }

  // ---------------------------------------------------------------- growth

  lemma BlockIsShown(s: State, i: nat, block: Block)
    requires Valid(s) && CallsDistinct(s) && i in s.pieces && block in PieceBlocks(s, i)
    ensures Key(block) in ViewOf(Project(s)) && ViewOf(Project(s))[Key(block)] == Show(block)
  {
    ProjectionIsIdentifiedIff(s);
    var m :| 0 <= m < |s.order| && s.order[m] == i;
    assert OwnedBy(s, m, block);
    Owner(s, |s.order|, block);
    var k :| 0 <= k < |Project(s)| && Project(s)[k] == block;
    PieceIdentified(s, i);
    assert BlockIdentity(Project(s)[k], k) == Key(block);
    ViewLookup(Project(s), Key(block));
  }

  lemma ShownIsBlock(s: State, id: Identity) returns (i: nat, block: Block)
    requires Valid(s) && CallsDistinct(s) && id in ViewOf(Project(s))
    ensures i in s.pieces && block in PieceBlocks(s, i) && Key(block) == id && ViewOf(Project(s))[id] == Show(block)
  {
    ProjectionIsIdentifiedIff(s);
    ViewLookup(Project(s), id);
    var k :| 0 <= k < |Project(s)| && BlockIdentity(Project(s)[k], k) == id;
    block := Project(s)[k];
    assert block in Project(s) && CarriesIdentity(block);
    Owner(s, |s.order|, block);
    var m :| 0 <= m < |s.order| && OwnedBy(s, m, block);
    i := s.order[m];
  }

  /** What a piece shows is still shown: text and thinking with at most a suffix more, a call by some piece. */
  ghost predicate Continued(s: State, t: State, i: nat)
    requires i in s.pieces
  {
    match s.pieces[i]
    case TextPiece(text) => i in t.pieces && t.pieces[i].TextPiece? && text <= t.pieces[i].text
    case ThinkingPiece(text, _) => i in t.pieces && t.pieces[i].ThinkingPiece? && text <= t.pieces[i].text
    case ImagePiece(_) => i in t.pieces && t.pieces[i].ImagePiece?
    case ToolPiece(_, _, _) => CallShown(s, i).Some? ==> exists j :: j in t.pieces && CallShown(t, j) == CallShown(s, i)
  }

  lemma ContinuedStaysShown(s: State, t: State, i: nat, block: Block)
    requires Valid(t) && CallsDistinct(t) && s.results.Keys <= t.results.Keys
    requires i in s.pieces && block in PieceBlocks(s, i) && Continued(s, t, i)
    ensures Key(block) in ViewOf(Project(t)) && GrowsInto(Show(block), ViewOf(Project(t))[Key(block)])
  {
    if s.pieces[i].ToolPiece? {
      var j :| j in t.pieces && CallShown(t, j) == CallShown(s, i);
      var k := if block.ToolUse? then 0 else 1;
      BlockIsShown(t, j, PieceBlocks(t, j)[k]);
    } else {
      BlockIsShown(t, i, PieceBlocks(t, i)[0]);
    }
  }

  lemma StillShownIsContinued(s: State, t: State, i: nat)
    requires Valid(s) && CallsDistinct(s) && Valid(t) && CallsDistinct(t) && i in s.pieces
    requires Grows(Project(s), Project(t))
    ensures Continued(s, t, i)
  {
    if PieceBlocks(s, i) != [] {
      var block := PieceBlocks(s, i)[0];
      BlockIsShown(s, i, block);
      var j, other := ShownIsBlock(t, Key(block));
      ReplacedByLarger(s, t, i, j, other);
    }
  }

  lemma ReplacedByLarger(s: State, t: State, i: nat, j: nat, other: Block)
    requires i in s.pieces && PieceBlocks(s, i) != [] && j in t.pieces && other in PieceBlocks(t, j)
    requires Key(other) == Key(PieceBlocks(s, i)[0]) && GrowsInto(Show(PieceBlocks(s, i)[0]), Show(other))
    ensures Continued(s, t, i)
  {
    if s.pieces[i].ToolPiece? {
      assert CallShown(t, j) == CallShown(s, i);
    } else {
      assert j == i;
    }
  }

  lemma GrowsIff(s: State, t: State)
    requires Valid(s) && CallsDistinct(s) && Valid(t) && CallsDistinct(t) && s.results.Keys <= t.results.Keys
    ensures Grows(Project(s), Project(t)) <==> forall i :: i in s.pieces ==> Continued(s, t, i)
  {
    if Grows(Project(s), Project(t)) {
      forall i | i in s.pieces
        ensures Continued(s, t, i)
      {
        StillShownIsContinued(s, t, i);
      }
    }
    if forall i :: i in s.pieces ==> Continued(s, t, i) {
      forall id | id in ViewOf(Project(s))
        ensures id in ViewOf(Project(t)) && GrowsInto(ViewOf(Project(s))[id], ViewOf(Project(t))[id])
      {
        var i, block := ShownIsBlock(s, id);
        ContinuedStaysShown(s, t, i, block);
      }
    }
  }

  // ---------------------------------------------------------------- which events keep the stream's discipline

  /** The new piece takes over from what its index shows. */
  predicate TakesOver(s: State, index: nat, piece: Piece) {
    index in s.pieces ==>
      match s.pieces[index]
      case TextPiece(text) => piece.TextPiece? && text <= piece.text
      case ThinkingPiece(text, _) => piece.ThinkingPiece? && text <= piece.text
      case ImagePiece(_) => piece.ImagePiece?
      case ToolPiece(_, _, _) =>
        CallShown(s, index).Some? ==> piece.ToolPiece? && piece.name != "" && CallShown(s, index) == Some(piece.id)
  }

  /** No other index shows the call of the new piece. */
  ghost predicate ShowsNewCall(s: State, index: nat, piece: Piece) {
    piece.ToolPiece? && piece.id != "" && piece.name != "" ==>
      forall j :: j in s.pieces && j != index ==> CallShown(s, j) != Some(piece.id)
  }

  ghost predicate Fits(s: State, e: Event) {
    var put := Put(s, e);
    put.Some? ==> TakesOver(s, put.value.0, put.value.1) && ShowsNewCall(s, put.value.0, put.value.1)
  }

  lemma UpsertFitsIff(s: State, index: nat, piece: Piece)
    requires Valid(s) && CallsDistinct(s)
    ensures var t := Upsert(s, index, piece);
      CallsDistinct(t) && (forall i :: i in s.pieces ==> Continued(s, t, i)) <==>
        TakesOver(s, index, piece) && ShowsNewCall(s, index, piece)
  {
    var t := Upsert(s, index, piece);
    forall i | i in t.pieces && i != index
      ensures CallShown(t, i) == CallShown(s, i) && i in s.pieces && Continued(s, t, i)
    {
    }
    assert CallsDistinct(t) <==> ShowsNewCall(s, index, piece) by {
      UpsertDistinctIff(s, index, piece);
    }
    if CallsDistinct(t) && index in s.pieces {
      assert Continued(s, t, index) <==> TakesOver(s, index, piece) by {
        TakesOverIff(s, index, piece);
      }
    }
  }

  lemma UpsertDistinctIff(s: State, index: nat, piece: Piece)
    requires Valid(s) && CallsDistinct(s)
    ensures CallsDistinct(Upsert(s, index, piece)) <==> ShowsNewCall(s, index, piece)
  {
    var t := Upsert(s, index, piece);
    forall i | i in t.pieces && i != index
      ensures CallShown(t, i) == CallShown(s, i)
    {
    }
    if CallsDistinct(t) {
      forall j | j in s.pieces && j != index && CallShown(t, index).Some?
        ensures CallShown(s, j) != CallShown(t, index)
      {
        assert !Clash(t, index, j);
      }
    } else {
      var i, j :| i in t.pieces && j in t.pieces && i != j && Clash(t, i, j);
      assert i != index && j != index ==> Clash(s, i, j);
    }
  }

  lemma TakesOverIff(s: State, index: nat, piece: Piece)
    requires Valid(s) && CallsDistinct(s) && index in s.pieces
    ensures Continued(s, Upsert(s, index, piece), index) <==> TakesOver(s, index, piece)
  {
    var t := Upsert(s, index, piece);
    if CallShown(s, index).Some? {
      forall j | j in t.pieces && j != index
        ensures CallShown(t, j) != CallShown(s, index)
      {
        assert !Clash(s, index, j);
      }
      assert CallShown(t, index) == CallShown(s, index) ==> Continued(s, t, index);
    }
  }

  /**
   An event keeps the projection's identities, and its text growing by suffixes, exactly when the
   piece it puts takes over from what its index shows and shows no call another index shows.
   */
  lemma EventIsDisciplinedIff(s: State, e: Event)
    requires Valid(s) && CallsDistinct(s)
    ensures Valid(Step(s, e))
    ensures Identified(Project(Step(s, e))) && Grows(Project(s), Project(Step(s, e))) <==> Fits(s, e)
  {
    var t := Step(s, e);
    StepKeepsValid(s, e);
    ProjectionIsIdentifiedIff(t);
    StepFitsIff(s, e);
    if CallsDistinct(t) {
      GrowsIff(s, t);
    }
  }

  lemma StepFitsIff(s: State, e: Event)
    requires Valid(s) && CallsDistinct(s)
    ensures var t := Step(s, e);
      CallsDistinct(t) && (forall i :: i in s.pieces ==> Continued(s, t, i)) <==> Fits(s, e)
  {
    if Put(s, e).Some? {
      UpsertFitsIff(s, Put(s, e).value.0, Put(s, e).value.1);
    } else {
      var t := Step(s, e);
      assert forall i :: i in s.pieces ==> CallShown(t, i) == CallShown(s, i);
      forall i, j | i in t.pieces && j in t.pieces && i != j
        ensures !Clash(t, i, j)
      {
        assert !Clash(s, i, j);
      }
    }
  }

  /** Seen from the flush scheduler: whether it may model the update that an event causes. */
  lemma UpdateIsDisciplinedIff(stream: StreamFlush.Stream, s: State, e: Event)
    requires Valid(s) && CallsDistinct(s) && stream.live == Project(s)
    ensures Valid(Step(s, e))
    ensures StreamFlush.Disciplined(stream, Project(Step(s, e))) <==> Fits(s, e)
  {
    EventIsDisciplinedIff(s, e);
  }

  // ---------------------------------------------------------------- over a whole message

  function Run(events: seq<Event>): State {
    if events == [] then EMPTY else Step(Run(events[..|events| - 1]), events[|events| - 1])
  }

  lemma {:induction false} RunIsValid(events: seq<Event>)
    ensures Valid(Run(events))
  {
    if events != [] {
      RunIsValid(events[..|events| - 1]);
      StepKeepsValid(Run(events[..|events| - 1]), events[|events| - 1]);
    }
  }

  function Content(events: seq<Event>, k: nat): seq<Block>
    requires k <= |events|
  {
    RunIsValid(events[..k]);
    Project(Run(events[..k]))
  }

  ghost predicate StepDisciplined(events: seq<Event>, k: nat)
    requires k < |events|
  {
    Identified(Content(events, k + 1)) && Grows(Content(events, k), Content(events, k + 1))
  }

  ghost predicate Disciplined(events: seq<Event>) {
    forall k :: 0 <= k < |events| ==> StepDisciplined(events, k)
  }

  ghost predicate AllFit(events: seq<Event>) {
    forall k :: 0 <= k < |events| ==> Fits(Run(events[..k]), events[k])
  }

  lemma ContentStep(events: seq<Event>, k: nat)
    requires k < |events| && CallsDistinct(Run(events[..k]))
    ensures StepDisciplined(events, k) <==> Fits(Run(events[..k]), events[k])
    ensures Identified(Content(events, k + 1)) <==> CallsDistinct(Run(events[..k + 1]))
  {
    assert events[..k + 1][..k] == events[..k];
    RunIsValid(events[..k]);
    RunIsValid(events[..k + 1]);
    EventIsDisciplinedIff(Run(events[..k]), events[k]);
    ProjectionIsIdentifiedIff(Run(events[..k + 1]));
  }

  lemma {:induction false} DistinctSoFar(events: seq<Event>, k: nat)
    requires k <= |events| && (Disciplined(events) || AllFit(events))
    ensures CallsDistinct(Run(events[..k]))
  {
    if k > 0 {
      DistinctSoFar(events, k - 1);
      ContentStep(events, k - 1);
    }
  }

  /**
   A message streams with stable identities and growing text throughout, so that every patch
   rebuilds it, exactly when each of its events fits the pieces it finds.
   */
  lemma DisciplinedIffAllFit(events: seq<Event>)
    ensures Disciplined(events) <==> AllFit(events)
  {
    if Disciplined(events) || AllFit(events) {
      forall k | 0 <= k < |events|
        ensures StepDisciplined(events, k) <==> Fits(Run(events[..k]), events[k])
      {
        DistinctSoFar(events, k);
        ContentStep(events, k);
      }
    }
  }

  // ---------------------------------------------------------------- as the source updates it

  class AssistantStream {
    var orderedIndexes: seq<nat>
    var blocksByIndex: map<nat, Piece>
    var toolMetaById: map<string, map<string, MetaField>>
    var toolResultsById: map<string, Outcome>

    function Value(): State
      reads this
    {
      State(orderedIndexes, blocksByIndex, toolMetaById, toolResultsById)
    }

    constructor ()
      ensures Value() == EMPTY
    {
      orderedIndexes, blocksByIndex, toolMetaById, toolResultsById := [], map[], map[], map[];
    }

    method UpsertBlock(index: nat, piece: Piece)
      modifies this
      ensures Value() == Upsert(old(Value()), index, piece)
    {
      if index !in blocksByIndex {
        orderedIndexes := Place(orderedIndexes, index);
      }
      blocksByIndex := blocksByIndex[index := piece];
    }

    method ApplyEvent(e: Event)
      modifies this
      ensures Value() == Step(old(Value()), e)
    {
      match e
      case Quiet =>
      case TextStart(i) => UpsertBlock(i, TextPiece(""));
      case TextDelta(i, delta) =>
        var text := "";
        if i in blocksByIndex && blocksByIndex[i].TextPiece? {
          text := blocksByIndex[i].text;
        }
        UpsertBlock(i, TextPiece(text + delta));
      case TextEnd(i, content) => UpsertBlock(i, TextPiece(content));
      case ThinkingStart(i) => UpsertBlock(i, ThinkingPiece("", None));
      case ThinkingDelta(i, delta) =>
        var text, signature := "", None;
        if i in blocksByIndex && blocksByIndex[i].ThinkingPiece? {
          text, signature := blocksByIndex[i].text, blocksByIndex[i].signature;
        }
        UpsertBlock(i, ThinkingPiece(text + delta, signature));
      case ThinkingEnd(i, content, signature) =>
        var kept := signature;
        if signature.None? && i in blocksByIndex && blocksByIndex[i].ThinkingPiece? {
          kept := blocksByIndex[i].signature;
        }
        UpsertBlock(i, ThinkingPiece(content, kept));
      case ToolStart(i, partial) => UpsertCall(i, partial);
      case ToolDelta(i, partial) =>
        if partial.Some? || (i in blocksByIndex && blocksByIndex[i].ToolPiece?) {
          UpsertCall(i, partial);
        }
      case ToolEnd(i, call) =>
        UpsertBlock(i, ToolPiece(call.id.GetOr(""), call.name.GetOr(""), call.arguments.GetOr(NO_ARGUMENTS)));
      case ToolRuns(id, meta) =>
        toolMetaById := toolMetaById[id := meta];
      case ToolFinishes(id, meta, outcome) =>
        toolMetaById := toolMetaById[id := meta];
        toolResultsById := toolResultsById[id := outcome];
    }

    /** A call keeps what the partial message does not show. */
    method UpsertCall(index: nat, partial: Option<PartialCall>)
      modifies this
      ensures Value() == Upsert(old(Value()), index, CallAt(old(Value()), index, partial))
    {
      var id, name, input := "", "", NO_ARGUMENTS;
      if index in blocksByIndex && blocksByIndex[index].ToolPiece? {
        var existing := blocksByIndex[index];
        id, name, input := existing.id, existing.name, existing.input;
      }
      if partial.Some? {
        id := partial.value.id.GetOr(id);
        name := partial.value.name.GetOr(name);
        input := partial.value.arguments.GetOr(input);
      }
      UpsertBlock(index, ToolPiece(id, name, input));
    }

    method ProjectContent() returns (content: seq<Block>)
      requires Valid(Value())
      ensures content == Project(Value())
    {
      content := [];
      for n := 0 to |orderedIndexes|
        invariant content == ProjectFirst(Value(), n)
      {
        content := content + PieceBlocks(Value(), orderedIndexes[n]);
      }
    }
  }
}
