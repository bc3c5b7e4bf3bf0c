/**
 What a streamed message holds and shows, told from its events alone: deltas add up, an end
 replaces, a call keeps what its last partial message showed, and the projection shows all of it,
 index by index (apps/agent/src/stream/assistant-stream-state.ts).
 */
module StreamContent {
  import opened Common
  import opened Strings
  import opened StreamDelta
  import opened StreamProjection

  // ---------------------------------------------------------------- the events of one index

  /** The content index an event speaks about. */
  function IndexOf(e: Event): Option<nat> {
    match e
    case Quiet => None
    case ToolRuns(_, _) => None
    case ToolFinishes(_, _, _) => None
    case TextStart(i) => Some(i)
    case TextDelta(i, _) => Some(i)
    case TextEnd(i, _) => Some(i)
    case ThinkingStart(i) => Some(i)
    case ThinkingDelta(i, _) => Some(i)
    case ThinkingEnd(i, _, _) => Some(i)
    case ToolStart(i, _) => Some(i)
    case ToolDelta(i, _) => Some(i)
    case ToolEnd(i, _) => Some(i)
  }

  ghost predicate SpeaksOf(e: Event, i: nat) {
    IndexOf(e) == Some(i)
  }

  function PieceAt(events: seq<Event>, i: nat): Option<Piece> {
    var s := Run(events);
    if i in s.pieces then Some(s.pieces[i]) else None
  }

  lemma RunPush(events: seq<Event>, e: Event)
    ensures Run(events + [e]) == Step(Run(events), e)
  {
    assert (events + [e])[..|events|] == events;
  }

  lemma RunLast(before: seq<Event>, events: seq<Event>)
    requires events != []
    ensures Run(before + events) == Step(Run(before + events[..|events| - 1]), events[|events| - 1])
  {
    var front, last := events[..|events| - 1], events[|events| - 1];
    assert events == front + [last];
    ConcatAssociates(before, front, [last]);
    RunPush(before + front, last);
  }

  /** Events about other indexes leave a piece alone. */
  lemma {:induction false} OthersKeepPiece(before: seq<Event>, events: seq<Event>, i: nat)
    requires forall e :: e in events ==> !SpeaksOf(e, i)
    ensures PieceAt(before + events, i) == PieceAt(before, i)
  {
    if events == [] {
      assert before + [] == before;
    } else {
      OthersKeepPiece(before, events[..|events| - 1], i);
      RunLast(before, events);
      assert events[|events| - 1] in events;
    }
  }

  function OrLater<T>(earlier: Option<T>, later: Option<T>): Option<T> {
    if later.Some? then later else earlier
  }

  // ---------------------------------------------------------------- text and thinking

  /** The text deltas of an index, put together. */
  function Spoken(events: seq<Event>, i: nat): string {
    if events == [] then ""
    else
      var last := events[|events| - 1];
      Spoken(events[..|events| - 1], i) + if last.TextDelta? && last.index == i then last.delta else ""
  }

  function Mused(events: seq<Event>, i: nat): string {
    if events == [] then ""
    else
      var last := events[|events| - 1];
      Mused(events[..|events| - 1], i) + if last.ThinkingDelta? && last.index == i then last.delta else ""
  }

  /** From a start on, the text of an index is its deltas in order, whatever else streams in between. */
  lemma {:induction false} DeltasAddUp(before: seq<Event>, i: nat, events: seq<Event>)
    requires forall e :: e in events && SpeaksOf(e, i) ==> e.TextDelta?
    ensures PieceAt(before + [TextStart(i)] + events, i) == Some(TextPiece(Spoken(events, i)))
  {
    var start := before + [TextStart(i)];
    if events == [] {
      assert start + [] == start;
      RunPush(before, TextStart(i));
    } else {
      DeltasAddUp(before, i, events[..|events| - 1]);
      RunLast(start, events);
      assert events[|events| - 1] in events;
      assert Spoken(events[..|events| - 1], i) + "" == Spoken(events[..|events| - 1], i);
    }
  }

  /** From its end on, the text of an index is the content given there. */
  lemma EndReplacesText(before: seq<Event>, i: nat, content: string, events: seq<Event>)
    requires forall e :: e in events ==> !SpeaksOf(e, i)
    ensures PieceAt(before + [TextEnd(i, content)] + events, i) == Some(TextPiece(content))
  {
    RunPush(before, TextEnd(i, content));
    OthersKeepPiece(before + [TextEnd(i, content)], events, i);
  }

  /** A delta to an index that holds no text yet, or more text, starts or continues it. */
  lemma DeltaStartsOrContinues(events: seq<Event>, i: nat, delta: string)
    ensures PieceAt(events + [TextDelta(i, delta)], i) ==
      match PieceAt(events, i)
      case Some(TextPiece(text)) => Some(TextPiece(text + delta))
      case _ => Some(TextPiece(delta))
    ensures PieceAt(events + [ThinkingDelta(i, delta)], i) ==
      match PieceAt(events, i)
      case Some(ThinkingPiece(text, signature)) => Some(ThinkingPiece(text + delta, signature))
      case _ => Some(ThinkingPiece(delta, None))
  {
    RunPush(events, TextDelta(i, delta));
    RunPush(events, ThinkingDelta(i, delta));
    assert "" + delta == delta;
  }

  lemma {:induction false} ThinkingAddsUp(before: seq<Event>, i: nat, events: seq<Event>)
    requires forall e :: e in events && SpeaksOf(e, i) ==> e.ThinkingDelta?
    ensures PieceAt(before + [ThinkingStart(i)] + events, i) == Some(ThinkingPiece(Mused(events, i), None))
  {
    var start := before + [ThinkingStart(i)];
    if events == [] {
      assert start + [] == start;
      RunPush(before, ThinkingStart(i));
    } else {
      ThinkingAddsUp(before, i, events[..|events| - 1]);
      RunLast(start, events);
      assert events[|events| - 1] in events;
      assert Mused(events[..|events| - 1], i) + "" == Mused(events[..|events| - 1], i);
    }
  }

  /** The end of thinking gives its content and signature; without one an earlier signature stays. */
  lemma EndReplacesThinking(before: seq<Event>, i: nat, content: string, signature: Option<string>, events: seq<Event>)
    requires forall e :: e in events ==> !SpeaksOf(e, i)
    ensures PieceAt(before + [ThinkingEnd(i, content, signature)] + events, i) ==
      match PieceAt(before, i)
      case Some(ThinkingPiece(_, earlier)) => Some(ThinkingPiece(content, OrLater(earlier, signature)))
      case _ => Some(ThinkingPiece(content, signature))
  {
    RunPush(before, ThinkingEnd(i, content, signature));
    OthersKeepPiece(before + [ThinkingEnd(i, content, signature)], events, i);
  }

  // ---------------------------------------------------------------- calls

  /** Each part of a call as the last partial message shows it that shows it at all. */
  function ShownOf(first: PartialCall, events: seq<Event>, i: nat): PartialCall {
    if events == [] then first
    else
      var sofar, last := ShownOf(first, events[..|events| - 1], i), events[|events| - 1];
      if last.ToolDelta? && last.index == i && last.partial.Some?
      then PartialCall(OrLater(sofar.id, last.partial.value.id), OrLater(sofar.name, last.partial.value.name),
                       OrLater(sofar.arguments, last.partial.value.arguments))
      else sofar
  }

  function AsPiece(call: PartialCall): Piece {
    ToolPiece(call.id.GetOr(""), call.name.GetOr(""), call.arguments.GetOr("{}"))
  }

  /** A new call shows, part by part, what its latest partial message shows. */
  lemma {:induction false} PartialsAddUp(before: seq<Event>, i: nat, partial: Option<PartialCall>, events: seq<Event>)
    requires PieceAt(before, i).Some? ==> !PieceAt(before, i).value.ToolPiece?
    requires forall e :: e in events && SpeaksOf(e, i) ==> e.ToolDelta?
    ensures PieceAt(before + [ToolStart(i, partial)] + events, i) ==
      Some(AsPiece(ShownOf(partial.GetOr(PartialCall(None, None, None)), events, i)))
  {
    var start := before + [ToolStart(i, partial)];
    if events == [] {
      assert start + [] == start;
      RunPush(before, ToolStart(i, partial));
    } else {
      PartialsAddUp(before, i, partial, events[..|events| - 1]);
      RunLast(start, events);
      assert events[|events| - 1] in events;
    }
  }

  /** The end of a call gives all its parts, and what a later partial message does not show stays. */
  lemma EndReplacesCall(before: seq<Event>, i: nat, call: PartialCall, events: seq<Event>)
    requires forall e :: e in events ==> !SpeaksOf(e, i)
    ensures PieceAt(before + [ToolEnd(i, call)] + events, i) == Some(AsPiece(call))
  {
    RunPush(before, ToolEnd(i, call));
    OthersKeepPiece(before + [ToolEnd(i, call)], events, i);
  }

  /** A partial message to a call already shown changes only the parts it shows. */
  lemma PartialKeepsRest(events: seq<Event>, i: nat, id: string, name: string, input: Json,
      partial: Option<PartialCall>)
    requires PieceAt(events, i) == Some(ToolPiece(id, name, input))
    ensures var shown := partial.GetOr(PartialCall(None, None, None));
      var piece := Some(ToolPiece(shown.id.GetOr(id), shown.name.GetOr(name), shown.arguments.GetOr(input)));
      PieceAt(events + [ToolStart(i, partial)], i) == piece == PieceAt(events + [ToolDelta(i, partial)], i)
  {
    RunPush(events, ToolStart(i, partial));
    RunPush(events, ToolDelta(i, partial));
  }

  /** Nothing shows a call at an index before a partial message does. */
  lemma EmptyDeltaShowsNothing(events: seq<Event>, i: nat)
    requires PieceAt(events, i).Some? ==> !PieceAt(events, i).value.ToolPiece?
    ensures PieceAt(events + [ToolDelta(i, None)], i) == PieceAt(events, i)
    ensures forall call :: PieceAt(events + [ToolDelta(i, Some(call))], i) == Some(AsPiece(call))
  {
    RunPush(events, ToolDelta(i, None));
    forall call
      ensures PieceAt(events + [ToolDelta(i, Some(call))], i) == Some(AsPiece(call))
    {
      RunPush(events, ToolDelta(i, Some(call)));
    }
  }

  // ---------------------------------------------------------------- tool runs

  /** The last outcome reported for a call. */
  function LastOutcome(events: seq<Event>, id: string): Option<Outcome> {
    if events == [] then None
    else
      var last := events[|events| - 1];
      if last.ToolFinishes? && last.id == id then Some(last.outcome) else LastOutcome(events[..|events| - 1], id)
  }

  /** The last metadata reported for a call. */
  function LastMeta(events: seq<Event>, id: string): Option<map<string, MetaField>> {
    if events == [] then None
    else
      var last := events[|events| - 1];
      if (last.ToolFinishes? || last.ToolRuns?) && last.id == id then Some(last.meta)
      else LastMeta(events[..|events| - 1], id)
  }

  lemma {:induction false} LastReportStands(events: seq<Event>, id: string)
    ensures var s := Run(events);
      && LastOutcome(events, id) == (if id in s.results then Some(s.results[id]) else None)
      && LastMeta(events, id) == (if id in s.toolMeta then Some(s.toolMeta[id]) else None)
  {
    if events != [] {
      LastReportStands(events[..|events| - 1], id);
    }
  }

  // ---------------------------------------------------------------- what the projection shows

  /** The block is what the piece at an index shows, besides the result of its call. */
  predicate ShowsPiece(s: State, i: nat, block: Block) {
    i in s.pieces &&
    match block
    case Text(index, text) => index == Some(i) && s.pieces[i] == TextPiece(text)
    case Thinking(index, text, signature) =>
      && index == Some(i) && signature != Some("")
      && (s.pieces[i] == ThinkingPiece(text, signature)
          || (signature.None? && s.pieces[i] == ThinkingPiece(text, Some(""))))
    case Other(kind, index, json) => kind == "image" && index == Some(i) && s.pieces[i] == ImagePiece(json)
    case ToolUse(id, name, input, meta) =>
      && id != "" && name != "" && s.pieces[i] == ToolPiece(id, name, input)
      && meta == Some((if id in s.toolMeta then s.toolMeta[id] else map[])["streamIndex" := Scalar(Decimal(i))])
    case ToolResult(_, _, _) => false
  }

  /** The block is the result of the call that the piece at an index shows. */
  predicate ShowsResult(s: State, i: nat, block: Block) {
    && block.ToolResult? && i in s.pieces && s.pieces[i].ToolPiece?
    && s.pieces[i].id == block.id != "" && s.pieces[i].name != ""
    && block.id in s.results && s.results[block.id] == Outcome(block.content, block.isError)
  }

  /** A piece shows one block, a call without id or name none, and an answered call its result as well. */
  lemma PieceShows(s: State, i: nat)
    requires i in s.pieces
    ensures var blocks := PieceBlocks(s, i);
      var hidden := s.pieces[i].ToolPiece? && (s.pieces[i].id == "" || s.pieces[i].name == "");
      var answered := s.pieces[i].ToolPiece? && s.pieces[i].id in s.results;
      && |blocks| == (if hidden then 0 else if answered then 2 else 1)
      && (|blocks| > 0 ==> ShowsPiece(s, i, blocks[0]))
      && (|blocks| > 1 ==> ShowsResult(s, i, blocks[1]))
  {
  }

  predicate Shows(s: State, i: nat, block: Block) {
    ShowsPiece(s, i, block) || ShowsResult(s, i, block)
  }

  lemma PieceShowsIff(s: State, i: nat, block: Block)
    requires i in s.pieces
    ensures block in PieceBlocks(s, i) <==> Shows(s, i, block)
  {
    PieceShows(s, i);
  }

  /** The projection shows exactly what its pieces and their results show. */
  lemma ProjectionShowsIff(s: State, block: Block)
    requires Valid(s)
    ensures block in Project(s) <==> exists i :: Shows(s, i, block)
  {
    Owner(s, |s.order|, block);
    if block in Project(s) {
      var k :| 0 <= k < |s.order| && OwnedBy(s, k, block);
      PieceShowsIff(s, s.order[k], block);
    }
    if i :| Shows(s, i, block) {
      PieceShowsIff(s, i, block);
      var k :| 0 <= k < |s.order| && s.order[k] == i;
      assert OwnedBy(s, k, block);
    }
  }

  /** The first block stands at a lower index than the second, or is the call and the second its result. */
  ghost predicate InOrder(s: State, first: Block, second: Block) {
    exists i, j :: Shows(s, i, first) && Shows(s, j, second) &&
      (i < j || (i == j && ShowsPiece(s, i, first) && ShowsResult(s, j, second)))
  }

  ghost predicate AllInOrder(s: State, blocks: seq<Block>) {
    forall p, q :: 0 <= p < q < |blocks| ==> InOrder(s, blocks[p], blocks[q])
  }

  lemma LaterPieceFollows(s: State, n: nat, first: Block, second: Block)
    requires Valid(s) && n < |s.order| && first in ProjectFirst(s, n) && second in PieceBlocks(s, s.order[n])
    ensures InOrder(s, first, second)
  {
    var i := OwnerBelow(s, n, first);
    PieceShowsIff(s, i, first);
    PieceShowsIff(s, s.order[n], second);
    LowerStandsFirst(s, i, s.order[n], first, second);
  }

  lemma OwnerBelow(s: State, n: nat, block: Block) returns (i: nat)
    requires Valid(s) && n < |s.order| && block in ProjectFirst(s, n)
    ensures i in s.pieces && i < s.order[n] && block in PieceBlocks(s, i)
  {
    Owner(s, n, block);
    var k :| 0 <= k < n && OwnedBy(s, k, block);
    i := s.order[k];
  }

  lemma LowerStandsFirst(s: State, i: nat, j: nat, first: Block, second: Block)
    requires Shows(s, i, first) && Shows(s, j, second) && i < j
    ensures InOrder(s, first, second)
  {
  }

  lemma OwnBlocksInOrder(s: State, i: nat)
    requires i in s.pieces
    ensures var b := PieceBlocks(s, i); |b| <= 1 || (|b| == 2 && InOrder(s, b[0], b[1]))
  {
    PieceShows(s, i);
  }

  lemma {:induction false} FirstInOrder(s: State, n: nat)
    requires Valid(s) && n <= |s.order|
    ensures AllInOrder(s, ProjectFirst(s, n))
  {
    if n > 0 {
      var m := n - 1;
      FirstInOrder(s, m);
      OwnBlocksInOrder(s, s.order[m]);
      forall first, second | first in ProjectFirst(s, m) && second in PieceBlocks(s, s.order[m])
        ensures InOrder(s, first, second)
      {
        LaterPieceFollows(s, m, first, second);
      }
      ConcatInOrder(s, ProjectFirst(s, m), PieceBlocks(s, s.order[m]));
    }
  }

  lemma ConcatInOrder(s: State, a: seq<Block>, b: seq<Block>)
    requires AllInOrder(s, a) && (|b| <= 1 || (|b| == 2 && InOrder(s, b[0], b[1])))
    requires forall first, second :: first in a && second in b ==> InOrder(s, first, second)
    ensures AllInOrder(s, a + b)
  {
    forall p, q | 0 <= p < q < |a + b|
      ensures InOrder(s, (a + b)[p], (a + b)[q])
    {
      if q < |a| {
        assert (a + b)[p] == a[p] && (a + b)[q] == a[q];
      } else if p < |a| {
        assert (a + b)[p] in a && (a + b)[q] in b;
      }
    }
  }

  /** Blocks stand in the order of their content indexes, and a call before its result. */
  lemma ProjectionIsInOrder(s: State)
    requires Valid(s)
    ensures AllInOrder(s, Project(s))
  {
    FirstInOrder(s, |s.order|);
  }

  // ---------------------------------------------------------------- streams that keep the discipline

  /** Deltas fit wherever text or nothing stands, and a new index fits unless it repeats a call. */
  lemma DeltasFit(s: State, i: nat, delta: string)
    ensures i in s.pieces ==> (Fits(s, TextDelta(i, delta)) <==>
      s.pieces[i].TextPiece? || (s.pieces[i].ToolPiece? && CallShown(s, i).None?))
    ensures i !in s.pieces ==> Fits(s, TextStart(i)) && Fits(s, TextDelta(i, delta)) && Fits(s, ThinkingStart(i))
  {
  }

  lemma AllFitPush(events: seq<Event>, e: Event)
    requires AllFit(events) && Fits(Run(events), e)
    ensures AllFit(events + [e])
  {
    var all := events + [e];
    forall k | 0 <= k < |all|
      ensures Fits(Run(all[..k]), all[k])
    {
      if k < |events| {
        assert all[..k] == events[..k] && all[k] == events[k];
      } else {
        assert all[..k] == events;
      }
    }
  }

  /** Text that starts at a new index and only grows by deltas keeps the whole message disciplined. */
  lemma {:induction false} DeltaStreamFits(before: seq<Event>, i: nat, events: seq<Event>)
    requires AllFit(before) && PieceAt(before, i) == None
    requires forall e :: e in events ==> e.TextDelta? && e.index == i
    ensures AllFit(before + [TextStart(i)] + events)
  {
    var start := before + [TextStart(i)];
    if events == [] {
      assert start + [] == start;
      AllFitPush(before, TextStart(i));
    } else {
      var front, last := events[..|events| - 1], events[|events| - 1];
      DeltaStreamFits(before, i, front);
      DeltasAddUp(before, i, front);
      assert last in events && events == front + [last];
      ConcatAssociates(start, front, [last]);
      DeltasFit(Run(start + front), i, last.delta);
      AllFitPush(start + front, last);
    }
  }
}
