/**
 What a stream patch carries (apps/agent/src/session.ts, computeDelta and buildBlockIdentity),
 against a receiver that applies patches block by block.
 */
module StreamDelta {
  import opened Common

  /** A value compared through its JSON text. */
  type Json = string

  /** A `_meta` field: only scalars compare equal after the sender's structuredClone. */
  datatype MetaField = Scalar(text: Json) | Nested(text: Json)

  type Meta = Option<map<string, MetaField>>

  datatype Block =
    | Text(streamIndex: Option<int>, text: string)
    | Thinking(streamIndex: Option<int>, text: string, signature: Option<string>)
    | ToolUse(id: string, name: string, input: Json, meta: Meta)
    | ToolResult(id: string, content: Json, isError: bool)
    | Other(kind: string, streamIndex: Option<int>, json: Json)

  datatype Identity =
    | TextId(index: int)
    | ThinkingId(index: int)
    | ToolUseId(id: string)
    | ToolResultId(id: string)
    | OtherId(kind: string, index: int)

  /** buildBlockIdentity: tool blocks by id, the rest by stream index or else by position. */
  function BlockIdentity(block: Block, fallback: int): Identity {
    match block
    case ToolUse(id, _, _, _) => ToolUseId(id)
    case ToolResult(id, _, _) => ToolResultId(id)
    case Text(index, _) => TextId(index.GetOr(fallback))
    case Thinking(index, _, _) => ThinkingId(index.GetOr(fallback))
    case Other(kind, index, _) => OtherId(kind, index.GetOr(fallback))
  }

  function ById(blocks: seq<Block>): map<Identity, Block> {
    if blocks == [] then map[]
    else
      var k := |blocks| - 1;
      ById(blocks[..k])[BlockIdentity(blocks[k], k) := blocks[k]]
  }

  predicate SameMeta(a: Meta, b: Meta) {
    match (a, b)
    case (None, None) => true
    case (Some(x), Some(y)) => x == y && forall key :: key in x ==> x[key].Scalar?
    case _ => false
  }

  /** What computeDelta pushes for one block, given the block last sent under its identity. */
  function BlockDelta(block: Block, prev: Option<Block>): seq<Block> {
    match block
    case Text(index, text) =>
      if prev.None? || !prev.value.Text? then [block]
      else if |text| > |prev.value.text| then [Text(index, text[|prev.value.text|..])]
      else []
    case Thinking(index, text, signature) =>
      if prev.None? || !prev.value.Thinking? then [block]
      else if |text| > |prev.value.text| then [Thinking(index, text[|prev.value.text|..], signature)]
      else []
    case ToolUse(_, name, input, meta) =>
      if prev.None? || !prev.value.ToolUse? || !SameMeta(prev.value.meta, meta) || prev.value.input != input ||
        prev.value.name != name
      then [block] else []
    case ToolResult(_, content, isError) =>
      if prev.None? || !prev.value.ToolResult? || prev.value.content != content || prev.value.isError != isError
      then [block] else []
    case Other(_, _, _) => if prev.None? || prev.value != block then [block] else []
  }

  function Previous(last: seq<Block>, id: Identity): Option<Block> {
    if id in ById(last) then Some(ById(last)[id]) else None
  }

  function Delta(full: seq<Block>, last: seq<Block>): seq<Block> {
    if full == [] then []
    else
      var k := |full| - 1;
      Delta(full[..k], last) + BlockDelta(full[k], Previous(last, BlockIdentity(full[k], k)))
  }

  method ComputeDelta(full: seq<Block>, last: seq<Block>) returns (delta: seq<Block>)
    ensures delta == Delta(full, last)
  {
    delta := [];
    var lastByIdentity: map<Identity, Block> := map[];
    for index := 0 to |last|
      invariant lastByIdentity == ById(last[..index])
    {
      assert last[..index + 1][..index] == last[..index];
      lastByIdentity := lastByIdentity[BlockIdentity(last[index], index) := last[index]];
    }
    assert last[..|last|] == last;
    for index := 0 to |full|
      invariant delta == Delta(full[..index], last)
    {
      var block := full[index];
      var id := BlockIdentity(block, index);
      var prev := if id in lastByIdentity then Some(lastByIdentity[id]) else None;
      assert full[..index + 1][..index] == full[..index];
      delta := delta + BlockDelta(block, prev);
    }
    assert full[..|full|] == full;
  }

  // ---------------------------------------------------------------- the receiver

  /** What a reader of the stream sees under one identity. */
  datatype Shown =
    | ShownText(text: string)
    | ShownThinking(text: string)
    | ShownCall(name: string, input: Json, meta: Meta)
    | ShownResult(content: Json, isError: bool)
    | ShownOther(json: Json)

  type View = map<Identity, Shown>

  function Show(block: Block): Shown {
    match block
    case Text(_, text) => ShownText(text)
    case Thinking(_, text, _) => ShownThinking(text)
    case ToolUse(_, name, input, meta) => ShownCall(name, input, meta)
    case ToolResult(_, content, isError) => ShownResult(content, isError)
    case Other(_, _, json) => ShownOther(json)
  }

  function ViewOf(blocks: seq<Block>): View {
    if blocks == [] then map[]
    else
      var k := |blocks| - 1;
      ViewOf(blocks[..k])[BlockIdentity(blocks[k], k) := Show(blocks[k])]
  }

  /** Text and thinking append to what is there, everything else replaces it. */
  function Apply(view: View, id: Identity, block: Block): View {
    if id in view && block.Text? && view[id].ShownText? then view[id := ShownText(view[id].text + block.text)]
    else if id in view && block.Thinking? && view[id].ShownThinking?
      then view[id := ShownThinking(view[id].text + block.text)]
    else view[id := Show(block)]
  }

  /** Applies a patch; a block that carries no index is placed by its position in the patch. */
  function ApplyPatch(view: View, delta: seq<Block>): View {
    if delta == [] then view
    else
      var k := |delta| - 1;
      Apply(ApplyPatch(view, delta[..k]), BlockIdentity(delta[k], k), delta[k])
  }

  // ---------------------------------------------------------------- when a patch rebuilds the content

  predicate CarriesIdentity(block: Block) {
    block.ToolUse? || block.ToolResult? || block.streamIndex.Some?
  }

  /** Every block carries its identity, and no two share one. */
  ghost predicate Identified(blocks: seq<Block>) {
    && (forall k :: 0 <= k < |blocks| ==> CarriesIdentity(blocks[k]))
    && forall i, j :: 0 <= i < j < |blocks| ==> BlockIdentity(blocks[i], i) != BlockIdentity(blocks[j], j)
  }

  ghost predicate GrowsInto(before: Shown, after: Shown) {
    match before
    case ShownText(text) => after.ShownText? && text <= after.text
    case ShownThinking(text) => after.ShownThinking? && text <= after.text
    case _ => true
  }

  /** Every identity stays, and text and thinking only gain a suffix. */
  ghost predicate Grows(last: seq<Block>, full: seq<Block>) {
    forall id :: id in ViewOf(last) ==> id in ViewOf(full) && GrowsInto(ViewOf(last)[id], ViewOf(full)[id])
  }

  /** What the receiver shows for a block after the patch. */
  function Received(prev: Option<Shown>, block: Block): Shown {
    match prev
    case None => Show(block)
    case Some(shown) =>
      if (block.Text? && shown.ShownText?) || (block.Thinking? && shown.ShownThinking?)
      then if |block.text| > |shown.text| then shown.(text := shown.text + block.text[|shown.text|..]) else shown
      else Show(block)
  }

  ghost predicate Kind(id: Identity, shown: Shown) {
    match id
    case TextId(_) => shown.ShownText?
    case ThinkingId(_) => shown.ShownThinking?
    case ToolUseId(_) => shown.ShownCall?
    case ToolResultId(_) => shown.ShownResult?
    case OtherId(_, _) => shown.ShownOther?
  }

  lemma {:induction false} ViewLookup(blocks: seq<Block>, id: Identity)
    requires Identified(blocks)
    ensures id in ViewOf(blocks) <==> id in ById(blocks)
    ensures id in ById(blocks) ==> ViewOf(blocks)[id] == Show(ById(blocks)[id]) && Kind(id, ViewOf(blocks)[id])
    ensures id in ById(blocks) <==> exists k :: 0 <= k < |blocks| && BlockIdentity(blocks[k], k) == id
    ensures forall k :: 0 <= k < |blocks| && BlockIdentity(blocks[k], k) == id ==> ById(blocks)[id] == blocks[k]
    ensures id in ById(blocks) ==> CarriesIdentity(ById(blocks)[id]) && BlockIdentity(ById(blocks)[id], 0) == id
  {
    if blocks != [] {
      var front := blocks[..|blocks| - 1];
      assert forall i :: 0 <= i < |front| ==> front[i] == blocks[i];
      ViewLookup(front, id);
    }
  }

  function Shows(view: View, id: Identity): Option<Shown> {
    if id in view then Some(view[id]) else None
  }

  /** The view after the patch, block by block. */
  function Overlay(full: seq<Block>, last: seq<Block>): View {
    if full == [] then ViewOf(last)
    else
      var k := |full| - 1;
      var id := BlockIdentity(full[k], k);
      Overlay(full[..k], last)[id := Received(Shows(ViewOf(last), id), full[k])]
  }

  lemma {:induction false} OverlayLookup(full: seq<Block>, last: seq<Block>, id: Identity)
    requires Identified(full)
    ensures Shows(Overlay(full, last), id) ==
            if id in ById(full) then Some(Received(Shows(ViewOf(last), id), ById(full)[id]))
              else Shows(ViewOf(last), id)
  {
    if full != [] {
      var front := full[..|full| - 1];
      assert forall i :: 0 <= i < |front| ==> front[i] == full[i];
      OverlayLookup(front, last, id);
      ViewLookup(front, id);
      ViewLookup(full, id);
    }
  }

  /** One block: its delta, applied under its own identity, has the effect of Received. */
  lemma BlockDeltaApplies(view: View, last: seq<Block>, block: Block, k: int)
    requires Identified(last) && CarriesIdentity(block)
    requires var id := BlockIdentity(block, k); Shows(view, id) == Shows(ViewOf(last), id)
    ensures var id := BlockIdentity(block, k);
            var delta := BlockDelta(block, Previous(last, id));
      && (delta == [] ==> view == view[id := Received(Shows(ViewOf(last), id), block)])
      && (delta != [] ==> (
            && |delta| == 1 && CarriesIdentity(delta[0])
            && (forall at :: BlockIdentity(delta[0], at) == id)
            && Apply(view, id, delta[0]) == view[id := Received(Shows(ViewOf(last), id), block)]))
  {
    var id := BlockIdentity(block, k);
    ViewLookup(last, id);
  }

  lemma {:induction false} PatchIsOverlay(full: seq<Block>, last: seq<Block>)
    requires Identified(full) && Identified(last)
    ensures ApplyPatch(ViewOf(last), Delta(full, last)) == Overlay(full, last)
  {
    if full != [] {
      var k := |full| - 1;
      var front, block := full[..k], full[k];
      var id := BlockIdentity(block, k);
      assert forall i :: 0 <= i < |front| ==> front[i] == full[i];
      PatchIsOverlay(front, last);
      OverlayLookup(front, last, id);
      ViewLookup(front, id);
      assert id !in ById(front);
      var rest := Delta(front, last);
      var delta := BlockDelta(block, Previous(last, id));
      BlockDeltaApplies(Overlay(front, last), last, block, k);
      if delta == [] {
        assert rest + delta == rest;
      } else {
        assert (rest + delta)[..|rest|] == rest && (rest + delta)[|rest|] == delta[0];
      }
    }
  }

  lemma SuffixCompletes(prefix: string, text: string)
    ensures (if |text| > |prefix| then prefix + text[|prefix|..] else prefix) == text <==> prefix <= text
  {
    if |text| > |prefix| && prefix + text[|prefix|..] == text {
      assert prefix == text[..|prefix|];
    }
  }

  lemma IdentityRebuildsIffGrows(full: seq<Block>, last: seq<Block>, id: Identity)
    requires Identified(full) && Identified(last)
    ensures Shows(Overlay(full, last), id) == Shows(ViewOf(full), id) <==>
            (id in ViewOf(last) ==> id in ViewOf(full) && GrowsInto(ViewOf(last)[id], ViewOf(full)[id]))
  {
    OverlayLookup(full, last, id);
    ViewLookup(full, id);
    ViewLookup(last, id);
    if id in ById(full) && id in ById(last) {
      var shown, block := ViewOf(last)[id], ById(full)[id];
      if block.Text? || block.Thinking? {
        SuffixCompletes(shown.text, block.text);
      }
    }
  }

  lemma SameView(a: View, b: View)
    ensures a == b <==> forall id :: Shows(a, id) == Shows(b, id)
  {
    if forall id :: Shows(a, id) == Shows(b, id) {
      assert forall id :: id in a <==> Shows(a, id).Some?;
      assert forall id :: id in b <==> Shows(b, id).Some?;
      assert forall id :: id in a ==> Shows(a, id) == Some(a[id]);
      assert a.Keys == b.Keys;
    }
  }

  /** One patch rebuilds the content exactly when identities stay and text only grows by suffix. */
  lemma PatchRebuildsIffGrows(full: seq<Block>, last: seq<Block>)
    requires Identified(full) && Identified(last)
    ensures ApplyPatch(ViewOf(last), Delta(full, last)) == ViewOf(full) <==> Grows(last, full)
  {
    PatchIsOverlay(full, last);
    SameView(Overlay(full, last), ViewOf(full));
    forall id
      ensures Shows(Overlay(full, last), id) == Shows(ViewOf(full), id) <==>
              (id in ViewOf(last) ==> id in ViewOf(full) && GrowsInto(ViewOf(last)[id], ViewOf(full)[id]))
    {
      IdentityRebuildsIffGrows(full, last, id);
    }
  }

  // ---------------------------------------------------------------- what a patch does not repeat

  /** A call whose metadata never compares equal. */
  ghost predicate AlwaysResent(block: Block) {
    block.ToolUse? && block.meta.Some? && exists key :: key in block.meta.value && block.meta.value[key].Nested?
  }

  /** Calls and results are told apart by id, whatever else they hold; other blocks by kind and index. */
  lemma SharesIdentityIff(a: Block, i: int, b: Block, j: int)
    ensures BlockIdentity(a, i) == BlockIdentity(b, j) <==>
      || (a.ToolUse? && b.ToolUse? && a.id == b.id)
      || (a.ToolResult? && b.ToolResult? && a.id == b.id)
      || (((a.Text? && b.Text?) || (a.Thinking? && b.Thinking?) || (a.Other? && b.Other? && a.kind == b.kind))
          && a.streamIndex.GetOr(i) == b.streamIndex.GetOr(j))
  {
  }

  predicate NothingNew(full: seq<Block>, last: seq<Block>, k: nat)
    requires k < |full|
  {
    BlockDelta(full[k], Previous(last, BlockIdentity(full[k], k))) == []
  }

  lemma {:induction false} DeltaIsEmptyIff(full: seq<Block>, last: seq<Block>, n: nat)
    requires n <= |full|
    ensures Delta(full[..n], last) == [] <==> forall k :: 0 <= k < n ==> NothingNew(full, last, k)
  {
    if n > 0 {
      DeltaIsEmptyIff(full, last, n - 1);
      assert full[..n][..n - 1] == full[..n - 1];
      assert Delta(full[..n], last) == [] <==> Delta(full[..n - 1], last) == [] && NothingNew(full, last, n - 1);
    }
  }

  /** While content grows, nothing is sent exactly when nothing shown has changed and no call is always resent. */
  lemma SilentIffUnchanged(full: seq<Block>, last: seq<Block>)
    requires Identified(full) && Identified(last) && Grows(last, full)
    ensures Delta(full, last) == [] <==>
            ViewOf(full) == ViewOf(last) && forall k :: 0 <= k < |full| ==> !AlwaysResent(full[k])
  {
    DeltaIsEmptyIff(full, last, |full|);
    assert full[..|full|] == full;
    forall k | 0 <= k < |full|
      ensures NothingNew(full, last, k) <==> (
        var id := BlockIdentity(full[k], k);
        Shows(ViewOf(full), id) == Shows(ViewOf(last), id) && !AlwaysResent(full[k]))
    {
      BlockIsSilentIff(full, last, k);
    }
    SameView(ViewOf(full), ViewOf(last));
    forall id
      ensures id in ViewOf(full) <==> exists k :: 0 <= k < |full| && BlockIdentity(full[k], k) == id
      ensures id in ViewOf(last) ==> id in ViewOf(full)
    {
      ViewLookup(full, id);
    }
  }

  lemma SilentBlock(prev: Block, block: Block, k: int)
    requires CarriesIdentity(prev) && CarriesIdentity(block) && BlockIdentity(prev, 0) == BlockIdentity(block, k)
    requires GrowsInto(Show(prev), Show(block))
    ensures BlockDelta(block, Some(prev)) == [] <==> Show(prev) == Show(block) && !AlwaysResent(block)
  {
    if block.Text? || block.Thinking? {
      SuffixCompletes(prev.text, block.text);
    } else if block.ToolUse? && !AlwaysResent(block) && block.meta.Some? {
      assert forall key :: key in block.meta.value ==> !block.meta.value[key].Nested?;
    }
  }

  lemma BlockIsSilentIff(full: seq<Block>, last: seq<Block>, k: nat)
    requires k < |full| && Identified(full) && Identified(last) && Grows(last, full)
    ensures NothingNew(full, last, k) <==> (
        var id := BlockIdentity(full[k], k);
        Shows(ViewOf(full), id) == Shows(ViewOf(last), id) && !AlwaysResent(full[k]))
  {
    var block, id := full[k], BlockIdentity(full[k], k);
    ViewLookup(full, id);
    ViewLookup(last, id);
    assert Shows(ViewOf(full), id) == Some(Show(block));
    if id in ById(last) {
      SilentBlock(ById(last)[id], block, k);
    } else {
      assert BlockDelta(block, None) == [block];
    }
  }

  /** Content already sent is not sent again, exactly when no call has nested metadata. */
  lemma RepeatSendsNothingIff(full: seq<Block>)
    requires Identified(full)
    ensures Delta(full, full) == [] <==> forall k :: 0 <= k < |full| ==> !AlwaysResent(full[k])
  {
    SilentIffUnchanged(full, full);
  }
}
