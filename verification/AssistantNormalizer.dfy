/**
 Pairing tool calls with their results in an assistant message
 (apps/agent/src/assistant-message-normalizer.ts), and reading them back from the stored
 blocks (extractToolCalls in apps/agent/src/persistence.ts).
 */
module AssistantNormalizer {
  import opened Common

  type CallId = string

  /** Values the code copies without looking inside. */
  type Json = string

  type Meta = Option<Json>

  /** What extractToolResultContent or normalizeToolResultBlocks made of a raw result. */
  datatype ResultContent = ResultContent(content: Json, isError: bool)

  /** The content of a tool_result block: a string, normalized blocks, or neither. */
  datatype RawContent = PlainText(text: Json) | Blocks(normalized: ResultContent) | Absent

  function TextOf(content: RawContent): Option<Json> {
    match content
    case PlainText(text) => Some(text)
    case Blocks(normalized) => Some(normalized.content)
    case Absent => None
  }

  predicate ContentFails(content: RawContent) {
    content.Blocks? && content.normalized.isError
  }

  /** One element of the assistant message's content, as far as the code distinguishes them. */
  datatype Item =
    | TextItem(text: string, meta: Meta)
    | ThinkingItem(thinking: string, signature: Option<string>, meta: Meta)
    | ImageItem(normalized: Option<Json>)
    | CallItem(id: CallId, name: Option<string>, input: Option<Json>, meta: Meta)
    | ResultItem(id: CallId, content: RawContent, isError: bool)
    | OtherItem

  /** One element of toolResults; id and name are empty when they are not strings. */
  datatype RawResult = RawResult(id: CallId, name: string, input: Option<Json>, content: Option<ResultContent>,
      isError: bool)

  datatype Execution = Execution(id: CallId, name: string, input: Json, resultContent: Option<Json>, isError: bool,
      useMeta: Meta)

  datatype Block =
    | Text(text: string, meta: Meta)
    | Thinking(thinking: string, signature: Option<string>, meta: Meta)
    | Image(image: Json)
    | ToolUse(id: CallId, name: string, input: Json, meta: Meta)
    | ToolResult(id: CallId, content: Json, isError: bool)

  const NO_INPUT: Json := "{}"

  // ---------------------------------------------------------------- executions

  /** A JavaScript Map: values by key, and keys in the order they were first set. */
  datatype Executions = Executions(order: seq<CallId>, byId: map<CallId, Execution>) {
    ghost predicate Valid() {
      && Distinct(order)
      && (forall id :: id in order <==> id in byId)
      && forall id :: id in byId ==> byId[id].id == id
    }

    function Get(id: CallId): Option<Execution> {
      if id in byId then Some(byId[id]) else None
    }

    function Set(e: Execution): Executions {
      Executions(if e.id in byId then order else order + [e.id], byId[e.id := e])
    }
  }

  const NO_EXECUTIONS := Executions([], map[])

  function AddRaw(known: Executions, raw: RawResult): Executions {
    if raw.id == "" || raw.name == "" then known
    else
      known.Set(Reported(raw))
  }

  function Reported(raw: RawResult): Execution {
    Execution(
      raw.id, raw.name, raw.input.GetOr(NO_INPUT),
      if raw.content.Some? then Some(raw.content.value.content) else None,
      raw.isError || (raw.content.Some? && raw.content.value.isError), None)
  }

  function AddItem(known: Executions, item: Item): Executions {
    match item
    case CallItem(id, Some(name), input, meta) =>
      var existing := known.Get(id);
      known.Set(Execution(
        id, name,
        if input.Some? then input.value else if existing.Some? then existing.value.input else NO_INPUT,
        if existing.Some? then existing.value.resultContent else None,
        existing.Some? && existing.value.isError,
        if meta.Some? then meta else if existing.Some? then existing.value.useMeta else None))
    case ResultItem(id, content, isError) =>
      var existing := known.Get(id);
      if existing.None? then known
      else
        known.Set(existing.value.(
          resultContent := if content.Absent? then existing.value.resultContent else TextOf(content),
          isError := isError || existing.value.isError || ContentFails(content)))
    case _ => known
  }

  function AddRaws(raws: seq<RawResult>): Executions {
    if raws == [] then NO_EXECUTIONS else AddRaw(AddRaws(raws[..|raws| - 1]), raws[|raws| - 1])
  }

  function AddItems(known: Executions, items: seq<Item>): Executions {
    if items == [] then known else AddItem(AddItems(known, items[..|items| - 1]), items[|items| - 1])
  }

  function KnownExecutions(items: seq<Item>, raws: seq<RawResult>): Executions {
    AddItems(AddRaws(raws), items)
  }

  method NormalizeToolExecutions(items: seq<Item>, raws: seq<RawResult>) returns (executions: Executions)
    ensures executions == KnownExecutions(items, raws)
  {
    executions := NO_EXECUTIONS;
    for k := 0 to |raws|
      invariant executions == AddRaws(raws[..k])
    {
      assert raws[..k + 1][..k] == raws[..k];
      var raw := raws[k];
      if raw.id == "" || raw.name == "" {
        continue;
      }
      executions := AddRaw(executions, raw);
    }
    assert raws[..|raws|] == raws;
    for k := 0 to |items|
      invariant executions == AddItems(AddRaws(raws), items[..k])
    {
      assert items[..k + 1][..k] == items[..k];
      executions := AddItem(executions, items[k]);
    }
    assert items[..|items|] == items;
  }

  lemma {:induction false} RawsValid(raws: seq<RawResult>)
    ensures AddRaws(raws).Valid()
    ensures forall id :: id in AddRaws(raws).byId <==>
      exists k :: 0 <= k < |raws| && raws[k].id == id && id != "" && raws[k].name != ""
  {
    if raws != [] {
      RawsValid(raws[..|raws| - 1]);
    }
  }

  predicate NamesCall(item: Item, id: CallId) {
    item.CallItem? && item.id == id && item.name.Some?
  }

  lemma {:induction false} ItemsValid(known: Executions, items: seq<Item>)
    requires known.Valid()
    ensures AddItems(known, items).Valid()
    ensures forall id :: id in AddItems(known, items).byId <==>
      id in known.byId || exists k :: 0 <= k < |items| && NamesCall(items[k], id)
  {
    if items != [] {
      ItemsValid(known, items[..|items| - 1]);
    }
  }

  /** A call is known exactly when a raw result with a name, or a named call block, mentions it. */
  lemma KnownIff(items: seq<Item>, raws: seq<RawResult>, id: CallId)
    ensures KnownExecutions(items, raws).Valid()
    ensures id in KnownExecutions(items, raws).byId <==>
      || (exists k :: 0 <= k < |raws| && raws[k].id == id && id != "" && raws[k].name != "")
      || (exists k :: 0 <= k < |items| && NamesCall(items[k], id))
  {
    RawsValid(raws);
    ItemsValid(AddRaws(raws), items);
  }

  // ---------------------------------------------------------------- what is known of a call

  /** The last raw result that names the call. */
  function LastRaw(raws: seq<RawResult>, id: CallId): (raw: Option<RawResult>)
    ensures raw.None? ==> forall k :: 0 <= k < |raws| ==> !NamedRaw(raws[k], id)
    ensures raw.Some? ==> exists k :: 0 <= k < |raws| && raws[k] == raw.value && IsLastNamed(raws, k, id)
  {
    if raws == [] then None
    else
      var last := |raws| - 1;
      if NamedRaw(raws[last], id) then assert IsLastNamed(raws, last, id); Some(raws[last])
      else
        var raw := LastRaw(raws[..last], id);
        assert forall k :: 0 <= k < last && IsLastNamed(raws[..last], k, id) ==> IsLastNamed(raws, k, id);
        raw
  }

  ghost predicate IsLastNamed(raws: seq<RawResult>, k: nat, id: CallId)
    requires k < |raws|
  {
    NamedRaw(raws[k], id) && forall m :: k < m < |raws| ==> !NamedRaw(raws[m], id)
  }

  predicate NamedRaw(raw: RawResult, id: CallId) {
    raw.id == id && id != "" && raw.name != ""
  }

  /** What an item may say about a call; `known` says whether a raw result already named it. */
  datatype Mark = Naming | GivingInput | GivingMeta | Answering(known: bool) | Failing(known: bool)

  /** The call is known by the time the `k`-th item is read. */
  predicate KnownBefore(items: seq<Item>, k: nat, id: CallId, known: bool)
    requires k <= |items|
  {
    known || exists j :: 0 <= j < k && NamesCall(items[j], id)
  }

  predicate Answers(item: Item, id: CallId) {
    item.ResultItem? && item.id == id
  }

  predicate Marked(items: seq<Item>, k: nat, id: CallId, mark: Mark)
    requires k < |items|
  {
    match mark
    case Naming => NamesCall(items[k], id)
    case GivingInput => NamesCall(items[k], id) && items[k].input.Some?
    case GivingMeta => NamesCall(items[k], id) && items[k].meta.Some?
    case Answering(known) =>
      Answers(items[k], id) && KnownBefore(items, k, id, known) && !items[k].content.Absent?
    case Failing(known) =>
      Answers(items[k], id) && KnownBefore(items, k, id, known) && (items[k].isError || ContentFails(items[k].content))
  }

  /** The position of the last such item, -1 if there is none. */
  function LastMarked(items: seq<Item>, n: nat, id: CallId, mark: Mark): (k: int)
    requires n <= |items|
    ensures -1 <= k < n
    ensures k >= 0 ==> Marked(items, k, id, mark)
    ensures forall m :: k < m < n ==> !Marked(items, m, id, mark)
  {
    if n == 0 then -1 else if Marked(items, n - 1, id, mark) then n - 1 else LastMarked(items, n - 1, id, mark)
  }

  /**
   The call as the first `n` items describe it, on top of what a raw result reported: named and
   given its input and metadata by the last block that does so, answered by the last non-empty
   result read once the call is known, failed if its raw result or any such result failed.
   */
  function Described(reported: Option<Execution>, items: seq<Item>, n: nat, id: CallId): Option<Execution>
    requires n <= |items|
  {
    var naming, input := LastMarked(items, n, id, Naming), LastMarked(items, n, id, GivingInput);
    var meta := LastMarked(items, n, id, GivingMeta);
    var answer := LastMarked(items, n, id, Answering(reported.Some?));
    var failure := LastMarked(items, n, id, Failing(reported.Some?));
    if naming < 0 && reported.None? then None
    else
      Some(Execution(
        id,
        if naming >= 0 then items[naming].name.value else reported.value.name,
        if input >= 0 then items[input].input.value else if reported.Some? then reported.value.input else NO_INPUT,
        if answer >= 0 then TextOf(items[answer].content)
          else if reported.Some? then reported.value.resultContent else None,
        failure >= 0 || (reported.Some? && reported.value.isError),
        if meta >= 0 then items[meta].meta else if reported.Some? then reported.value.useMeta else None))
  }

  /** What the whole message and its raw results say about a call, None if neither names it. */
  function Meant(items: seq<Item>, raws: seq<RawResult>, id: CallId): Option<Execution> {
    var raw := LastRaw(raws, id);
    Described(if raw.Some? then Some(Reported(raw.value)) else None, items, |items|, id)
  }

  lemma {:induction false} RawsReport(raws: seq<RawResult>, id: CallId)
    ensures AddRaws(raws).Get(id) == if LastRaw(raws, id).Some? then Some(Reported(LastRaw(raws, id).value)) else None
  {
    if raws != [] {
      RawsReport(raws[..|raws| - 1], id);
    }
  }

  lemma NamingDescribes(reported: Option<Execution>, items: seq<Item>, n: nat, id: CallId)
    requires n < |items| && NamesCall(items[n], id)
    ensures var existing := Described(reported, items, n, id);
      Described(reported, items, n + 1, id) == Some(Execution(
        id, items[n].name.value,
        if items[n].input.Some? then items[n].input.value else if existing.Some? then existing.value.input
          else NO_INPUT,
        if existing.Some? then existing.value.resultContent else None,
        existing.Some? && existing.value.isError,
        if items[n].meta.Some? then items[n].meta else if existing.Some? then existing.value.useMeta else None))
  {
    UnnamedHasNoMarks(items, n, id);
  }

  /** Before it is named, nothing said about a call is heeded. */
  lemma UnnamedHasNoMarks(items: seq<Item>, n: nat, id: CallId)
    requires n <= |items|
    ensures KnownBefore(items, n, id, false) <==> LastMarked(items, n, id, Naming) >= 0
    ensures LastMarked(items, n, id, Naming) < 0 ==>
      LastMarked(items, n, id, Answering(false)) < 0 && LastMarked(items, n, id, Failing(false)) < 0
  {
    assert forall m :: 0 <= m < n ==> Marked(items, m, id, Naming) == NamesCall(items[m], id);
  }

  lemma AnswerDescribes(reported: Option<Execution>, items: seq<Item>, n: nat, id: CallId)
    requires n < |items| && Answers(items[n], id)
    ensures var existing := Described(reported, items, n, id);
      Described(reported, items, n + 1, id) ==
        if existing.None? then None
        else Some(existing.value.(
          resultContent := if items[n].content.Absent? then existing.value.resultContent else TextOf(items[n].content),
          isError := items[n].isError || existing.value.isError || ContentFails(items[n].content)))
  {
    UnnamedHasNoMarks(items, n, id);
  }

  lemma OtherDescribesNothing(reported: Option<Execution>, items: seq<Item>, n: nat, id: CallId)
    requires n < |items| && !NamesCall(items[n], id) && !Answers(items[n], id)
    ensures Described(reported, items, n + 1, id) == Described(reported, items, n, id)
  {
  }

  /** Folding the items over a map amounts, for each call, to what they say about it. */
  lemma {:induction false} ItemsDescribe(known: Executions, items: seq<Item>, n: nat, id: CallId)
    requires n <= |items| && known.Valid()
    ensures AddItems(known, items[..n]).Get(id) == Described(known.Get(id), items, n, id)
  {
    if n == 0 {
      assert items[..0] == [];
    } else {
      ItemsDescribe(known, items, n - 1, id);
      assert items[..n][..n - 1] == items[..n - 1];
      ItemsValid(known, items[..n - 1]);
      ItemDescribes(AddItems(known, items[..n - 1]), known.Get(id), items, n - 1, id);
    }
  }

  lemma ItemDescribes(sofar: Executions, reported: Option<Execution>, items: seq<Item>, n: nat, id: CallId)
    requires n < |items| && sofar.Valid() && sofar.Get(id) == Described(reported, items, n, id)
    ensures AddItem(sofar, items[n]).Get(id) == Described(reported, items, n + 1, id)
  {
    if NamesCall(items[n], id) {
      NamingDescribes(reported, items, n, id);
    } else if Answers(items[n], id) {
      AnswerDescribes(reported, items, n, id);
    } else {
      OtherDescribesNothing(reported, items, n, id);
    }
  }

  /** What the two loops collect about a call is what the message and its raw results say about it. */
  lemma KnownIsMeant(items: seq<Item>, raws: seq<RawResult>, id: CallId)
    ensures KnownExecutions(items, raws).Get(id) == Meant(items, raws, id)
  {
    RawsValid(raws);
    RawsReport(raws, id);
    ItemsDescribe(AddRaws(raws), items, |items|, id);
    assert items[..|items|] == items;
  }

  // ---------------------------------------------------------------- emitting blocks

  datatype Output = Output(blocks: seq<Block>, uses: set<CallId>, results: set<CallId>)

  const NO_OUTPUT := Output([], {}, {})

  function UseBlock(e: Execution): Block {
    ToolUse(e.id, e.name, e.input, e.useMeta)
  }

  function ResultBlock(e: Execution): Block
    requires e.resultContent.Some?
  {
    ToolResult(e.id, e.resultContent.value, e.isError)
  }

  function EmitUse(out: Output, e: Execution): Output {
    if e.id in out.uses then out else Output(out.blocks + [UseBlock(e)], out.uses + {e.id}, out.results)
  }

  function EmitResult(out: Output, e: Execution): Output {
    if e.id in out.results || e.resultContent.None? then out
    else Output(out.blocks + [ResultBlock(e)], out.uses, out.results + {e.id})
  }

  /** The block an item becomes by itself, if it is text, thinking or an image. */
  function Prose(item: Item): seq<Block> {
    match item
    case TextItem(text, meta) => [Text(text, meta)]
    case ThinkingItem(thinking, signature, meta) => [Thinking(thinking, signature, meta)]
    case ImageItem(normalized) => if normalized.Some? then [Image(normalized.value)] else []
    case _ => []
  }

  function EmitCall(known: Executions, out: Output, id: CallId, name: Option<string>, input: Option<Json>,
      meta: Meta): Output {
    var execution := known.Get(id);
    if execution.Some? then EmitUse(out, execution.value)
    else if name.None? then out
    else
      var block := ToolUse(id, name.value, input.GetOr(NO_INPUT), meta);
      Output(out.blocks + [block], out.uses + {id}, out.results)
  }

  function EmitAnswer(known: Executions, out: Output, id: CallId, content: RawContent, isError: bool): Output {
    var execution := known.Get(id);
    if execution.Some? then EmitResult(EmitUse(out, execution.value), execution.value)
    else
      var block := ToolResult(id, TextOf(content).GetOr(""), isError || ContentFails(content));
      Output(out.blocks + [block], out.uses, out.results + {id})
  }

  function EmitItem(known: Executions, out: Output, item: Item): Output {
    match item
    case CallItem(id, name, input, meta) => EmitCall(known, out, id, name, input, meta)
    case ResultItem(id, content, isError) => EmitAnswer(known, out, id, content, isError)
    case _ => out.(blocks := out.blocks + Prose(item))
  }

  function EmitItems(known: Executions, items: seq<Item>): Output {
    if items == [] then NO_OUTPUT else EmitItem(known, EmitItems(known, items[..|items| - 1]), items[|items| - 1])
  }

  /** The closing loop over executions.values(). */
  function EmitRest(known: Executions, out: Output, ids: seq<CallId>): Output
    requires forall id :: id in ids ==> id in known.byId
  {
    if ids == [] then out
    else
      var e := known.byId[ids[|ids| - 1]];
      EmitResult(EmitUse(EmitRest(known, out, ids[..|ids| - 1]), e), e)
  }

  function Normalized(items: seq<Item>, raws: seq<RawResult>): seq<Block> {
    var known := KnownExecutions(items, raws);
    KnownIff(items, raws, "");
    EmitRest(known, EmitItems(known, items), known.order).blocks
  }

  /** The mutable `blocks` array and the two sets of emitted ids. */
  class BlockWriter {
    var blocks: seq<Block>
    var emittedToolUses: set<CallId>
    var emittedToolResults: set<CallId>

    function State(): Output
      reads this
    {
      Output(blocks, emittedToolUses, emittedToolResults)
    }

    constructor ()
      ensures State() == NO_OUTPUT
    {
      blocks, emittedToolUses, emittedToolResults := [], {}, {};
    }

    method EmitToolUseBlock(e: Execution)
      modifies this
      ensures State() == EmitUse(old(State()), e)
    {
      if e.id in emittedToolUses {
        return;
      }
      blocks := blocks + [ToolUse(e.id, e.name, e.input, e.useMeta)];
      emittedToolUses := emittedToolUses + {e.id};
    }

    method EmitToolResultBlock(e: Execution)
      modifies this
      ensures State() == EmitResult(old(State()), e)
    {
      if e.id in emittedToolResults || e.resultContent.None? {
        return;
      }
      blocks := blocks + [ToolResult(e.id, e.resultContent.value, e.isError)];
      emittedToolResults := emittedToolResults + {e.id};
    }

    method WriteItem(known: Executions, item: Item)
      modifies this
      ensures State() == EmitItem(known, old(State()), item)
    {
      match item
      case CallItem(id, name, input, meta) =>
        var execution := known.Get(id);
        if execution.Some? {
          EmitToolUseBlock(execution.value);
        } else if name.Some? {
          blocks := blocks + [ToolUse(id, name.value, input.GetOr(NO_INPUT), meta)];
          emittedToolUses := emittedToolUses + {id};
        }
      case ResultItem(id, content, isError) =>
        var execution := known.Get(id);
        if execution.Some? {
          EmitToolUseBlock(execution.value);
          EmitToolResultBlock(execution.value);
        } else {
          blocks := blocks + [ToolResult(id, TextOf(content).GetOr(""), isError || ContentFails(content))];
          emittedToolResults := emittedToolResults + {id};
        }
      case _ =>
        blocks := blocks + Prose(item);
    }
  }

  method NormalizeAssistantTurn(items: seq<Item>, raws: seq<RawResult>) returns (content: seq<Block>)
    ensures content == Normalized(items, raws)
  {
    var executions := NormalizeToolExecutions(items, raws);
    KnownIff(items, raws, "");
    var writer := new BlockWriter();
    for k := 0 to |items|
      invariant writer.State() == EmitItems(executions, items[..k])
    {
      assert items[..k + 1][..k] == items[..k];
      writer.WriteItem(executions, items[k]);
    }
    assert items[..|items|] == items;
    var order := executions.order;
    for k := 0 to |order|
      invariant writer.State() == EmitRest(executions, EmitItems(executions, items), order[..k])
    {
      assert order[..k + 1][..k] == order[..k];
      writer.EmitToolUseBlock(executions.byId[order[k]]);
      writer.EmitToolResultBlock(executions.byId[order[k]]);
    }
    assert order[..|order|] == order;
    content := writer.blocks;
  }

  // ---------------------------------------------------------------- conservation

  predicate OfCall(block: Block, id: CallId) {
    (block.ToolUse? || block.ToolResult?) && block.id == id
  }

  /** The blocks of one call, in order. */
  function CallBlocks(blocks: seq<Block>, id: CallId): seq<Block> {
    if blocks == [] then []
    else
      var last := blocks[|blocks| - 1];
      CallBlocks(blocks[..|blocks| - 1], id) + if OfCall(last, id) then [last] else []
  }

  /** Everything but tool blocks, in order. */
  function ProseBlocks(blocks: seq<Block>): seq<Block> {
    if blocks == [] then []
    else
      var last := blocks[|blocks| - 1];
      ProseBlocks(blocks[..|blocks| - 1]) + if last.ToolUse? || last.ToolResult? then [] else [last]
  }

  function ProseItems(items: seq<Item>): seq<Block> {
    if items == [] then [] else ProseItems(items[..|items| - 1]) + Prose(items[|items| - 1])
  }

  lemma PushBlock(blocks: seq<Block>, block: Block, id: CallId)
    ensures CallBlocks(blocks + [block], id) == CallBlocks(blocks, id) + if OfCall(block, id) then [block] else []
    ensures ProseBlocks(blocks + [block]) ==
      ProseBlocks(blocks) + if block.ToolUse? || block.ToolResult? then [] else [block]
  {
    assert (blocks + [block])[..|blocks|] == blocks;
  }

  /** What has been written for a known call matches the sets of emitted ids, the use before the result. */
  ghost predicate Paired(out: Output, e: Execution) {
    && (e.id in out.results ==> e.id in out.uses && e.resultContent.Some?)
    && CallBlocks(out.blocks, e.id) ==
       (if e.id in out.uses then [UseBlock(e)] else []) + (if e.id in out.results then [ResultBlock(e)] else [])
  }

  lemma EmitUseKeepsPaired(out: Output, e: Execution, other: Execution)
    requires Paired(out, e) && (other.id == e.id ==> other == e)
    ensures Paired(EmitUse(out, other), e)
  {
    PushBlock(out.blocks, UseBlock(other), e.id);
    if other.id == e.id && e.id !in out.uses {
      assert CallBlocks(out.blocks, e.id) == [];
    }
  }

  lemma EmitResultKeepsPaired(out: Output, e: Execution, other: Execution)
    requires Paired(out, e) && (other.id == e.id ==> other == e) && other.id in out.uses
    ensures Paired(EmitResult(out, other), e)
  {
    if other.resultContent.Some? {
      PushBlock(out.blocks, ResultBlock(other), e.id);
      if other.id == e.id && e.id !in out.results {
        assert CallBlocks(out.blocks, e.id) == [UseBlock(e)];
      }
    }
  }

  /** Writing one block of something else. */
  lemma OtherBlockKeepsPaired(out: Output, next: Output, block: Block, e: Execution)
    requires Paired(out, e) && next.blocks == out.blocks + [block]
    requires block.ToolUse? || block.ToolResult? ==> block.id != e.id
    requires (e.id in next.uses <==> e.id in out.uses) && (e.id in next.results <==> e.id in out.results)
    ensures Paired(next, e)
  {
    PushBlock(out.blocks, block, e.id);
  }

  lemma KnownItemKeepsPaired(out: Output, other: Execution, e: Execution)
    requires Paired(out, e) && (other.id == e.id ==> other == e)
    ensures Paired(EmitUse(out, other), e) && Paired(EmitResult(EmitUse(out, other), other), e)
  {
    EmitUseKeepsPaired(out, e, other);
    EmitResultKeepsPaired(EmitUse(out, other), e, other);
  }

  lemma CallKeepsPaired(known: Executions, out: Output, item: Item, e: Execution)
    requires item.CallItem? && known.Get(e.id) == Some(e) && Paired(out, e)
    requires item.id in known.byId ==> known.byId[item.id].id == item.id
    ensures Paired(EmitCall(known, out, item.id, item.name, item.input, item.meta), e)
  {
    if item.id in known.byId {
      EmitUseKeepsPaired(out, e, known.byId[item.id]);
    } else if item.name.Some? {
      var block := ToolUse(item.id, item.name.value, item.input.GetOr(NO_INPUT), item.meta);
      OtherBlockKeepsPaired(out, Output(out.blocks + [block], out.uses + {item.id}, out.results), block, e);
    }
  }

  lemma AnswerKeepsPaired(known: Executions, out: Output, item: Item, e: Execution)
    requires item.ResultItem? && known.Get(e.id) == Some(e) && Paired(out, e)
    requires item.id in known.byId ==> known.byId[item.id].id == item.id
    ensures Paired(EmitAnswer(known, out, item.id, item.content, item.isError), e)
  {
    if item.id in known.byId {
      KnownItemKeepsPaired(out, known.byId[item.id], e);
    } else {
      var block := ToolResult(item.id, TextOf(item.content).GetOr(""), item.isError || ContentFails(item.content));
      OtherBlockKeepsPaired(out, Output(out.blocks + [block], out.uses, out.results + {item.id}), block, e);
    }
  }

  lemma ProseKeepsPaired(out: Output, item: Item, e: Execution)
    requires Paired(out, e)
    ensures Paired(out.(blocks := out.blocks + Prose(item)), e)
  {
    if Prose(item) == [] {
      assert out.blocks + [] == out.blocks;
    } else {
      OtherBlockKeepsPaired(out, out.(blocks := out.blocks + Prose(item)), Prose(item)[0], e);
    }
  }

  lemma ItemKeepsPaired(known: Executions, out: Output, item: Item, e: Execution)
    requires known.Get(e.id) == Some(e) && Paired(out, e)
    requires forall id :: id in known.byId ==> known.byId[id].id == id
    ensures Paired(EmitItem(known, out, item), e)
  {
    match item
    case CallItem(_, _, _, _) => CallKeepsPaired(known, out, item, e);
    case ResultItem(_, _, _) => AnswerKeepsPaired(known, out, item, e);
    case _ => ProseKeepsPaired(out, item, e);
  }

  lemma {:induction false} ItemsKeepPaired(known: Executions, items: seq<Item>, e: Execution)
    requires known.Valid() && known.Get(e.id) == Some(e)
    ensures Paired(EmitItems(known, items), e)
  {
    if items != [] {
      ItemsKeepPaired(known, items[..|items| - 1], e);
      ItemKeepsPaired(known, EmitItems(known, items[..|items| - 1]), items[|items| - 1], e);
    }
  }

  lemma {:induction false} RestKeepsPaired(known: Executions, out: Output, ids: seq<CallId>, e: Execution)
    requires known.Valid() && known.Get(e.id) == Some(e) && Paired(out, e)
    requires forall id :: id in ids ==> id in known.byId
    ensures Paired(EmitRest(known, out, ids), e)
  {
    if ids != [] {
      RestKeepsPaired(known, out, ids[..|ids| - 1], e);
      KnownItemKeepsPaired(EmitRest(known, out, ids[..|ids| - 1]), known.byId[ids[|ids| - 1]], e);
    }
  }

  lemma {:induction false} RestMarks(known: Executions, out: Output, ids: seq<CallId>, e: Execution)
    requires known.Valid() && known.Get(e.id) == Some(e) && e.id in ids
    requires forall id :: id in ids ==> id in known.byId
    ensures e.id in EmitRest(known, out, ids).uses
    ensures e.resultContent.Some? ==> e.id in EmitRest(known, out, ids).results
  {
    var front, last := ids[..|ids| - 1], ids[|ids| - 1];
    assert ids == front + [last];
    EmitMarks(EmitRest(known, out, front), known.byId[last], e.id);
    if last != e.id {
      RestMarks(known, out, front, e);
    }
  }

  lemma EmitMarks(out: Output, other: Execution, id: CallId)
    ensures var next := EmitResult(EmitUse(out, other), other);
      && (id in out.uses || id == other.id ==> id in next.uses)
      && (id in out.results || (id == other.id && other.resultContent.Some?) ==> id in next.results)
  {
  }

  /**
   Every call that the message or its raw results name has exactly one tool_use and, exactly when
   they answer it, one tool_result right of it, both as they describe it.
   */
  lemma CallsAreConserved(items: seq<Item>, raws: seq<RawResult>, id: CallId)
    requires Meant(items, raws, id).Some?
    ensures var e := Meant(items, raws, id).value;
      CallBlocks(Normalized(items, raws), id) == [UseBlock(e)] + if e.resultContent.Some? then [ResultBlock(e)] else []
  {
    var known := KnownExecutions(items, raws);
    KnownIsMeant(items, raws, id);
    KnownIff(items, raws, id);
    ItemsKeepPaired(known, items, known.byId[id]);
    RestKeepsPaired(known, EmitItems(known, items), known.order, known.byId[id]);
    RestMarks(known, EmitItems(known, items), known.order, known.byId[id]);
  }

  lemma {:induction false} CallBlocksHold(blocks: seq<Block>, id: CallId, block: Block)
    ensures block in CallBlocks(blocks, id) <==> block in blocks && OfCall(block, id)
  {
    if blocks != [] {
      CallBlocksHold(blocks[..|blocks| - 1], id, block);
      assert blocks == blocks[..|blocks| - 1] + [blocks[|blocks| - 1]];
    }
  }

  /** Something is known to have come back from the call. */
  ghost predicate Answered(items: seq<Item>, raws: seq<RawResult>, id: CallId) {
    var raw := LastRaw(raws, id);
    || (raw.Some? && raw.value.content.Some?)
    || exists k :: 0 <= k < |items| && Marked(items, k, id, Answering(raw.Some?))
  }

  /**
   A named call keeps a tool_result exactly when its raw result has content or some non-empty
   result block comes after the call is known; results before that are dropped.
   */
  lemma ResultIsKeptIff(items: seq<Item>, raws: seq<RawResult>, id: CallId)
    requires Meant(items, raws, id).Some?
    ensures (exists block :: block in Normalized(items, raws) && block.ToolResult? && block.id == id) <==>
      Answered(items, raws, id)
  {
    var e := Meant(items, raws, id).value;
    var own := CallBlocks(Normalized(items, raws), id);
    CallsAreConserved(items, raws, id);
    assert e.resultContent.Some? <==> Answered(items, raws, id);
    if e.resultContent.Some? {
      assert own[1] == ResultBlock(e) && own[1] in own;
      CallBlocksHold(Normalized(items, raws), id, ResultBlock(e));
    }
    if block :| block in Normalized(items, raws) && block.ToolResult? && block.id == id {
      CallBlocksHold(Normalized(items, raws), id, block);
      assert block in own && block != UseBlock(e);
    }
  }

  // ---------------------------------------------------------------- what the blocks of a call say

  /** A result block that says it failed, or whose blocks could not be normalized. */
  predicate Fails(item: Item) {
    item.ResultItem? &&
    (item.isError || match item.content case Blocks(ResultContent(_, failed)) => failed case _ => false)
  }

  ghost predicate Failed(items: seq<Item>, raw: Option<RawResult>, id: CallId) {
    || (raw.Some? && (raw.value.isError || (raw.value.content.Some? && raw.value.content.value.isError)))
    || exists k :: 0 <= k < |items| && Answers(items[k], id) && KnownBefore(items, k, id, raw.Some?) && Fails(items[k])
  }

  function Said(content: RawContent): Json {
    match content case PlainText(text) => text case Blocks(ResultContent(json, _)) => json case Absent => ""
  }

  /** The use as the last blocks that name the call and give its input and metadata say, else as its raw result says. */
  function UseSaid(items: seq<Item>, raw: Option<RawResult>, id: CallId): Block {
    var naming, input := LastMarked(items, |items|, id, Naming), LastMarked(items, |items|, id, GivingInput);
    var meta := LastMarked(items, |items|, id, GivingMeta);
    ToolUse(id,
      if naming >= 0 then items[naming].name.value else if raw.Some? then raw.value.name else "",
      if input >= 0 then items[input].input.value
        else if raw.Some? && raw.value.input.Some? then raw.value.input.value else "{}",
      if meta >= 0 then items[meta].meta else None)
  }

  /** The result as the last block that answers the known call says, else as its raw result says. */
  function AnswerSaid(items: seq<Item>, raw: Option<RawResult>, id: CallId): Json {
    var answer := LastMarked(items, |items|, id, Answering(raw.Some?));
    if answer >= 0 then Said(items[answer].content)
    else if raw.Some? && raw.value.content.Some? then raw.value.content.value.content else ""
  }

  lemma FailureIsMarked(items: seq<Item>, raw: Option<RawResult>, id: CallId)
    ensures LastMarked(items, |items|, id, Failing(raw.Some?)) >= 0 || (raw.Some? && Reported(raw.value).isError) <==>
      Failed(items, raw, id)
  {
    forall k | 0 <= k < |items|
      ensures Marked(items, k, id, Failing(raw.Some?)) <==>
        Answers(items[k], id) && KnownBefore(items, k, id, raw.Some?) && Fails(items[k])
    {
    }
  }

  /** Of a named call come out one use and, when it is answered, one result, saying exactly that. */
  lemma CallBlocksSay(items: seq<Item>, raws: seq<RawResult>, id: CallId)
    requires Meant(items, raws, id).Some?
    ensures var raw, own := LastRaw(raws, id), CallBlocks(Normalized(items, raws), id);
      && |own| == (if Answered(items, raws, id) then 2 else 1)
      && own[0] == UseSaid(items, raw, id)
      && (|own| == 2 ==>
            && own[1].ToolResult? && own[1].id == id && own[1].content == AnswerSaid(items, raw, id)
            && (own[1].isError <==> Failed(items, raw, id)))
  {
    CallsAreConserved(items, raws, id);
    FailureIsMarked(items, LastRaw(raws, id), id);
  }

  /** What a result block shows when no call of its id is known. */
  function Loose(items: seq<Item>, id: CallId): seq<Block> {
    if items == [] then []
    else
      var last := items[|items| - 1];
      Loose(items[..|items| - 1], id)
        + if Answers(last, id) then [ToolResult(id, Said(last.content), Fails(last))] else []
  }

  lemma ItemStaysLoose(known: Executions, out: Output, item: Item, id: CallId)
    requires known.Valid() && id !in known.byId && !NamesCall(item, id)
    ensures CallBlocks(EmitItem(known, out, item).blocks, id) ==
      CallBlocks(out.blocks, id) + if Answers(item, id) then [ToolResult(id, Said(item.content), Fails(item))] else []
  {
    match item
    case CallItem(other, name, input, meta) =>
      if other in known.byId {
        PushBlock(out.blocks, UseBlock(known.byId[other]), id);
      } else if name.Some? {
        PushBlock(out.blocks, ToolUse(other, name.value, input.GetOr(NO_INPUT), meta), id);
      }
    case ResultItem(other, content, isError) =>
      if other in known.byId {
        KnownIsNotLoose(out, known.byId[other], id);
      } else {
        PushBlock(out.blocks, ToolResult(other, TextOf(content).GetOr(""), isError || ContentFails(content)), id);
      }
    case _ => ProseIsNotLoose(out, item, id);
  }

  lemma KnownIsNotLoose(out: Output, e: Execution, id: CallId)
    requires e.id != id
    ensures CallBlocks(EmitResult(EmitUse(out, e), e).blocks, id) == CallBlocks(out.blocks, id)
  {
    PushBlock(out.blocks, UseBlock(e), id);
    if e.resultContent.Some? {
      PushBlock(EmitUse(out, e).blocks, ResultBlock(e), id);
    }
  }

  lemma ProseIsNotLoose(out: Output, item: Item, id: CallId)
    ensures CallBlocks(out.blocks + Prose(item), id) == CallBlocks(out.blocks, id)
  {
    if Prose(item) == [] {
      assert out.blocks + [] == out.blocks;
    } else {
      PushBlock(out.blocks, Prose(item)[0], id);
    }
  }

  lemma {:induction false} ItemsStayLoose(known: Executions, items: seq<Item>, id: CallId)
    requires known.Valid() && id !in known.byId && forall k :: 0 <= k < |items| ==> !NamesCall(items[k], id)
    ensures CallBlocks(EmitItems(known, items).blocks, id) == Loose(items, id)
  {
    if items != [] {
      ItemsStayLoose(known, items[..|items| - 1], id);
      ItemStaysLoose(known, EmitItems(known, items[..|items| - 1]), items[|items| - 1], id);
    }
  }

  lemma {:induction false} RestIsNotLoose(known: Executions, out: Output, ids: seq<CallId>, id: CallId)
    requires known.Valid() && id !in known.byId && forall other :: other in ids ==> other in known.byId
    ensures CallBlocks(EmitRest(known, out, ids).blocks, id) == CallBlocks(out.blocks, id)
  {
    if ids != [] {
      RestIsNotLoose(known, out, ids[..|ids| - 1], id);
      KnownIsNotLoose(EmitRest(known, out, ids[..|ids| - 1]), known.byId[ids[|ids| - 1]], id);
    }
  }

  /** Of an id that nothing names come out its result blocks, each as it is, and no use. */
  lemma LooseResultsStay(items: seq<Item>, raws: seq<RawResult>, id: CallId)
    requires Meant(items, raws, id).None?
    ensures CallBlocks(Normalized(items, raws), id) == Loose(items, id)
  {
    var known := KnownExecutions(items, raws);
    KnownIsMeant(items, raws, id);
    KnownIff(items, raws, id);
    ItemsStayLoose(known, items, id);
    RestIsNotLoose(known, EmitItems(known, items), known.order, id);
  }

  lemma EmitKeepsProse(out: Output, e: Execution)
    ensures ProseBlocks(EmitUse(out, e).blocks) == ProseBlocks(out.blocks) == ProseBlocks(EmitResult(out, e).blocks)
  {
    PushBlock(out.blocks, UseBlock(e), "");
    if e.resultContent.Some? {
      PushBlock(out.blocks, ResultBlock(e), "");
    }
  }

  lemma CallAddsNoProse(known: Executions, out: Output, id: CallId, name: Option<string>, input: Option<Json>,
      meta: Meta)
    ensures ProseBlocks(EmitCall(known, out, id, name, input, meta).blocks) == ProseBlocks(out.blocks)
  {
    if id in known.byId {
      EmitKeepsProse(out, known.byId[id]);
    } else if name.Some? {
      PushBlock(out.blocks, ToolUse(id, name.value, input.GetOr(NO_INPUT), meta), "");
    }
  }

  lemma AnswerAddsNoProse(known: Executions, out: Output, id: CallId, content: RawContent, isError: bool)
    ensures ProseBlocks(EmitAnswer(known, out, id, content, isError).blocks) == ProseBlocks(out.blocks)
  {
    if id in known.byId {
      EmitKeepsProse(out, known.byId[id]);
      EmitKeepsProse(EmitUse(out, known.byId[id]), known.byId[id]);
    } else {
      PushBlock(out.blocks, ToolResult(id, TextOf(content).GetOr(""), isError || ContentFails(content)), "");
    }
  }

  lemma ItemAddsProse(known: Executions, out: Output, item: Item)
    ensures ProseBlocks(EmitItem(known, out, item).blocks) == ProseBlocks(out.blocks) + Prose(item)
  {
    match item
    case CallItem(id, name, input, meta) => CallAddsNoProse(known, out, id, name, input, meta);
    case ResultItem(id, content, isError) => AnswerAddsNoProse(known, out, id, content, isError);
    case _ => OwnBlockAddsItself(out, item);
  }

  lemma OwnBlockAddsItself(out: Output, item: Item)
    ensures ProseBlocks(out.blocks + Prose(item)) == ProseBlocks(out.blocks) + Prose(item)
  {
    if Prose(item) == [] {
      assert out.blocks + [] == out.blocks;
    } else {
      PushBlock(out.blocks, Prose(item)[0], "");
    }
  }

  lemma {:induction false} ItemsKeepProse(known: Executions, items: seq<Item>)
    ensures ProseBlocks(EmitItems(known, items).blocks) == ProseItems(items)
  {
    if items != [] {
      ItemsKeepProse(known, items[..|items| - 1]);
      ItemAddsProse(known, EmitItems(known, items[..|items| - 1]), items[|items| - 1]);
    }
  }

  lemma {:induction false} RestKeepsProse(known: Executions, out: Output, ids: seq<CallId>)
    requires forall id :: id in ids ==> id in known.byId
    ensures ProseBlocks(EmitRest(known, out, ids).blocks) == ProseBlocks(out.blocks)
  {
    if ids != [] {
      var front, e := ids[..|ids| - 1], known.byId[ids[|ids| - 1]];
      RestKeepsProse(known, out, front);
      EmitKeepsProse(EmitRest(known, out, front), e);
      EmitKeepsProse(EmitUse(EmitRest(known, out, front), e), e);
    }
  }

  /** The item shows something of its own: text, thinking, or an image that could be normalized. */
  predicate Tells(item: Item) {
    item.TextItem? || item.ThinkingItem? || (item.ImageItem? && item.normalized.Some?)
  }

  /** The first `n` items without those that only concern calls or nothing. */
  function Told(items: seq<Item>, n: nat): seq<Item>
    requires n <= |items|
  {
    if n == 0 then [] else Told(items, n - 1) + if Tells(items[n - 1]) then [items[n - 1]] else []
  }

  /** The block says exactly what the item says. */
  predicate Renders(block: Block, item: Item) {
    match item
    case TextItem(text, meta) => block == Text(text, meta)
    case ThinkingItem(thinking, signature, meta) => block == Thinking(thinking, signature, meta)
    case ImageItem(Some(image)) => block == Image(image)
    case _ => false
  }

  ghost predicate AllRender(blocks: seq<Block>, told: seq<Item>) {
    |blocks| == |told| && forall k :: 0 <= k < |told| ==> Renders(blocks[k], told[k])
  }

  lemma {:induction false} ProseRenders(items: seq<Item>, n: nat)
    requires n <= |items|
    ensures AllRender(ProseItems(items[..n]), Told(items, n))
  {
    if n > 0 {
      ProseRenders(items, n - 1);
      assert items[..n][..n - 1] == items[..n - 1];
      ItemRenders(items[n - 1]);
      RenderPush(ProseItems(items[..n - 1]), Told(items, n - 1), items[n - 1]);
    }
  }

  lemma ItemRenders(item: Item)
    ensures if Tells(item) then |Prose(item)| == 1 && Renders(Prose(item)[0], item) else Prose(item) == []
  {
  }

  lemma RenderPush(blocks: seq<Block>, told: seq<Item>, item: Item)
    requires AllRender(blocks, told)
    requires if Tells(item) then |Prose(item)| == 1 && Renders(Prose(item)[0], item) else Prose(item) == []
    ensures AllRender(blocks + Prose(item), told + if Tells(item) then [item] else [])
  {
  }

  lemma ProseIsItems(items: seq<Item>, raws: seq<RawResult>)
    ensures ProseBlocks(Normalized(items, raws)) == ProseItems(items)
  {
    var known := KnownExecutions(items, raws);
    KnownIff(items, raws, "");
    ItemsKeepProse(known, items);
    RestKeepsProse(known, EmitItems(known, items), known.order);
  }

  /** Text, thinking and images come out once each, unchanged and in their order, and nothing else does. */
  lemma ProseIsConserved(items: seq<Item>, raws: seq<RawResult>)
    ensures AllRender(ProseBlocks(Normalized(items, raws)), Told(items, |items|))
  {
    ProseIsItems(items, raws);
    ProseRenders(items, |items|);
    assert items[..|items|] == items;
  }

  // ---------------------------------------------------------------- where the calls stand among the prose

  /** A tool_use or a tool_result. */
  datatype Side = Use | Answer

  predicate OnSide(block: Block, id: CallId, side: Side) {
    OfCall(block, id) && (side.Use? <==> block.ToolUse?)
  }

  /** How much prose comes before the first such block, None if there is none. */
  function ProseAhead(blocks: seq<Block>, id: CallId, side: Side): Option<nat> {
    if blocks == [] then None
    else
      var front, last := blocks[..|blocks| - 1], blocks[|blocks| - 1];
      var earlier := ProseAhead(front, id, side);
      if earlier.Some? then earlier else if OnSide(last, id, side) then Some(|ProseBlocks(front)|) else None
  }

  lemma AheadPush(blocks: seq<Block>, block: Block, id: CallId, side: Side)
    ensures ProseAhead(blocks + [block], id, side) ==
      if ProseAhead(blocks, id, side).Some? then ProseAhead(blocks, id, side)
      else if OnSide(block, id, side) then Some(|ProseBlocks(blocks)|) else None
  {
    assert (blocks + [block])[..|blocks|] == blocks;
  }

  /** The item writes the call's blocks of that side: any mention the use, a result block the result. */
  predicate Mentions(item: Item, id: CallId, side: Side) {
    Answers(item, id) || (side.Use? && item.CallItem? && item.id == id)
  }

  /** How much prose the items tell before they first mention the call. */
  function ToldBefore(items: seq<Item>, n: nat, id: CallId, side: Side): Option<nat>
    requires n <= |items|
  {
    if n == 0 then None
    else
      var earlier := ToldBefore(items, n - 1, id, side);
      if earlier.Some? then earlier
      else if Mentions(items[n - 1], id, side) then Some(|Told(items, n - 1)|) else None
  }

  /** The blocks of the call stand where the items mention it, as far as the items have been read. */
  ghost predicate Placed(out: Output, e: Execution, use: Option<nat>, answer: Option<nat>) {
    && ProseAhead(out.blocks, e.id, Use) == use && (e.id in out.uses <==> use.Some?)
    && ProseAhead(out.blocks, e.id, Answer) == (if e.resultContent.Some? then answer else None)
    && (e.id in out.results <==> e.resultContent.Some? && answer.Some?)
  }

  function OrElse(place: Option<nat>, here: nat): Option<nat> {
    if place.Some? then place else Some(here)
  }

  lemma UsePlaced(out: Output, e: Execution, use: Option<nat>, answer: Option<nat>)
    requires Placed(out, e, use, answer)
    ensures Placed(EmitUse(out, e), e, OrElse(use, |ProseBlocks(out.blocks)|), answer)
  {
    AheadPush(out.blocks, UseBlock(e), e.id, Use);
    AheadPush(out.blocks, UseBlock(e), e.id, Answer);
  }

  lemma AnswerPlaced(out: Output, e: Execution, use: Option<nat>, answer: Option<nat>)
    requires Placed(out, e, use, answer)
    ensures Placed(EmitResult(out, e), e, use, OrElse(answer, |ProseBlocks(out.blocks)|))
  {
    if e.resultContent.Some? {
      AheadPush(out.blocks, ResultBlock(e), e.id, Use);
      AheadPush(out.blocks, ResultBlock(e), e.id, Answer);
    }
  }

  /** A block of something else moves no block of the call. */
  lemma ElsePlaced(out: Output, next: Output, block: Block, e: Execution, use: Option<nat>, answer: Option<nat>)
    requires Placed(out, e, use, answer) && next.blocks == out.blocks + [block] && !OfCall(block, e.id)
    requires (e.id in next.uses <==> e.id in out.uses) && (e.id in next.results <==> e.id in out.results)
    ensures Placed(next, e, use, answer)
  {
    AheadPush(out.blocks, block, e.id, Use);
    AheadPush(out.blocks, block, e.id, Answer);
  }

  lemma OtherPlaced(out: Output, other: Execution, e: Execution, use: Option<nat>, answer: Option<nat>)
    requires Placed(out, e, use, answer) && other.id != e.id
    ensures Placed(EmitUse(out, other), e, use, answer) && Placed(EmitResult(out, other), e, use, answer)
  {
    if other.id !in out.uses {
      ElsePlaced(out, EmitUse(out, other), UseBlock(other), e, use, answer);
    }
    if other.id !in out.results && other.resultContent.Some? {
      ElsePlaced(out, EmitResult(out, other), ResultBlock(other), e, use, answer);
    }
  }

  lemma CallItemPlaced(known: Executions, out: Output, item: Item, e: Execution, use: Option<nat>, answer: Option<nat>)
    requires item.CallItem? && known.Get(e.id) == Some(e) && Placed(out, e, use, answer)
    requires item.id in known.byId ==> known.byId[item.id].id == item.id
    ensures Placed(EmitCall(known, out, item.id, item.name, item.input, item.meta), e,
                   if item.id == e.id then OrElse(use, |ProseBlocks(out.blocks)|) else use, answer)
  {
    if item.id == e.id {
      UsePlaced(out, e, use, answer);
    } else if item.id in known.byId {
      OtherPlaced(out, known.byId[item.id], e, use, answer);
    } else if item.name.Some? {
      var block := ToolUse(item.id, item.name.value, item.input.GetOr(NO_INPUT), item.meta);
      ElsePlaced(out, Output(out.blocks + [block], out.uses + {item.id}, out.results), block, e, use, answer);
    }
  }

  lemma ResultItemPlaced(known: Executions, out: Output, item: Item, e: Execution, use: Option<nat>,
      answer: Option<nat>)
    requires item.ResultItem? && known.Get(e.id) == Some(e) && Placed(out, e, use, answer)
    requires item.id in known.byId ==> known.byId[item.id].id == item.id
    ensures var here := |ProseBlocks(out.blocks)|;
      Placed(EmitAnswer(known, out, item.id, item.content, item.isError), e,
             if item.id == e.id then OrElse(use, here) else use,
             if item.id == e.id then OrElse(answer, here) else answer)
  {
    if item.id == e.id {
      UsePlaced(out, e, use, answer);
      EmitKeepsProse(out, e);
      AnswerPlaced(EmitUse(out, e), e, OrElse(use, |ProseBlocks(out.blocks)|), answer);
    } else if item.id in known.byId {
      OtherPlaced(out, known.byId[item.id], e, use, answer);
      OtherPlaced(EmitUse(out, known.byId[item.id]), known.byId[item.id], e, use, answer);
    } else {
      var block := ToolResult(item.id, TextOf(item.content).GetOr(""), item.isError || ContentFails(item.content));
      ElsePlaced(out, Output(out.blocks + [block], out.uses, out.results + {item.id}), block, e, use, answer);
    }
  }

  lemma ProseItemPlaced(out: Output, item: Item, e: Execution, use: Option<nat>, answer: Option<nat>)
    requires Placed(out, e, use, answer)
    ensures Placed(out.(blocks := out.blocks + Prose(item)), e, use, answer)
  {
    if Prose(item) == [] {
      assert out.blocks + [] == out.blocks;
    } else {
      ElsePlaced(out, out.(blocks := out.blocks + Prose(item)), Prose(item)[0], e, use, answer);
    }
  }

  lemma {:induction false} ItemsPlaced(known: Executions, items: seq<Item>, n: nat, e: Execution)
    requires n <= |items| && known.Get(e.id) == Some(e)
    requires forall id :: id in known.byId ==> known.byId[id].id == id
    ensures Placed(EmitItems(known, items[..n]), e, ToldBefore(items, n, e.id, Use), ToldBefore(items, n, e.id, Answer))
  {
    if n > 0 {
      var out, item := EmitItems(known, items[..n - 1]), items[n - 1];
      ItemsPlaced(known, items, n - 1, e);
      assert items[..n][..n - 1] == items[..n - 1];
      ItemsKeepProse(known, items[..n - 1]);
      ProseRenders(items, n - 1);
      var use, answer := ToldBefore(items, n - 1, e.id, Use), ToldBefore(items, n - 1, e.id, Answer);
      match item
      case CallItem(_, _, _, _) => CallItemPlaced(known, out, item, e, use, answer);
      case ResultItem(_, _, _) => ResultItemPlaced(known, out, item, e, use, answer);
      case _ => ProseItemPlaced(out, item, e, use, answer);
    }
  }

  lemma {:induction false} RestPlaced(known: Executions, out: Output, ids: seq<CallId>, e: Execution,
      use: Option<nat>, answer: Option<nat>)
    requires known.Valid() && known.Get(e.id) == Some(e) && Placed(out, e, use, answer)
    requires forall id :: id in ids ==> id in known.byId
    ensures var all := |ProseBlocks(out.blocks)|;
      Placed(EmitRest(known, out, ids), e,
             if e.id in ids then OrElse(use, all) else use, if e.id in ids then OrElse(answer, all) else answer)
  {
    if ids != [] {
      var front, last := ids[..|ids| - 1], ids[|ids| - 1];
      var sofar, other := EmitRest(known, out, front), known.byId[last];
      assert ids == front + [last];
      RestPlaced(known, out, front, e, use, answer);
      RestKeepsProse(known, out, front);
      EmitKeepsProse(sofar, other);
      var all := |ProseBlocks(out.blocks)|;
      var u := if e.id in front then OrElse(use, all) else use;
      var a := if e.id in front then OrElse(answer, all) else answer;
      if last == e.id {
        UsePlaced(sofar, e, u, a);
        AnswerPlaced(EmitUse(sofar, e), e, OrElse(u, all), a);
      } else {
        OtherPlaced(sofar, other, e, u, a);
        OtherPlaced(EmitUse(sofar, other), other, e, u, a);
      }
    }
  }

  /**
   A named call's tool_use comes right after what is told before the first item that mentions the
   call, and its tool_result after what is told before its first result block; what no item
   mentions comes after all prose.
   */
  lemma CallsStandWhereMentioned(items: seq<Item>, raws: seq<RawResult>, id: CallId)
    requires Meant(items, raws, id).Some?
    ensures var all := |Told(items, |items|)|;
      && ProseAhead(Normalized(items, raws), id, Use) == OrElse(ToldBefore(items, |items|, id, Use), all)
      && (Answered(items, raws, id) ==>
            ProseAhead(Normalized(items, raws), id, Answer) == OrElse(ToldBefore(items, |items|, id, Answer), all))
  {
    var known := KnownExecutions(items, raws);
    KnownIsMeant(items, raws, id);
    KnownIff(items, raws, id);
    AllPlaced(known, items, known.byId[id]);
  }

  lemma AllPlaced(known: Executions, items: seq<Item>, e: Execution)
    requires known.Valid() && known.Get(e.id) == Some(e)
    ensures var all := |Told(items, |items|)|;
      Placed(EmitRest(known, EmitItems(known, items), known.order), e,
             OrElse(ToldBefore(items, |items|, e.id, Use), all), OrElse(ToldBefore(items, |items|, e.id, Answer), all))
  {
    ItemsPlaced(known, items, |items|, e);
    assert items[..|items|] == items;
    ItemsKeepProse(known, items);
    ProseRenders(items, |items|);
    RestPlaced(known, EmitItems(known, items), known.order, e,
               ToldBefore(items, |items|, e.id, Use), ToldBefore(items, |items|, e.id, Answer));
  }

  // ---------------------------------------------------------------- reading the calls back

  datatype StoredResult = StoredResult(content: Json, isError: bool)

  datatype StoredCall = StoredCall(id: CallId, name: string, input: Json, meta: Meta, result: Option<StoredResult>)

  function Uses(blocks: seq<Block>): map<CallId, StoredCall> {
    if blocks == [] then map[]
    else
      var last := blocks[|blocks| - 1];
      var calls := Uses(blocks[..|blocks| - 1]);
      if last.ToolUse? then calls[last.id := StoredCall(last.id, last.name, last.input, last.meta, None)] else calls
  }

  function WithResults(calls: map<CallId, StoredCall>, blocks: seq<Block>): map<CallId, StoredCall> {
    if blocks == [] then calls
    else
      WithResult(WithResults(calls, blocks[..|blocks| - 1]), blocks[|blocks| - 1])
  }

  function WithResult(calls: map<CallId, StoredCall>, block: Block): map<CallId, StoredCall> {
    if block.ToolResult? && block.id in calls
    then calls[block.id := calls[block.id].(result := Some(StoredResult(block.content, block.isError)))]
    else calls
  }

  function StoredCalls(blocks: seq<Block>): map<CallId, StoredCall> {
    WithResults(Uses(blocks), blocks)
  }

  method ExtractToolCalls(content: seq<Block>) returns (byId: map<CallId, StoredCall>)
    ensures byId == StoredCalls(content)
  {
    byId := map[];
    for k := 0 to |content|
      invariant byId == Uses(content[..k])
    {
      assert content[..k + 1][..k] == content[..k];
      var block := content[k];
      if block.ToolUse? {
        byId := byId[block.id := StoredCall(block.id, block.name, block.input, block.meta, None)];
      }
    }
    assert content[..|content|] == content;
    for k := 0 to |content|
      invariant byId == WithResults(Uses(content), content[..k])
    {
      assert content[..k + 1][..k] == content[..k];
      var block := content[k];
      if block.ToolResult? && block.id in byId {
        byId := byId[block.id := byId[block.id].(result := Some(StoredResult(block.content, block.isError)))];
      }
    }
  }

  function Call(calls: map<CallId, StoredCall>, id: CallId): Option<StoredCall> {
    if id in calls then Some(calls[id]) else None
  }

  /** What is read back for a call depends on its own blocks only. */
  lemma {:induction false} UsesByCall(blocks: seq<Block>, id: CallId)
    ensures Call(Uses(blocks), id) == Call(Uses(CallBlocks(blocks, id)), id)
  {
    if blocks != [] {
      var front, last := blocks[..|blocks| - 1], blocks[|blocks| - 1];
      UsesByCall(front, id);
      var own := CallBlocks(front, id);
      assert (own + [last])[..|own|] == own;
      assert own + [] == own;
    }
  }

  lemma {:induction false} ResultsByCall(calls: map<CallId, StoredCall>, others: map<CallId, StoredCall>,
      blocks: seq<Block>, id: CallId)
    requires Call(calls, id) == Call(others, id)
    ensures Call(WithResults(calls, blocks), id) == Call(WithResults(others, CallBlocks(blocks, id)), id)
  {
    if blocks != [] {
      var front, last := blocks[..|blocks| - 1], blocks[|blocks| - 1];
      ResultsByCall(calls, others, front, id);
      ResultOfCall(WithResults(calls, front), WithResults(others, CallBlocks(front, id)), last, id);
      if OfCall(last, id) {
        WithResultsPush(others, CallBlocks(front, id), last);
      } else {
        assert CallBlocks(front, id) + [] == CallBlocks(front, id);
      }
    }
  }

  lemma ResultOfCall(calls: map<CallId, StoredCall>, others: map<CallId, StoredCall>, block: Block, id: CallId)
    requires Call(calls, id) == Call(others, id)
    ensures Call(WithResult(calls, block), id) ==
      Call(if OfCall(block, id) then WithResult(others, block) else others, id)
  {
  }

  lemma WithResultsPush(calls: map<CallId, StoredCall>, blocks: seq<Block>, last: Block)
    ensures WithResults(calls, blocks + [last]) == WithResult(WithResults(calls, blocks), last)
  {
    assert (blocks + [last])[..|blocks|] == blocks;
  }

  lemma StoredByCall(blocks: seq<Block>, id: CallId)
    ensures Call(StoredCalls(blocks), id) == Call(StoredCalls(CallBlocks(blocks, id)), id)
  {
    UsesByCall(blocks, id);
    ResultsByCall(Uses(blocks), Uses(CallBlocks(blocks, id)), blocks, id);
  }

  function Stored(e: Execution): StoredCall {
    var result := if e.resultContent.Some? then Some(StoredResult(e.resultContent.value, e.isError)) else None;
    StoredCall(e.id, e.name, e.input, e.useMeta, result)
  }

  /** No block is ever written as the use of an unknown call. */
  lemma {:induction false} UnknownHasNoUse(known: Executions, items: seq<Item>, id: CallId)
    requires id !in known.byId && known.Valid()
    requires forall k :: 0 <= k < |items| ==> !NamesCall(items[k], id)
    ensures id !in Uses(EmitItems(known, items).blocks)
  {
    if items != [] {
      UnknownHasNoUse(known, items[..|items| - 1], id);
      ItemAddsNoUse(known, EmitItems(known, items[..|items| - 1]), items[|items| - 1], id);
    }
  }

  lemma PushUse(blocks: seq<Block>, block: Block, id: CallId)
    ensures id in Uses(blocks + [block]) <==> id in Uses(blocks) || (block.ToolUse? && block.id == id)
  {
    assert (blocks + [block])[..|blocks|] == blocks;
  }

  lemma EmitAddsNoUse(out: Output, e: Execution, id: CallId)
    requires id !in Uses(out.blocks) && e.id != id
    ensures id !in Uses(EmitUse(out, e).blocks) && id !in Uses(EmitResult(out, e).blocks)
  {
    PushUse(out.blocks, UseBlock(e), id);
    if e.resultContent.Some? {
      PushUse(out.blocks, ResultBlock(e), id);
    }
  }

  lemma ItemAddsNoUse(known: Executions, out: Output, item: Item, id: CallId)
    requires id !in known.byId && id !in Uses(out.blocks) && !NamesCall(item, id)
    requires forall other :: other in known.byId ==> known.byId[other].id == other
    ensures id !in Uses(EmitItem(known, out, item).blocks)
  {
    var next := EmitItem(known, out, item);
    if (item.CallItem? || item.ResultItem?) && item.id in known.byId {
      var e := known.byId[item.id];
      EmitAddsNoUse(out, e, id);
      EmitAddsNoUse(EmitUse(out, e), e, id);
    } else if |next.blocks| > |out.blocks| {
      assert next.blocks == out.blocks + [next.blocks[|out.blocks|]];
      PushUse(out.blocks, next.blocks[|out.blocks|], id);
    } else {
      assert next.blocks == out.blocks;
    }
  }

  lemma {:induction false} RestAddsNoUse(known: Executions, out: Output, ids: seq<CallId>, id: CallId)
    requires known.Valid() && id !in known.byId && id !in Uses(out.blocks)
    requires forall other :: other in ids ==> other in known.byId
    ensures id !in Uses(EmitRest(known, out, ids).blocks)
  {
    if ids != [] {
      var front, e := ids[..|ids| - 1], known.byId[ids[|ids| - 1]];
      RestAddsNoUse(known, out, front, id);
      EmitAddsNoUse(EmitRest(known, out, front), e, id);
      EmitAddsNoUse(EmitUse(EmitRest(known, out, front), e), e, id);
    }
  }

  lemma {:induction false} ResultsKeepKeys(calls: map<CallId, StoredCall>, blocks: seq<Block>)
    ensures WithResults(calls, blocks).Keys == calls.Keys
  {
    if blocks != [] {
      ResultsKeepKeys(calls, blocks[..|blocks| - 1]);
    }
  }

  /**
   Reading the stored blocks recovers every named call as the message and its raw results describe
   it, and no other: id, name, input, result and error flag.
   */
  lemma ExtractionRecoversCalls(items: seq<Item>, raws: seq<RawResult>, id: CallId)
    ensures var meant := Meant(items, raws, id);
      Call(StoredCalls(Normalized(items, raws)), id) == if meant.Some? then Some(Stored(meant.value)) else None
  {
    KnownIsMeant(items, raws, id);
    if Meant(items, raws, id).Some? {
      MeantIsRead(items, raws, id);
    } else {
      var known := KnownExecutions(items, raws);
      var blocks := Normalized(items, raws);
      KnownIff(items, raws, id);
      UnknownHasNoUse(known, items, id);
      RestAddsNoUse(known, EmitItems(known, items), known.order, id);
      ResultsKeepKeys(Uses(blocks), blocks);
    }
  }

  lemma MeantIsRead(items: seq<Item>, raws: seq<RawResult>, id: CallId)
    requires Meant(items, raws, id).Some?
    ensures Call(StoredCalls(Normalized(items, raws)), id) == Some(Stored(Meant(items, raws, id).value))
  {
    var e := Meant(items, raws, id).value;
    CallsAreConserved(items, raws, id);
    StoredByCall(Normalized(items, raws), id);
    if e.resultContent.Some? {
      ReadsPair(UseBlock(e), ResultBlock(e));
    } else {
      ReadsUse(UseBlock(e));
      assert [UseBlock(e)] + [] == [UseBlock(e)];
    }
  }

  lemma ReadsUse(use: Block)
    requires use.ToolUse?
    ensures StoredCalls([use]) == map[use.id := StoredCall(use.id, use.name, use.input, use.meta, None)]
  {
    assert [use][..0] == [];
    assert Uses([use]) == map[use.id := StoredCall(use.id, use.name, use.input, use.meta, None)];
    assert WithResults(Uses([use]), [use]) == Uses([use]);
  }

  lemma ReadsPair(use: Block, result: Block)
    requires use.ToolUse? && result.ToolResult? && use.id == result.id
    ensures var read := Some(StoredResult(result.content, result.isError));
      StoredCalls([use] + [result]) == map[use.id := StoredCall(use.id, use.name, use.input, use.meta, read)]
  {
    var both := [use] + [result];
    assert both[..1] == [use] && [use][..0] == [];
    assert Uses(both) == Uses([use]) == map[use.id := StoredCall(use.id, use.name, use.input, use.meta, None)];
    assert WithResults(Uses(both), [use]) == Uses(both);
  }

  /** For example, a result block right before its own call, with no raw result. */
  lemma EarlyResultIsDropped(id: CallId, name: string, content: Json)
    ensures var items := [ResultItem(id, PlainText(content), false), CallItem(id, Some(name), None, None)];
      CallBlocks(Normalized(items, []), id) == [ToolUse(id, name, NO_INPUT, None)]
  {
    var items := [ResultItem(id, PlainText(content), false), CallItem(id, Some(name), None, None)];
    assert Marked(items, 1, id, Naming) && !KnownBefore(items, 0, id, false);
    assert Meant(items, [], id) == Some(Execution(id, name, NO_INPUT, None, false, None));
    CallsAreConserved(items, [], id);
  }
}
