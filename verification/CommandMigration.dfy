/**
 Moving a channel's queued outbound commands to another gateway node
 (apps/api/src/channels.ts, migrateOutboundCommandsForChannel): a paged scan of one Redis
 stream that appends to a second stream and deletes from the first.
 */
module CommandMigration {
  import opened Common

  /** A decoded command; `body` stands for every member that migration copies unread. */
  datatype Command = Command(channelId: Option<string>, targetNodeId: Option<string>, body: string)

  /** JSON.parse of a payload: it may throw, give null, or give a value. */
  datatype Parsed = Unparsable | NullValue | Value(command: Command)

  /** One string of an entry, with what JSON.parse makes of it. */
  datatype Field = Field(text: string, parsed: Parsed)

  /** A stream entry; ids grow along the stream. */
  datatype Entry = Entry(id: nat, fields: seq<Field>)

  ghost predicate IsStream(entries: seq<Entry>) {
    forall i, j :: 0 <= i < j < |entries| ==> entries[i].id < entries[j].id
  }

  /** fields.indexOf(name) */
  function IndexOf(fields: seq<Field>, name: string): (index: int)
    ensures -1 <= index < |fields|
    ensures index >= 0 ==> fields[index].text == name
  {
    if fields == [] then -1
    else
      var index := IndexOf(fields[..|fields| - 1], name);
      if index >= 0 then index else if fields[|fields| - 1].text == name then |fields| - 1 else -1
  }

  /** fields[fields.indexOf("payload") + 1]: without a payload field that is the first field. */
  function Payload(fields: seq<Field>): Option<Field> {
    var at := IndexOf(fields, "payload") + 1;
    if at < |fields| then Some(fields[at]) else None
  }

  datatype Verdict = Leave | Move(command: Command) | Throw

  /** What the scan does with an entry: reading a member of a null payload throws. */
  function Judge(channel: string, entry: Entry): Verdict {
    var payload := Payload(entry.fields);
    if payload.None? || payload.value.text == "" then Leave
    else
      match payload.value.parsed
      case Unparsable => Leave
      case NullValue => Throw
      case Value(command) => if command.channelId == Some(channel) then Move(command) else Leave
  }

  function Retarget(command: Command, node: string): Command {
    command.(targetNodeId := Some(node))
  }

  function Kept(channel: string, entry: Entry): seq<Entry> {
    if Judge(channel, entry).Move? then [] else [entry]
  }

  /** The entries that stay, in order. */
  function Staying(channel: string, entries: seq<Entry>): seq<Entry> {
    if entries == [] then []
    else
      var k := |entries| - 1;
      Staying(channel, entries[..k]) + Kept(channel, entries[k])
  }

  function Sent(verdict: Verdict, node: string): seq<Command> {
    if verdict.Move? then [Retarget(verdict.command, node)] else []
  }

  /** The channel's commands, in order, for the new node. */
  function Going(channel: string, node: string, entries: seq<Entry>): seq<Command> {
    if entries == [] then []
    else
      var k := |entries| - 1;
      Going(channel, node, entries[..k]) + Sent(Judge(channel, entries[k]), node)
  }

  /** XRANGE stream (after + COUNT count */
  function Page(stream: seq<Entry>, after: Option<nat>, count: nat): seq<Entry> {
    if stream == [] || count == 0 then []
    else if after.Some? && stream[0].id <= after.value then Page(stream[1..], after, count)
    else [stream[0]] + Page(stream[1..], after, count - 1)
  }

  /** XDEL stream id */
  function Delete(stream: seq<Entry>, id: nat): seq<Entry> {
    if stream == [] then [] else (if stream[0].id == id then [] else [stream[0]]) + Delete(stream[1..], id)
  }

  lemma {:induction false} PageTakes(stream: seq<Entry>, after: Option<nat>, count: nat)
    requires forall e :: e in stream ==> after.Some? ==> e.id > after.value
    ensures Page(stream, after, count) == stream[..if count < |stream| then count else |stream|]
    decreases |stream|
  {
    if stream != [] && count > 0 {
      PageTakes(stream[1..], after, count - 1);
      var n := if count < |stream| then count else |stream|;
      assert stream[..n] == [stream[0]] + stream[1..][..n - 1];
    }
  }

  lemma {:induction false} PageSkips(a: seq<Entry>, b: seq<Entry>, after: nat, count: nat)
    requires forall e :: e in a ==> e.id <= after
    ensures Page(a + b, Some(after), count) == Page(b, Some(after), count)
  {
    if a == [] {
      assert a + b == b;
    } else {
      assert (a + b)[1..] == a[1..] + b && (a + b)[0] == a[0];
      PageSkips(a[1..], b, after, count);
    }
  }

  lemma {:induction false} DeleteAbsent(stream: seq<Entry>, id: nat)
    requires forall e :: e in stream ==> e.id != id
    ensures Delete(stream, id) == stream
  {
    if stream != [] {
      DeleteAbsent(stream[1..], id);
    }
  }

  lemma {:induction false} DeleteMiddle(a: seq<Entry>, e: Entry, b: seq<Entry>)
    requires forall x :: x in a || x in b ==> x.id != e.id
    ensures Delete(a + [e] + b, e.id) == a + b
  {
    if a == [] {
      assert a + [e] + b == [e] + b && ([e] + b)[1..] == b && a + b == b;
      DeleteAbsent(b, e.id);
    } else {
      assert (a + [e] + b)[1..] == a[1..] + [e] + b;
      DeleteMiddle(a[1..], e, b);
    }
  }

  lemma {:induction false} StayingIsPart(channel: string, entries: seq<Entry>)
    ensures forall e :: e in Staying(channel, entries) <==> e in entries && !Judge(channel, e).Move?
    ensures |Staying(channel, entries)| <= |entries|
  {
    if entries != [] {
      var k := |entries| - 1;
      StayingIsPart(channel, entries[..k]);
      assert entries == entries[..k] + [entries[k]];
    }
  }

  /** The scan stops at the first entry it throws on. */
  ghost predicate StopsAt(channel: string, entries: seq<Entry>, end: nat) {
    && end <= |entries|
    && (forall k :: 0 <= k < end ==> !Judge(channel, entries[k]).Throw?)
    && (end < |entries| ==> Judge(channel, entries[end]).Throw?)
  }

  /** `source` after the first `n` entries of `all` have been dealt with. */
  function SourceAfter(channel: string, all: seq<Entry>, n: nat): seq<Entry>
    requires n <= |all|
  {
    Staying(channel, all[..n]) + all[n..]
  }

  lemma StayingPush(channel: string, entries: seq<Entry>, entry: Entry)
    ensures Staying(channel, entries + [entry]) == Staying(channel, entries) + Kept(channel, entry)
  {
    assert (entries + [entry])[..|entries|] == entries;
  }

  lemma GoingPush(channel: string, node: string, entries: seq<Entry>, entry: Entry)
    ensures Going(channel, node, entries + [entry]) == Going(channel, node, entries) + Sent(Judge(channel, entry), node)
  {
    assert (entries + [entry])[..|entries|] == entries;
  }

  /** Dealing with one more entry leaves it in place or cuts it out of the stream. */
  lemma ScanOne(channel: string, all: seq<Entry>, n: nat)
    requires IsStream(all) && n < |all|
    ensures var entry := all[n];
            var source := SourceAfter(channel, all, n);
            SourceAfter(channel, all, n + 1) ==
            if Judge(channel, entry).Move? then Delete(source, entry.id) else source
  {
    var entry := all[n];
    var stay, rest := Staying(channel, all[..n]), all[n + 1..];
    SourceAround(channel, all, n);
    if Judge(channel, entry).Move? {
      StayingIsPart(channel, all[..n]);
      DeleteMiddle(stay, entry, rest);
      assert stay + [] == stay;
    }
  }

  lemma SourceAround(channel: string, all: seq<Entry>, n: nat)
    requires n < |all|
    ensures SourceAfter(channel, all, n) == Staying(channel, all[..n]) + [all[n]] + all[n + 1..]
    ensures SourceAfter(channel, all, n + 1) == Staying(channel, all[..n]) + Kept(channel, all[n]) + all[n + 1..]
  {
    assert all[n..] == [all[n]] + all[n + 1..];
    ConcatAssociates(Staying(channel, all[..n]), [all[n]], all[n + 1..]);
    assert all[..n + 1] == all[..n] + [all[n]];
    StayingPush(channel, all[..n], all[n]);
  }

  /** Where XRANGE resumes: after the id of the last scanned entry. */
  function LastScanned(all: seq<Entry>, n: nat): Option<nat>
    requires n <= |all|
  {
    if n == 0 then None else Some(all[n - 1].id)
  }

  lemma PageEnd(all: seq<Entry>, n: nat, page: seq<Entry>)
    requires page != [] && n + |page| <= |all| && page == all[n..n + |page|]
    ensures LastScanned(all, n + |page|) == Some(page[|page| - 1].id)
  {
  }

  /** The next page starts right after the last scanned entry, and a short page is the last. */
  lemma NextPage(channel: string, all: seq<Entry>, n: nat, count: nat)
    requires IsStream(all) && n <= |all|
    ensures var page := Page(SourceAfter(channel, all, n), LastScanned(all, n), count);
      && n + |page| <= |all| && page == all[n..n + |page|] && |page| <= count
      && (|page| < count ==> n + |page| == |all|)
  {
    PageOfRest(all, n, count);
    PageSkipsStaying(channel, all, n, count);
  }

  lemma PageSkipsStaying(channel: string, all: seq<Entry>, n: nat, count: nat)
    requires IsStream(all) && n <= |all|
    ensures Page(SourceAfter(channel, all, n), LastScanned(all, n), count) == Page(all[n..], LastScanned(all, n), count)
  {
    if n == 0 {
      assert SourceAfter(channel, all, 0) == all[0..];
    } else {
      StayingIsPart(channel, all[..n]);
      PageSkips(Staying(channel, all[..n]), all[n..], all[n - 1].id, count);
    }
  }

  lemma PageOfRest(all: seq<Entry>, n: nat, count: nat)
    requires IsStream(all) && n <= |all|
    ensures Page(all[n..], LastScanned(all, n), count) == all[n..if count < |all| - n then n + count else |all|]
  {
    PageTakes(all[n..], LastScanned(all, n), count);
    var end := if count < |all| - n then n + count else |all|;
    assert all[n..][..end - n] == all[n..end];
  }

  /** The two streams and the count when `n` entries of `all` have been dealt with. */
  ghost predicate Scanned(source: seq<Entry>, target: seq<Command>, channel: string, node: string, all: seq<Entry>,
      base: seq<Command>, moved: nat, n: nat)
  {
    && n <= |all|
    && source == SourceAfter(channel, all, n)
    && target == base + Going(channel, node, all[..n])
    && moved == |Going(channel, node, all[..n])|
    && forall k :: 0 <= k < n ==> !Judge(channel, all[k]).Throw?
  }

  lemma ScanStart(all: seq<Entry>, base: seq<Command>, channel: string, node: string)
    ensures Scanned(all, base, channel, node, all, base, 0, 0)
  {
    assert all[..0] == [] && all[0..] == all;
    assert Staying(channel, []) == [] && Going(channel, node, []) == [];
    assert [] + all == all && base + [] == base;
  }

  lemma ScanNext(source: seq<Entry>, target: seq<Command>, channel: string, node: string, all: seq<Entry>,
      base: seq<Command>, moved: nat, n: nat)
    requires IsStream(all) && n < |all| && Scanned(source, target, channel, node, all, base, moved, n)
    ensures Judge(channel, all[n]).Move? ==>
      Scanned(Delete(source, all[n].id), target +
        [Retarget(Judge(channel, all[n]).command, node)], channel, node, all, base, moved + 1, n + 1)
    ensures Judge(channel, all[n]) == Leave ==> Scanned(source, target, channel, node, all, base, moved, n + 1)
  {
    ScanOne(channel, all, n);
    GoingNext(channel, node, all, n);
    if Judge(channel, all[n]).Move? {
      var command := Retarget(Judge(channel, all[n]).command, node);
      ConcatAssociates(base, Going(channel, node, all[..n]), [command]);
    }
  }

  lemma GoingNext(channel: string, node: string, all: seq<Entry>, n: nat)
    requires n < |all|
    ensures Going(channel, node, all[..n + 1]) ==
      if Judge(channel, all[n]).Move?
      then Going(channel, node, all[..n]) + [Retarget(Judge(channel, all[n]).command, node)]
      else Going(channel, node, all[..n])
  {
    assert all[..n + 1] == all[..n] + [all[n]];
    GoingPush(channel, node, all[..n], all[n]);
  }

  class NodeStreams {
    var source: seq<Entry>
    var target: seq<Command>

    constructor (source: seq<Entry>, target: seq<Command>)
      ensures this.source == source && this.target == target
    {
      this.source, this.target := source, target;
    }

    /** Deals with one page, the entries from `n` on. */
    method MigratePage(channel: string, node: string, page: seq<Entry>, before: nat, ghost all: seq<Entry>,
        ghost base: seq<Command>, ghost n: nat)
      returns (moved: nat, thrown: bool, ghost end: nat)
      requires IsStream(all) && n + |page| <= |all| && page == all[n..n + |page|]
      requires Scanned(source, target, channel, node, all, base, before, n)
      modifies this
      ensures n <= end <= n + |page| && Scanned(source, target, channel, node, all, base, moved, end)
      ensures if thrown then end < n + |page| && Judge(channel, all[end]).Throw? else end == n + |page|
    {
      moved, thrown, end := before, false, n;
      for i := 0 to |page|
        invariant end == n + i
        invariant Scanned(source, target, channel, node, all, base, moved, end)
      {
        var entry := page[i];
        assert entry == all[end];
        ScanNext(source, target, channel, node, all, base, moved, end);
        var verdict := Judge(channel, entry);
        if verdict.Throw? {
          thrown := true;
          return;
        }
        if verdict.Move? {
          target := target + [Retarget(verdict.command, node)];
          source := Delete(source, entry.id);
          moved := moved + 1;
        }
        end := end + 1;
      }
    }

    /**
     The whole migration. It ends for every stream and page size; everything before the first
     entry it throws on is dealt with, and it throws exactly when there is such an entry.
     */
    method Migrate(channel: string, fromNode: string, toNode: string, pageSize: nat)
      returns (moved: nat, thrown: bool, ghost end: nat)
      requires IsStream(source) && pageSize > 0
      modifies this
      ensures fromNode == toNode ==> source == old(source) && target == old(target) && moved == 0 && !thrown
      ensures fromNode != toNode ==>
        && StopsAt(channel, old(source), end)
        && (thrown <==> end < |old(source)|)
        && source == Staying(channel, old(source)[..end]) + old(source)[end..]
        && target == old(target) + Going(channel, toNode, old(source)[..end])
        && moved == |Going(channel, toNode, old(source)[..end])|
    {
      moved, thrown, end := 0, false, 0;
      if fromNode == toNode {
        return;
      }
      moved, thrown, end := Scan(channel, toNode, pageSize);
    }

    method ReadPage(start: Option<nat>, count: nat, ghost channel: string, ghost all: seq<Entry>,
        ghost n: nat) returns (page: seq<Entry>)
      requires IsStream(all) && n <= |all| && source == SourceAfter(channel, all, n) && start == LastScanned(all, n)
      ensures page == Page(source, start, count)
      ensures n + |page| <= |all| && page == all[n..n + |page|] && (|page| < count ==> n + |page| == |all|)
      ensures page != [] ==> LastScanned(all, n + |page|) == Some(page[|page| - 1].id)
    {
      page := Page(source, start, count);
      NextPage(channel, all, n, count);
      if page != [] {
        PageEnd(all, n, page);
      }
    }

    /** One turn of the loop: reads the page after `start` and deals with it. */
    method ScanPage(channel: string, node: string, pageSize: nat, before: nat, start: Option<nat>,
        ghost all: seq<Entry>, ghost base: seq<Command>, ghost n: nat)
      returns (moved: nat, thrown: bool, done: bool, next: Option<nat>, ghost end: nat)
      requires IsStream(all) && pageSize > 0
      requires Scanned(source, target, channel, node, all, base, before, n) && start == LastScanned(all, n)
      modifies this
      ensures Scanned(source, target, channel, node, all, base, moved, end)
      ensures if thrown then end < |all| && Judge(channel, all[end]).Throw? else done ==> end == |all|
      ensures !thrown && !done ==> n < end && next == LastScanned(all, end)
    {
      var messages := ReadPage(start, pageSize, channel, all, n);
      moved, thrown, end := MigratePage(channel, node, messages, before, all, base, n);
      done, next := |messages| < pageSize, None;
      if !done {
        next := Some(messages[|messages| - 1].id);
      }
    }

    /** Pages through `source` until a short page, or an entry that throws. */
    method Scan(channel: string, node: string, pageSize: nat)
      returns (moved: nat, thrown: bool, ghost end: nat)
      requires IsStream(source) && pageSize > 0
      modifies this
      ensures Scanned(source, target, channel, node, old(source), old(target), moved, end)
      ensures if thrown then end < |old(source)| && Judge(channel, old(source)[end]).Throw? else end == |old(source)|
    {
      moved, thrown, end := 0, false, 0;
      ghost var all, base := source, target;
      ScanStart(all, base, channel, node);
      var start: Option<nat> := None;
      var done := false;
      while !done
        invariant Scanned(source, target, channel, node, all, base, moved, end)
        invariant if done then end == |all| else start == LastScanned(all, end)
        decreases !done, |all| - end
      {
        moved, thrown, done, start, end := ScanPage(channel, node, pageSize, moved, start, all, base, end);
        if thrown {
          return;
        }
      }
    }
  }

  // ---------------------------------------------------------------- which entries move

  /** The first field named so. */
  ghost predicate FirstAt(fields: seq<Field>, name: string, k: nat) {
    k < |fields| && fields[k].text == name && forall j :: 0 <= j < k ==> fields[j].text != name
  }

  lemma {:induction false} IndexOfIsFirst(fields: seq<Field>, name: string)
    ensures var index := IndexOf(fields, name);
      if index >= 0 then FirstAt(fields, name, index) else forall j :: 0 <= j < |fields| ==> fields[j].text != name
  {
    if fields != [] {
      IndexOfIsFirst(fields[..|fields| - 1], name);
    }
  }

  /** The payload follows the first field named `payload`; without that name it is the first field. */
  ghost predicate HasPayload(entry: Entry, payload: Option<Field>) {
    var fields := entry.fields;
    if exists k: nat :: FirstAt(fields, "payload", k)
    then
      exists k: nat ::
        FirstAt(fields, "payload", k) && payload == if k + 1 < |fields| then Some(fields[k + 1]) else None
    else payload == if fields == [] then None else Some(fields[0])
  }

  lemma PayloadIsFound(entry: Entry, payload: Option<Field>)
    ensures HasPayload(entry, payload) <==> payload == Payload(entry.fields)
  {
    IndexOfIsFirst(entry.fields, "payload");
    var index := IndexOf(entry.fields, "payload");
    if index >= 0 {
      forall k: nat | FirstAt(entry.fields, "payload", k)
        ensures k == index
      {
        assert k < index || k == index || index < k;
      }
    }
  }

  /** The entry holds a command of the channel. */
  ghost predicate HoldsCommand(entry: Entry, channel: string, command: Command) {
    exists payload :: HasPayload(entry, Some(payload)) && payload.text != "" && payload.parsed == Value(command)
      && command.channelId == Some(channel)
  }

  ghost predicate HoldsNull(entry: Entry) {
    exists payload :: HasPayload(entry, Some(payload)) && payload.text != "" && payload.parsed == NullValue
  }

  /**
   An entry moves exactly when it holds a command of the channel, throws exactly for a null payload,
   and else stays.
   */
  lemma EntryMovesIff(channel: string, entry: Entry)
    ensures forall command :: Judge(channel, entry) == Move(command) <==> HoldsCommand(entry, channel, command)
    ensures Judge(channel, entry) == Throw <==> HoldsNull(entry)
  {
    forall payload
      ensures HasPayload(entry, Some(payload)) <==> Payload(entry.fields) == Some(payload)
    {
      PayloadIsFound(entry, Some(payload));
    }
  }

  /** An entry as the API writes it: one payload field with a command's text. */
  predicate IsPlain(entry: Entry) {
    && |entry.fields| == 2 && entry.fields[0].text == "payload"
    && entry.fields[1].text != "" && entry.fields[1].parsed.Value?
  }

  function CommandOf(entry: Entry): Command
    requires IsPlain(entry)
  {
    entry.fields[1].parsed.command
  }

  function OthersOf(channel: string, entries: seq<Entry>): seq<Entry>
    requires forall k :: 0 <= k < |entries| ==> IsPlain(entries[k])
  {
    if entries == [] then []
    else
      var last := entries[|entries| - 1];
      OthersOf(channel, entries[..|entries| - 1]) + if CommandOf(last).channelId == Some(channel) then [] else [last]
  }

  function CommandsFor(channel: string, node: string, entries: seq<Entry>): seq<Command>
    requires forall k :: 0 <= k < |entries| ==> IsPlain(entries[k])
  {
    if entries == [] then []
    else
      var command := CommandOf(entries[|entries| - 1]);
      CommandsFor(channel, node, entries[..|entries| - 1])
        + if command.channelId == Some(channel) then [Command(Some(channel), Some(node), command.body)] else []
  }

  lemma PlainIsJudged(channel: string, entry: Entry)
    requires IsPlain(entry)
    ensures Judge(channel, entry) ==
      if CommandOf(entry).channelId == Some(channel) then Move(CommandOf(entry)) else Leave
  {
    IndexOfIsFirst(entry.fields, "payload");
  }

  /**
   Of well-formed entries exactly those of other channels stay, and exactly the channel's commands
   go, in order, each with its body and channel, for the new node.
   */
  lemma {:induction false} PlainStreamSplits(channel: string, node: string, entries: seq<Entry>)
    requires forall k :: 0 <= k < |entries| ==> IsPlain(entries[k])
    ensures Staying(channel, entries) == OthersOf(channel, entries)
    ensures Going(channel, node, entries) == CommandsFor(channel, node, entries)
  {
    if entries != [] {
      PlainStreamSplits(channel, node, entries[..|entries| - 1]);
      PlainIsJudged(channel, entries[|entries| - 1]);
    }
  }

  /** An entry without payload, with an empty one, or with unparsable text stays. */
  lemma OddEntriesStay(channel: string, entry: Entry)
    requires forall payload :: HasPayload(entry, Some(payload)) ==> payload.text == "" || payload.parsed == Unparsable
    ensures Judge(channel, entry) == Leave
  {
    if Payload(entry.fields).Some? {
      PayloadIsFound(entry, Payload(entry.fields));
    }
  }

  // ---------------------------------------------------------------- what a migration conserves

  /** With no null payload the channel is drained: nothing of it stays, nothing else goes. */
  lemma DrainedIffNothingThrows(channel: string, node: string, entries: seq<Entry>, end: nat)
    requires StopsAt(channel, entries, end)
    ensures end == |entries| <==> forall e :: e in entries ==> !HoldsNull(e)
    ensures end == |entries| ==>
      forall e, command :: e in Staying(channel, entries) ==> !HoldsCommand(e, channel, command)
  {
    StayingIsPart(channel, entries);
    forall e
      ensures Judge(channel, e) == Throw <==> HoldsNull(e)
      ensures forall command :: Judge(channel, e) == Move(command) <==> HoldsCommand(e, channel, command)
    {
      EntryMovesIff(channel, e);
    }
    if end < |entries| {
      assert entries[end] in entries;
    }
  }

  lemma {:induction false} StayingConcat(channel: string, a: seq<Entry>, b: seq<Entry>)
    ensures Staying(channel, a + b) == Staying(channel, a) + Staying(channel, b)
  {
    if b == [] {
      assert a + b == a;
    } else {
      var front, last := b[..|b| - 1], b[|b| - 1];
      assert b == front + [last];
      ConcatAssociates(a, front, [last]);
      StayingConcat(channel, a, front);
      StayingPush(channel, a + front, last);
      StayingPush(channel, front, last);
      ConcatAssociates(Staying(channel, a), Staying(channel, front), Kept(channel, last));
    }
  }

  lemma {:induction false} GoingConcat(channel: string, node: string, a: seq<Entry>, b: seq<Entry>)
    ensures Going(channel, node, a + b) == Going(channel, node, a) + Going(channel, node, b)
  {
    if b == [] {
      assert a + b == a;
    } else {
      var front, last := b[..|b| - 1], b[|b| - 1];
      assert b == front + [last];
      ConcatAssociates(a, front, [last]);
      GoingConcat(channel, node, a, front);
      GoingPush(channel, node, a + front, last);
      GoingPush(channel, node, front, last);
      ConcatAssociates(Going(channel, node, a), Going(channel, node, front), Sent(Judge(channel, last), node));
    }
  }

  /** Every entry either stays or goes, once. */
  lemma {:induction false} NothingLostOrDoubled(channel: string, node: string, entries: seq<Entry>)
    ensures |Staying(channel, entries)| + |Going(channel, node, entries)| == |entries|
  {
    if entries != [] {
      NothingLostOrDoubled(channel, node, entries[..|entries| - 1]);
    }
  }

  /** Both sides keep the order of the stream: an earlier command arrives before a later one. */
  lemma OrderIsKept(channel: string, node: string, before: seq<Entry>, first: Entry, between: seq<Entry>,
      second: Entry, after: seq<Entry>)
    requires Judge(channel, first).Move? && Judge(channel, second).Move?
    ensures var a, b, c := Going(channel, node, before), Going(channel, node, between), Going(channel, node, after);
      Going(channel, node, before + [first] + between + [second] + after) ==
      a + [Retarget(Judge(channel, first).command, node)] + b + [Retarget(Judge(channel, second).command, node)] + c
  {
    GoingConcat(channel, node, before + [first] + between + [second], after);
    GoingConcat(channel, node, before + [first] + between, [second]);
    GoingConcat(channel, node, before + [first], between);
    GoingConcat(channel, node, before, [first]);
    assert [first][..0] == [] && [second][..0] == [];
  }
}
