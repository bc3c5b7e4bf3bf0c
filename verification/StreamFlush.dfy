/**
 The flush scheduler of one assistant stream (apps/agent/src/session.ts,
 emitProviderRenderUpdate, scheduleProviderRenderUpdate, drainStreamStateBeforeReset and
 resetStreamState). Every stretch of code between two awaits is one atomic step.
 */
module StreamFlush {
  import opened Common
  import opened StreamDelta

  /** resolveStreamFlushDelayMs("immediate"); other delays come with their event. */
  const IMMEDIATE := 0

  datatype Patch = Patch(seqNo: nat, baseSeq: nat, delta: seq<Block>)

  /**
   One streamState object. `live` is what projecting the assistant state would give now,
   `content` its last projection; `context` says whether an assistant context with a source
   message exists; `sent` holds the patches handed to sendOutput for the current assistant
   message, and `outcomes` whether each settled send succeeded or threw.
   */
  datatype Stream = Stream(
    live: seq<Block>,
    content: seq<Block>,
    lastSent: seq<Block>,
    dirty: bool,
    pendingFlush: bool,
    pendingBoundary: bool,
    timer: Option<nat>,
    flushing: bool,
    context: bool,
    patchSeq: nat,
    sent: seq<Patch>,
    outcomes: seq<bool>)

  function Fresh(context: bool): Stream {
    Stream([], [], [], false, false, false, None, false, context, 0, [], [])
  }

  function Project(s: Stream): Stream {
    if s.dirty then s.(content := s.live, dirty := false) else s
  }

  function Schedule(s: Stream, delay: nat): Stream {
    var asked := s.(pendingFlush := true);
    if s.flushing || (s.timer.Some? && s.timer.value <= delay) then asked else asked.(timer := Some(delay))
  }

  /** One flush: the content counts as sent, and a patch goes out unless there is nothing to say. */
  function Flush(s: Stream, delta: seq<Block>): Stream {
    var flush := s.(lastSent := s.content, pendingFlush := false, pendingBoundary := false, flushing := true);
    if delta == [] && !s.pendingBoundary then flush
    else flush.(patchSeq := s.patchSeq + 1, sent := s.sent + [Patch(s.patchSeq + 1, s.patchSeq, delta)])
  }

  function Emit(s: Stream): Stream {
    if !s.context then s
    else if s.flushing then s.(pendingFlush := true)
    else
      var p := Project(s);
      Flush(p, Delta(p.content, p.lastSent))
  }

  /** A patch is on its way. */
  predicate Sending(s: Stream) {
    |s.outcomes| < |s.sent|
  }

  /** The flush settles with its send, or at once without one; only a throw skips the look at pendingFlush. */
  function Settle(s: Stream, ok: bool): Stream {
    if !s.flushing then s
    else
      var done := s.(flushing := false, outcomes := if Sending(s) then s.outcomes + [ok] else s.outcomes);
      if Sending(s) && !ok then done
      else if done.pendingFlush then Schedule(done, IMMEDIATE)
      else done
  }

  function FireTimer(s: Stream): Stream {
    if s.timer.None? then s else Emit(s.(timer := None))
  }

  /** The part of a drain after its wait for the flush in flight. */
  function DrainTail(s: Stream): Stream {
    if s.pendingFlush || s.dirty then Emit(s.(timer := None)) else s
  }

  /** resetStreamState, and for a new assistant message its context and opening boundary. */
  function Restart(context: bool): Stream {
    if context then Schedule(Fresh(true).(pendingBoundary := true), IMMEDIATE) else Fresh(false)
  }

  datatype Event =
    | Update(live: seq<Block>, delay: nat)
    | Request
    | ProjectNow
    | TimerFires
    | SendSettles(ok: bool)
    | Drain
    | Reset(newMessage: bool)

  /** An update that breaks the stream's own discipline (identities, growth) is not modelled. */
  ghost predicate Disciplined(s: Stream, live: seq<Block>) {
    Identified(live) && Grows(s.live, live)
  }

  ghost function Next(s: Stream, e: Event): Stream {
    match e
    case Update(live, delay) => if Disciplined(s, live) then Schedule(s.(live := live, dirty := true), delay) else s
    case Request => Schedule(s, IMMEDIATE)
    case ProjectNow => Project(s)
    case TimerFires => FireTimer(s)
    case SendSettles(ok) => Settle(s, ok)
    case Drain => DrainTail(s)
    case Reset(newMessage) => Restart(newMessage)
  }

  ghost function Run(s: Stream, events: seq<Event>): Stream {
    if events == [] then s else Next(Run(s, events[..|events| - 1]), events[|events| - 1])
  }

  // ---------------------------------------------------------------- invariant

  /** What a receiver shows after these patches. */
  function Replica(patches: seq<Patch>): View {
    if patches == [] then map[] else ApplyPatch(Replica(patches[..|patches| - 1]), patches[|patches| - 1].delta)
  }

  /** The patches whose send succeeded; one whose send threw did not arrive. */
  function Arrived(sent: seq<Patch>, outcomes: seq<bool>): seq<Patch>
    requires |outcomes| <= |sent|
  {
    if outcomes == [] then []
    else
      var last := |outcomes| - 1;
      Arrived(sent, outcomes[..last]) + if outcomes[last] then [sent[last]] else []
  }

  /** What the receiver shows. */
  function Receiver(s: Stream): View
    requires |s.outcomes| <= |s.sent|
  {
    Replica(Arrived(s.sent, s.outcomes))
  }

  /** No send of this stream has thrown. */
  ghost predicate Reliable(s: Stream) {
    forall k :: 0 <= k < |s.outcomes| ==> s.outcomes[k]
  }

  ghost predicate Numbered(sent: seq<Patch>) {
    forall k :: 0 <= k < |sent| ==> sent[k].seqNo == k + 1 && sent[k].baseSeq == k
  }

  /** Something the receiver has not been sent yet. */
  ghost predicate Unsent(s: Stream) {
    s.dirty || s.content != s.lastSent || s.pendingBoundary
  }

  ghost predicate ContentInv(live: seq<Block>, content: seq<Block>, lastSent: seq<Block>, dirty: bool) {
    && Identified(live) && Identified(content) && Identified(lastSent)
    && Grows(lastSent, content) && Grows(content, live)
    && (!dirty ==> content == live)
  }

  ghost predicate LogInv(sent: seq<Patch>, patchSeq: nat, lastSent: seq<Block>) {
    |sent| == patchSeq && Numbered(sent) && Replica(sent) == ViewOf(lastSent)
  }

  ghost predicate SchedulerInv(s: Stream) {
    && (Unsent(s) ==> s.pendingFlush)
    && (s.flushing ==> s.timer.None?)
    && (s.context && s.pendingFlush && Reliable(s) ==> s.timer.Some? || s.flushing)
    && OutcomesInv(s)
  }

  ghost predicate OutcomesInv(s: Stream) {
    |s.outcomes| <= |s.sent| <= |s.outcomes| + if s.flushing then 1 else 0
  }

  ghost predicate Inv(s: Stream) {
    && ContentInv(s.live, s.content, s.lastSent, s.dirty)
    && LogInv(s.sent, s.patchSeq, s.lastSent)
    && SchedulerInv(s)
  }

  lemma GrowsTransitive(a: seq<Block>, b: seq<Block>, c: seq<Block>)
    requires Grows(a, b) && Grows(b, c)
    ensures Grows(a, c)
  {
    forall id | id in ViewOf(a)
      ensures id in ViewOf(c) && GrowsInto(ViewOf(a)[id], ViewOf(c)[id])
    {
      var x, y, z := ViewOf(a)[id], ViewOf(b)[id], ViewOf(c)[id];
      if x.ShownText? || x.ShownThinking? {
        assert x.text <= y.text <= z.text;
      }
    }
  }

  lemma GrowsReflexive(a: seq<Block>)
    ensures Grows(a, a)
  {
  }

  lemma ProjectKeepsContent(s: Stream)
    requires ContentInv(s.live, s.content, s.lastSent, s.dirty)
    ensures var p := Project(s); ContentInv(p.live, p.content, p.lastSent, p.dirty) && p.content == s.live
  {
    GrowsTransitive(s.lastSent, s.content, s.live);
    GrowsReflexive(s.live);
  }

  lemma FlushKeepsContent(s: Stream)
    requires ContentInv(s.live, s.content, s.lastSent, s.dirty)
    ensures ContentInv(s.live, s.content, s.content, s.dirty)
  {
    GrowsReflexive(s.content);
  }

  /** Sending the delta keeps the log numbered and the receiver up to date with what was sent. */
  lemma SendKeepsLog(sent: seq<Patch>, patchSeq: nat, lastSent: seq<Block>, content: seq<Block>)
    requires LogInv(sent, patchSeq, lastSent)
    requires Identified(content) && Identified(lastSent) && Grows(lastSent, content)
    ensures var delta := Delta(content, lastSent);
      && (delta == [] ==> LogInv(sent, patchSeq, content))
      && LogInv(sent + [Patch(patchSeq + 1, patchSeq, delta)], patchSeq + 1, content)
  {
    PatchRebuildsIffGrows(content, lastSent);
    var next := sent + [Patch(patchSeq + 1, patchSeq, Delta(content, lastSent))];
    assert next[..|sent|] == sent;
  }

  lemma EmitKeepsInv(s: Stream)
    requires Inv(s)
    ensures Inv(Emit(s.(timer := None)))
  {
    if s.context && !s.flushing {
      ProjectKeepsContent(s);
      FlushKeepsContent(Project(s));
      SendKeepsLog(s.sent, s.patchSeq, s.lastSent, Project(s).content);
    }
  }

  lemma UpdateKeepsContent(s: Stream, live: seq<Block>)
    requires ContentInv(s.live, s.content, s.lastSent, s.dirty) && Disciplined(s, live)
    ensures ContentInv(live, s.content, s.lastSent, true)
  {
    GrowsTransitive(s.content, s.live, live);
  }

  /** Scheduling makes the scheduler's part good again, whatever was unsent before. */
  lemma ScheduleKeepsInv(s: Stream, delay: nat)
    requires ContentInv(s.live, s.content, s.lastSent, s.dirty)
    requires LogInv(s.sent, s.patchSeq, s.lastSent)
    requires s.flushing ==> s.timer.None?
    requires OutcomesInv(s)
    ensures Inv(Schedule(s, delay))
  {
    var next := Schedule(s, delay);
    assert next == s.(pendingFlush := true, timer := next.timer);
    assert ContentInv(next.live, next.content, next.lastSent, next.dirty);
    assert LogInv(next.sent, next.patchSeq, next.lastSent);
    if s.flushing {
      assert next.timer == s.timer;
    } else {
      assert next.timer.Some?;
    }
  }

  lemma FreshInv(context: bool)
    ensures Inv(Fresh(context)) && Inv(Restart(context))
  {
    ScheduleKeepsInv(Fresh(true).(pendingBoundary := true), IMMEDIATE);
  }

  lemma UpdateKeepsInv(s: Stream, live: seq<Block>, delay: nat)
    requires Inv(s) && Disciplined(s, live)
    ensures Inv(Schedule(s.(live := live, dirty := true), delay))
  {
    UpdateKeepsContent(s, live);
    ScheduleKeepsInv(s.(live := live, dirty := true), delay);
  }

  lemma SettleKeepsInv(s: Stream, ok: bool)
    requires Inv(s)
    ensures Inv(Settle(s, ok))
  {
    if s.flushing {
      var outcomes := if Sending(s) then s.outcomes + [ok] else s.outcomes;
      var done := s.(flushing := false, outcomes := outcomes);
      if Sending(s) && !ok {
        assert !done.outcomes[|s.outcomes|] && !Reliable(done);
      } else if s.pendingFlush {
        ScheduleKeepsInv(done, IMMEDIATE);
      }
    }
  }

  lemma NextKeepsInv(s: Stream, e: Event)
    requires Inv(s)
    ensures Inv(Next(s, e))
  {
    match e
    case Update(live, delay) => if Disciplined(s, live) { UpdateKeepsInv(s, live, delay); }
    case TimerFires => EmitKeepsInv(s);
    case Drain => EmitKeepsInv(s);
    case ProjectNow => ProjectKeepsContent(s);
    case Reset(newMessage) => FreshInv(newMessage);
    case Request => ScheduleKeepsInv(s, IMMEDIATE);
    case SendSettles(ok) => SettleKeepsInv(s, ok);
  }

  lemma {:induction false} RunKeepsInv(s: Stream, events: seq<Event>)
    requires Inv(s)
    ensures Inv(Run(s, events))
  {
    if events != [] {
      RunKeepsInv(s, events[..|events| - 1]);
      NextKeepsInv(Run(s, events[..|events| - 1]), events[|events| - 1]);
    }
  }

  // ---------------------------------------------------------------- over every run

  /** At most one send of a stream object is in flight, and patches are numbered without gaps. */
  lemma SingleFlight(context: bool, events: seq<Event>)
    ensures var s := Run(Fresh(context), events);
      && |s.outcomes| <= |s.sent| <= |s.outcomes| + 1
      && Numbered(s.sent)
  {
    FreshInv(context);
    RunKeepsInv(Fresh(context), events);
  }

  /** While sends succeed and a context exists, unsent content has a timer or a flush that will look again. */
  lemma NothingStranded(context: bool, events: seq<Event>)
    requires var s := Run(Fresh(context), events); s.context && Reliable(s) && Unsent(s)
    ensures var s := Run(Fresh(context), events);
      s.timer.Some? || (s.flushing && Settle(s, true).timer.Some?)
  {
    FreshInv(context);
    RunKeepsInv(Fresh(context), events);
  }

  lemma {:induction false} AllArrived(sent: seq<Patch>, outcomes: seq<bool>)
    requires |outcomes| <= |sent| && forall k :: 0 <= k < |outcomes| ==> outcomes[k]
    ensures Arrived(sent, outcomes) == sent[..|outcomes|]
  {
    if outcomes != [] {
      AllArrived(sent, outcomes[..|outcomes| - 1]);
    }
  }

  /** With no flush in flight and no send thrown, the receiver shows what was last sent. */
  lemma SettledShowsLastSent(s: Stream)
    requires Inv(s) && Reliable(s) && !s.flushing
    ensures Receiver(s) == Replica(s.sent) == ViewOf(s.lastSent)
  {
    AllArrived(s.sent, s.outcomes);
    assert s.sent[..|s.outcomes|] == s.sent;
  }

  /** Whenever the scheduler is at rest, the receiver shows exactly the sender's latest content. */
  lemma RestMeansReplicated(context: bool, events: seq<Event>)
    requires var s := Run(Fresh(context), events); s.context && Reliable(s) && s.timer.None? && !s.flushing
    ensures var s := Run(Fresh(context), events);
      |s.outcomes| <= |s.sent| && Receiver(s) == ViewOf(s.live)
  {
    FreshInv(context);
    RunKeepsInv(Fresh(context), events);
    SettledShowsLastSent(Run(Fresh(context), events));
  }

  /**
   When a flush settles, content that arrived during it is scheduled, unless its send threw: then
   it is left without timer or flush.
   */
  lemma SettledSendReschedulesIffOk(context: bool, events: seq<Event>, ok: bool)
    requires var s := Run(Fresh(context), events); s.flushing && Unsent(s)
    ensures var s := Run(Fresh(context), events);
      var after := Settle(s, ok);
      && Unsent(after) && !after.flushing
      && (after.timer.Some? <==> ok || !Sending(s))
  {
    FreshInv(context);
    RunKeepsInv(Fresh(context), events);
  }

  /** A flush sends everything there is; if nothing arrives until it settles, nothing more is scheduled. */
  lemma FlushLeavesNothing(s: Stream, ok: bool)
    requires Inv(s) && s.context && !s.flushing
    ensures var during, after := Emit(s), Settle(Emit(s), ok);
      && !Unsent(during) && !during.pendingFlush && during.flushing && during.timer == s.timer
      && after == during.(flushing := false, outcomes := after.outcomes)
      && after.outcomes == s.outcomes + if |during.sent| > |s.sent| then [ok] else []
  {
  }

  /** The timer flushes exactly when there is a context and no flush in flight; otherwise the wish is kept. */
  lemma TimerFlushesIff(s: Stream)
    requires s.timer.Some?
    ensures var after := FireTimer(s);
      && after.timer.None?
      && (s.context && !s.flushing ==> after.flushing && after.lastSent == (if s.dirty then s.live else s.content))
      && (s.context && s.flushing ==> after == s.(timer := None, pendingFlush := true))
      && (!s.context ==> after == s.(timer := None))
  {
  }

  /** A wish to flush arms the timer no later than asked, and never delays one already armed. */
  lemma ScheduleArms(s: Stream, delay: nat)
    ensures var after := Schedule(s, delay);
      && after == s.(pendingFlush := true, timer := after.timer)
      && (s.flushing ==> after.timer == s.timer)
      && (!s.flushing ==> after.timer.Some? && after.timer.value <= delay)
      && (!s.flushing && s.timer.Some? ==> after.timer.value <= s.timer.value)
      && (!s.flushing ==> after.timer.value == delay || after.timer == s.timer)
  {
  }

  predicate AtRest(s: Stream) {
    s.timer.None? && !s.flushing && !s.pendingFlush && !s.pendingBoundary && !s.dirty
  }

  /** A stream starts with nothing shown, sent or scheduled; a new message announces itself by an empty first patch. */
  lemma ResetStartsAfresh(s: Stream)
    ensures var idle := Next(s, Reset(false));
      && AtRest(idle) && idle.live == [] && idle.sent == [] && !idle.context && idle == Fresh(false)
    ensures var begun := Next(s, Reset(true));
      && begun.live == [] && begun.sent == [] && !begun.flushing && begun.timer == Some(IMMEDIATE)
      && Next(begun, TimerFires).sent == [Patch(1, 0, [])] && Next(begun, TimerFires).timer.None?
      && AtRest(Next(Next(begun, TimerFires), SendSettles(true)))
    ensures AtRest(Fresh(true)) && Fresh(true) == Fresh(false).(context := true)
  {
  }

  // ---------------------------------------------------------------- draining before a reset

  predicate DrainFlushes(s: Stream) {
    s.context && (s.pendingFlush || s.dirty)
  }

  /** The drain hands a patch to sendOutput: there is content or a boundary to send. */
  predicate DrainSends(s: Stream) {
    DrainFlushes(s) && (Delta(s.live, s.lastSent) != [] || s.pendingBoundary)
  }

  function DrainPatch(s: Stream): Patch {
    Patch(s.patchSeq + 1, s.patchSeq, Delta(s.live, s.lastSent))
  }

  /** With no flush in flight a drain takes all there is to send. */
  lemma DrainTakesAll(s: Stream)
    requires Inv(s) && !s.flushing
    ensures var drained := DrainTail(s);
      && Inv(drained) && drained.live == s.live && drained.outcomes == s.outcomes
      && (drained.flushing <==> DrainFlushes(s))
      && (s.context ==> drained.lastSent == s.live)
      && drained.sent == s.sent + if DrainSends(s) then [DrainPatch(s)] else []
  {
    EmitKeepsInv(s);
    assert s.sent + [] == s.sent;
    if DrainFlushes(s) {
      FlushTakesAll(s);
    }
  }

  lemma FlushTakesAll(s: Stream)
    requires Inv(s) && !s.flushing && DrainFlushes(s)
    ensures var drained := DrainTail(s);
      && drained.live == s.live && drained.outcomes == s.outcomes && drained.flushing && drained.lastSent == s.live
      && drained.sent == if DrainSends(s) then s.sent + [DrainPatch(s)] else s.sent
  {
    var p := Project(s.(timer := None));
    assert p.content == s.live && p.lastSent == s.lastSent && p.sent == s.sent && p.patchSeq == s.patchSeq;
    assert DrainTail(s) == Flush(p, Delta(s.live, s.lastSent));
  }

  /** What may happen between a drain's last send and the reset: anything but another send or reset. */
  predicate Quiet(e: Event) {
    e.Update? || e.Request? || e.ProjectNow? || e.SendSettles?
  }

  /** How the flush in flight settles. */
  function FirstOutcome(events: seq<Event>): Option<bool> {
    if events == [] then None
    else
      var earlier, last := FirstOutcome(events[..|events| - 1]), events[|events| - 1];
      if earlier.Some? then earlier else if last.SendSettles? then Some(last.ok) else None
  }

  /** The content after the updates that keep the stream's discipline. */
  ghost function LatestContent(live: seq<Block>, events: seq<Event>): seq<Block> {
    if events == [] then live
    else
      var sofar, last := LatestContent(live, events[..|events| - 1]), events[|events| - 1];
      if last.Update? && Identified(last.live) && Grows(sofar, last.live) then last.live else sofar
  }

  /** `sofar` is `s` after the quiet events `between`. */
  ghost predicate AfterQuiet(s: Stream, between: seq<Event>, sofar: Stream) {
    var outcome := FirstOutcome(between);
    && sofar.sent == s.sent && sofar.live == LatestContent(s.live, between)
    && (sofar.flushing <==> s.flushing && outcome.None?)
    && sofar.outcomes == s.outcomes + if Sending(s) && outcome.Some? then [outcome.value] else []
  }

  lemma {:induction false} QuietRun(s: Stream, between: seq<Event>)
    requires OutcomesInv(s) && forall e :: e in between ==> Quiet(e)
    ensures AfterQuiet(s, between, Run(s, between))
  {
    if between == [] {
      assert s.outcomes + [] == s.outcomes;
    } else {
      var front, last := between[..|between| - 1], between[|between| - 1];
      QuietRun(s, front);
      assert Quiet(last);
      if last.SendSettles? {
        SettleAfterQuiet(s, front, Run(s, front), last.ok);
      } else {
        OtherAfterQuiet(s, front, Run(s, front), last);
      }
      assert between == front + [last];
    }
  }

  lemma OutcomePush(events: seq<Event>, e: Event)
    ensures FirstOutcome(events + [e]) ==
      if FirstOutcome(events).Some? then FirstOutcome(events) else if e.SendSettles? then Some(e.ok) else None
  {
    assert (events + [e])[..|events|] == events;
  }

  lemma ContentPush(live: seq<Block>, events: seq<Event>, e: Event)
    ensures var sofar := LatestContent(live, events);
      LatestContent(live, events + [e]) ==
        if e.Update? && Identified(e.live) && Grows(sofar, e.live) then e.live else sofar
  {
    assert (events + [e])[..|events|] == events;
  }

  lemma SettleAfterQuiet(s: Stream, front: seq<Event>, sofar: Stream, ok: bool)
    requires OutcomesInv(s) && AfterQuiet(s, front, sofar)
    ensures AfterQuiet(s, front + [SendSettles(ok)], Settle(sofar, ok))
  {
    OutcomePush(front, SendSettles(ok));
    ContentPush(s.live, front, SendSettles(ok));
    assert s.outcomes + [] == s.outcomes;
  }

  lemma QuietKeepsLog(s: Stream, e: Event)
    requires Quiet(e) && !e.SendSettles?
    ensures var next := Next(s, e);
      && next.sent == s.sent && next.outcomes == s.outcomes && next.flushing == s.flushing
      && next.live == if e.Update? && Identified(e.live) && Grows(s.live, e.live) then e.live else s.live
  {
    match e
    case Update(live, delay) => ScheduleKeepsLog(s.(live := live, dirty := true), delay);
    case Request => ScheduleKeepsLog(s, IMMEDIATE);
    case ProjectNow =>
  }

  lemma ScheduleKeepsLog(s: Stream, delay: nat)
    ensures var next := Schedule(s, delay); next == s.(pendingFlush := true, timer := next.timer)
  {
  }

  lemma OtherAfterQuiet(s: Stream, front: seq<Event>, sofar: Stream, e: Event)
    requires AfterQuiet(s, front, sofar) && Quiet(e) && !e.SendSettles?
    ensures AfterQuiet(s, front + [e], Next(sofar, e))
  {
    OutcomePush(front, e);
    ContentPush(s.live, front, e);
    QuietKeepsLog(sofar, e);
  }

  /** The drain's own send throws. */
  predicate DrainThrows(s: Stream, between: seq<Event>) {
    DrainSends(s) && FirstOutcome(between) == Some(false)
  }

  /** The drain's wait: if it flushes, that flush settles before the reset. */
  predicate Awaited(s: Stream, between: seq<Event>) {
    DrainFlushes(s) ==> FirstOutcome(between).Some?
  }

  lemma ArrivedPush(sent: seq<Patch>, patch: Patch, outcomes: seq<bool>, ok: bool)
    requires |outcomes| == |sent| && forall k :: 0 <= k < |outcomes| ==> outcomes[k]
    ensures Arrived(sent + [patch], outcomes + [ok]) == sent + if ok then [patch] else []
  {
    AllArrived(sent + [patch], outcomes);
    assert (outcomes + [ok])[..|outcomes|] == outcomes;
    assert (sent + [patch])[..|outcomes|] == sent;
  }

  lemma SendReaches(sent: seq<Patch>, patch: Patch, outcomes: seq<bool>, ok: bool)
    requires |outcomes| == |sent| && forall k :: 0 <= k < |outcomes| ==> outcomes[k]
    ensures Replica(Arrived(sent + [patch], outcomes + [ok])) == Replica(if ok then sent + [patch] else sent)
  {
    ArrivedPush(sent, patch, outcomes, ok);
    assert sent + [] == sent;
  }

  /** What has reached the receiver when the reset comes. */
  lemma AfterDrain(s: Stream, between: seq<Event>)
    requires Inv(s) && Reliable(s) && !s.flushing && Awaited(s, between)
    requires forall e :: e in between ==> Quiet(e)
    ensures var end := Run(DrainTail(s), between);
      && |end.outcomes| <= |end.sent| && end.live == LatestContent(s.live, between)
      && Receiver(end) == ViewOf(if s.context && !DrainThrows(s, between) then s.live else s.lastSent)
  {
    var drained := DrainTail(s);
    DrainTakesAll(s);
    QuietRun(drained, between);
    if DrainSends(s) {
      SendingDrainReaches(s, Run(drained, between), between);
    } else {
      SilentDrainReaches(s, Run(drained, between), between);
    }
  }

  lemma SendingDrainReaches(s: Stream, end: Stream, between: seq<Event>)
    requires Inv(s) && Reliable(s) && !s.flushing && DrainSends(s) && Awaited(s, between)
    requires AfterQuiet(DrainTail(s), between, end)
    ensures |end.outcomes| <= |end.sent|
    ensures Receiver(end) == ViewOf(if DrainThrows(s, between) then s.lastSent else s.live)
  {
    DrainTakesAll(s);
    SettledShowsLastSent(s);
    SendReaches(s.sent, DrainPatch(s), s.outcomes, FirstOutcome(between).value);
  }

  lemma SilentDrainReaches(s: Stream, end: Stream, between: seq<Event>)
    requires Inv(s) && Reliable(s) && !s.flushing && !DrainSends(s)
    requires AfterQuiet(DrainTail(s), between, end)
    ensures |end.outcomes| <= |end.sent|
    ensures Receiver(end) == ViewOf(if s.context then s.live else s.lastSent)
  {
    DrainTakesAll(s);
    SettledShowsLastSent(s);
    assert end.sent == s.sent + [] == s.sent;
    assert end.outcomes == s.outcomes + [] == s.outcomes;
    assert Receiver(end) == Receiver(s);
  }

  /**
   A reset after a drain loses nothing exactly when the content by then is what reached the
   receiver: the drained content, or, if the drain's own send threw or nothing can be sent for want
   of a context, the content of the send before.
   */
  lemma ResetLosesNothingIff(context: bool, before: seq<Event>, between: seq<Event>)
    requires var s := Run(Fresh(context), before); Reliable(s) && !s.flushing && Awaited(s, between)
    requires forall e :: e in between ==> Quiet(e)
    ensures var s := Run(Fresh(context), before);
      var end := Run(DrainTail(s), between);
      var arrived := if s.context && !DrainThrows(s, between) then s.live else s.lastSent;
      && |end.outcomes| <= |end.sent|
      && (Receiver(end) == ViewOf(end.live) <==> ViewOf(LatestContent(s.live, between)) == ViewOf(arrived))
  {
    FreshInv(context);
    RunKeepsInv(Fresh(context), before);
    AfterDrain(Run(Fresh(context), before), between);
  }

  /** When no update leaves other content behind, a reset loses only what a drain could not deliver. */
  lemma UndisturbedResetIff(s: Stream, between: seq<Event>)
    requires Inv(s) && Reliable(s) && !s.flushing && Awaited(s, between)
    requires (forall e :: e in between ==> Quiet(e)) && ViewOf(LatestContent(s.live, between)) == ViewOf(s.live)
    ensures var end := Run(DrainTail(s), between);
      && |end.outcomes| <= |end.sent|
      && (Receiver(end) == ViewOf(end.live) <==>
            (s.context && !DrainThrows(s, between)) || ViewOf(s.lastSent) == ViewOf(s.live))
  {
    AfterDrain(s, between);
  }

  /** A drain has delivered everything once its send succeeds, or without a send; a thrown send delivers nothing. */
  lemma DrainDelivers(s: Stream, ok: bool)
    requires Inv(s) && Reliable(s) && s.context && !s.flushing
    ensures var end := Settle(DrainTail(s), ok);
      && |end.outcomes| <= |end.sent|
      && Receiver(end) == ViewOf(if ok || !DrainSends(s) then s.live else s.lastSent)
  {
    var settles := SendSettles(ok);
    assert [settles][..0] == [];
    assert Run(DrainTail(s), [settles]) == Next(DrainTail(s), settles);
    assert FirstOutcome([settles]) == Some(ok);
    AfterDrain(s, [settles]);
  }

  /** Whatever an update adds once a drain has flushed is lost by the reset, even if its send succeeds. */
  lemma LateUpdateIsLost(s: Stream, live: seq<Block>, delay: nat)
    requires Inv(s) && Reliable(s) && s.context && !s.flushing
    requires Disciplined(s, live) && ViewOf(live) != ViewOf(s.live)
    ensures var end := Settle(Next(DrainTail(s), Update(live, delay)), true);
      end.live == live && |end.outcomes| <= |end.sent| && Receiver(end) != ViewOf(end.live)
  {
    var update, settles := Update(live, delay), SendSettles(true);
    var between := [] + [update] + [settles];
    RunPush(DrainTail(s), [] + [update], settles);
    RunPush(DrainTail(s), [], update);
    OutcomePush([] + [update], settles);
    OutcomePush([], update);
    ContentPush(s.live, [] + [update], settles);
    ContentPush(s.live, [], update);
    DrainTakesAll(s);
    AfterDrain(s, between);
  }

  lemma RunPush(s: Stream, events: seq<Event>, e: Event)
    ensures Run(s, events + [e]) == Next(Run(s, events), e)
  {
    assert (events + [e])[..|events|] == events;
  }

  // ---------------------------------------------------------------- sends that outlive their stream

  /** The handle: its present stream object, and the sends of replaced ones that have not settled. */
  datatype Handle = Handle(stream: Stream, orphans: nat)

  datatype HandleEvent = OnStream(e: Event) | OldSendSettles

  ghost function HandleNext(h: Handle, event: HandleEvent): Handle {
    match event
    case OnStream(e) =>
      Handle(Next(h.stream, e), if e.Reset? && Sending(h.stream) then h.orphans + 1 else h.orphans)
    case OldSendSettles => if h.orphans > 0 then h.(orphans := h.orphans - 1) else h
  }

  ghost function HandleRun(context: bool, events: seq<HandleEvent>): Handle {
    if events == [] then Handle(Fresh(context), 0)
    else HandleNext(HandleRun(context, events[..|events| - 1]), events[|events| - 1])
  }

  /** The sends of the handle that have not settled. */
  function InFlight(h: Handle): int {
    h.orphans + |h.stream.sent| - |h.stream.outcomes|
  }

  /** A due timer or a drain that finds something to send, and no flush in its way. */
  predicate StartsSend(s: Stream, e: Event) {
    && ((e.TimerFires? && s.timer.Some?) || (e.Drain? && (s.pendingFlush || s.dirty)))
    && s.context && !s.flushing
    && (Delta(s.live, s.lastSent) != [] || s.pendingBoundary)
  }

  lemma EmitSendsIff(s: Stream)
    requires Inv(s)
    ensures var next := Emit(s.(timer := None));
      var sends := s.context && !s.flushing && (Delta(s.live, s.lastSent) != [] || s.pendingBoundary);
      next.outcomes == s.outcomes && |next.sent| == |s.sent| + if sends then 1 else 0
  {
  }

  /** A step adds at most the send that it starts. */
  lemma StepSends(s: Stream, e: Event)
    requires Inv(s) && !e.Reset?
    ensures |Next(s, e).sent| == |s.sent| + if StartsSend(s, e) then 1 else 0
    ensures |s.outcomes| <= |Next(s, e).outcomes|
    ensures StartsSend(s, e) ==> Next(s, e).outcomes == s.outcomes
  {
    if e.TimerFires? || e.Drain? {
      EmitSendsIff(s);
    } else if e.SendSettles? {
      SettleSendsNothing(s, e.ok);
    } else {
      QuietKeepsLog(s, e);
    }
  }

  lemma SettleSendsNothing(s: Stream, ok: bool)
    ensures Settle(s, ok).sent == s.sent && |s.outcomes| <= |Settle(s, ok).outcomes|
  {
  }

  lemma StepInFlight(h: Handle, event: HandleEvent)
    requires Inv(h.stream)
    ensures var before, after := InFlight(h), InFlight(HandleNext(h, event));
      if event.OnStream? && StartsSend(h.stream, event.e) then before == h.orphans && after == before + 1
      else after <= before
  {
    if event.OnStream? && !event.e.Reset? {
      StepSends(h.stream, event.e);
    }
  }

  lemma {:induction false} HandleKeepsInv(context: bool, events: seq<HandleEvent>)
    ensures Inv(HandleRun(context, events).stream)
  {
    FreshInv(context);
    if events != [] {
      var front := HandleRun(context, events[..|events| - 1]);
      HandleKeepsInv(context, events[..|events| - 1]);
      if events[|events| - 1].OnStream? {
        NextKeepsInv(front.stream, events[|events| - 1].e);
      }
    }
  }

  lemma HandleStep(context: bool, events: seq<HandleEvent>, k: nat)
    requires k < |events|
    ensures HandleRun(context, events[..k + 1]) == HandleNext(HandleRun(context, events[..k]), events[k])
  {
    assert events[..k + 1][..k] == events[..k];
  }

  ghost predicate OneSendThroughout(context: bool, events: seq<HandleEvent>) {
    forall k :: 0 <= k <= |events| ==> InFlight(HandleRun(context, events[..k])) <= 1
  }

  /** A send starts while one of a replaced stream is still on its way. */
  ghost predicate Overlaps(context: bool, events: seq<HandleEvent>, k: nat)
    requires k < |events|
  {
    var h := HandleRun(context, events[..k]);
    events[k].OnStream? && StartsSend(h.stream, events[k].e) && h.orphans > 0
  }

  lemma {:induction false} OneSendSoFar(context: bool, events: seq<HandleEvent>, k: nat)
    requires k <= |events| && forall m :: 0 <= m < |events| ==> !Overlaps(context, events, m)
    ensures InFlight(HandleRun(context, events[..k])) <= 1
  {
    if k > 0 {
      OneSendSoFar(context, events, k - 1);
      HandleKeepsInv(context, events[..k - 1]);
      HandleStep(context, events, k - 1);
      StepInFlight(HandleRun(context, events[..k - 1]), events[k - 1]);
      assert !Overlaps(context, events, k - 1);
    }
  }

  lemma OverlapIsSeen(context: bool, events: seq<HandleEvent>, k: nat)
    requires k < |events| && Overlaps(context, events, k)
    ensures InFlight(HandleRun(context, events[..k + 1])) > 1
  {
    HandleKeepsInv(context, events[..k]);
    HandleStep(context, events, k);
    StepInFlight(HandleRun(context, events[..k]), events[k]);
  }

  /**
   Through all resets a handle has at most one send in flight exactly when none starts before those
   of replaced streams have settled.
   */
  lemma OneSendIff(context: bool, events: seq<HandleEvent>)
    ensures OneSendThroughout(context, events) <==> forall k :: 0 <= k < |events| ==> !Overlaps(context, events, k)
  {
    if forall k :: 0 <= k < |events| ==> !Overlaps(context, events, k) {
      forall k | 0 <= k <= |events|
        ensures InFlight(HandleRun(context, events[..k])) <= 1
      {
        OneSendSoFar(context, events, k);
      }
    }
    if k :| 0 <= k < |events| && Overlaps(context, events, k) {
      OverlapIsSeen(context, events, k);
    }
  }

  /** A reset, as after a drain's waits, that finds no send in flight leaves none behind. */
  predicate ResetsInFlight(h: Handle, event: HandleEvent) {
    event.OnStream? && event.e.Reset? && Sending(h.stream)
  }

  ghost predicate NeverOrphans(context: bool, events: seq<HandleEvent>) {
    forall k :: 0 <= k <= |events| ==> HandleRun(context, events[..k]).orphans == 0
  }

  ghost predicate NeverResetsInFlight(context: bool, events: seq<HandleEvent>) {
    forall k :: 0 <= k < |events| ==> !ResetsInFlight(HandleRun(context, events[..k]), events[k])
  }

  lemma {:induction false} NoOrphansSoFar(context: bool, events: seq<HandleEvent>, k: nat)
    requires k <= |events| && NeverResetsInFlight(context, events)
    ensures HandleRun(context, events[..k]).orphans == 0
  {
    if k > 0 {
      NoOrphansSoFar(context, events, k - 1);
      HandleStep(context, events, k - 1);
      NoOrphansNext(HandleRun(context, events[..k - 1]), events[k - 1]);
    }
  }

  lemma NoOrphansNext(h: Handle, event: HandleEvent)
    requires h.orphans == 0
    ensures HandleNext(h, event).orphans == 0 <==> !ResetsInFlight(h, event)
  {
  }

  /** No send outlives its stream exactly when no reset finds one in flight; then at most one send is ever in flight. */
  lemma SendsOutliveNothingIff(context: bool, events: seq<HandleEvent>)
    ensures NeverOrphans(context, events) <==> NeverResetsInFlight(context, events)
    ensures NeverOrphans(context, events) ==> OneSendThroughout(context, events)
  {
    if NeverResetsInFlight(context, events) {
      forall k | 0 <= k <= |events|
        ensures HandleRun(context, events[..k]).orphans == 0
      {
        NoOrphansSoFar(context, events, k);
      }
    }
    if k :| 0 <= k < |events| && ResetsInFlight(HandleRun(context, events[..k]), events[k]) {
      HandleStep(context, events, k);
      if HandleRun(context, events[..k]).orphans == 0 {
        NoOrphansNext(HandleRun(context, events[..k]), events[k]);
        assert HandleRun(context, events[..k + 1]).orphans != 0;
      }
    }
    OneSendIff(context, events);
  }

  // ---------------------------------------------------------------- the scheduler itself

  class StreamFlusher {
    var live: seq<Block>
    var content: seq<Block>
    var lastSent: seq<Block>
    var dirty: bool
    var pendingFlush: bool
    var pendingBoundary: bool
    var flushDelay: Option<nat>
    var flushing: bool
    var context: bool
    var patchSeq: nat
    var sent: seq<Patch>
    var outcomes: seq<bool>

    function State(): Stream
      reads this
    {
      Stream(live, content, lastSent, dirty, pendingFlush, pendingBoundary, flushDelay, flushing, context, patchSeq,
        sent, outcomes)
    }

    /** resetStreamState puts a new object in place of the old one. */
    constructor ()
      ensures State() == Fresh(false) == Restart(false)
    {
      live, content, lastSent := [], [], [];
      dirty, pendingFlush, pendingBoundary, flushing, context := false, false, false, false, false;
      flushDelay, patchSeq, sent, outcomes := None, 0, [], [];
    }

    method EnsureProjected()
      modifies this
      ensures State() == Project(old(State()))
    {
      if dirty {
        content := live;
        dirty := false;
      }
    }

    method ScheduleUpdate(delay: nat)
      modifies this
      ensures State() == Schedule(old(State()), delay)
    {
      pendingFlush := true;
      if flushing {
        return;
      }
      if flushDelay.Some? && !(delay < flushDelay.value) {
        return;
      }
      flushDelay := Some(delay);
    }

    /** emitProviderRenderUpdate up to its first await. */
    method BeginEmit()
      modifies this
      ensures State() == Emit(old(State()))
    {
      if !context {
        return;
      }
      if flushing {
        pendingFlush := true;
        return;
      }
      EnsureProjected();
      var delta := ComputeDelta(content, lastSent);
      SendDelta(delta);
    }

    method SendDelta(delta: seq<Block>)
      modifies this
      ensures State() == Flush(old(State()), delta)
    {
      var forceBoundary := pendingBoundary;
      lastSent, pendingFlush, pendingBoundary := content, false, false;
      flushing := true;
      if delta != [] || forceBoundary {
        SendOutput(delta);
      }
    }

    method SendOutput(delta: seq<Block>)
      modifies this`patchSeq, this`sent
      ensures patchSeq == old(patchSeq) + 1 && sent == old(sent) + [Patch(patchSeq, old(patchSeq), delta)]
    {
      var baseSeq := patchSeq;
      patchSeq := patchSeq + 1;
      sent := sent + [Patch(patchSeq, baseSeq, delta)];
    }

    /** The rest of emitProviderRenderUpdate, once its flush has settled. */
    method EndEmit(ok: bool)
      modifies this
      ensures State() == Settle(old(State()), ok)
    {
      if !flushing {
        return;
      }
      flushing := false;
      if |outcomes| < |sent| {
        outcomes := outcomes + [ok];
        if !ok {
          return;
        }
      }
      if pendingFlush {
        ScheduleUpdate(IMMEDIATE);
      }
    }

    method TimerDue()
      modifies this
      ensures State() == FireTimer(old(State()))
    {
      if flushDelay.Some? {
        flushDelay := None;
        BeginEmit();
      }
    }

    method FinishDrain()
      modifies this
      ensures State() == DrainTail(old(State()))
    {
      if pendingFlush || dirty {
        flushDelay := None;
        BeginEmit();
      }
    }

    /** A new assistant message on a stream just reset: its context, and its opening boundary. */
    method OpenMessage()
      modifies this
      ensures State() == Schedule(old(State()).(context := true, pendingBoundary := true), IMMEDIATE)
      ensures old(State()) == Fresh(false) ==> State() == Restart(true)
    {
      context := true;
      pendingBoundary := true;
      ScheduleUpdate(IMMEDIATE);
    }
  }
}
