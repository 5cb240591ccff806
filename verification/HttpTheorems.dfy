/** What the attach-mode loop guarantees over whole streams. */
module HttpTheorems {
  import opened Common
  import opened DriverEvents
  import opened Text
  import opened HttpAttach

  // ---------------------------------------------------------------------
  // Chunk independence
  // ---------------------------------------------------------------------

  function Concat(texts: seq<string>): string {
    if texts == [] then "" else Concat(Front(texts)) + Last(texts)
  }

  /** How many server events a text completes when it joins the buffer. */
  function EventCount(decode: string -> Option<OcEvent>, buffer: string, text: string): nat {
    |EventsIn(decode, SplitFrames(buffer + text).0)|
  }

  /** A stream cut into chunks, with interrupts landing before the same events. */
  function Chunks(decode: string -> Option<OcEvent>, buffer: string, texts: seq<string>, tries: set<nat>)
    : seq<Stimulus>
  {
    if texts == [] then []
    else
      Chunks(decode, buffer, Front(texts), tries)
      + [Chunk(Last(texts), Shift(tries, EventCount(decode, buffer, Concat(Front(texts)))))]
  }

  /** Two chunks in a row leave the loop exactly where their concatenation would,
      with interrupts landing before the same events. */
  lemma TwoChunksAreOne(decode: string -> Option<OcEvent>, sid: string, s: State, first: string, second: string,
                        tries: set<nat>)
    ensures var n := EventCount(decode, s.buffer, first);
            Step(decode, sid, Step(decode, sid, s, Chunk(first, tries)), Chunk(second, Shift(tries, n)))
            == Step(decode, sid, s, Chunk(first + second, tries))
  {
    hide SplitFrames, EventsIn, Mixed, Translate;
    if s.running {
      var (f1, r1) := SplitFrames(s.buffer + first);
      var (f2, r2) := SplitFrames(r1 + second);
      SplitFramesConcat(s.buffer + first, second);
      assert s.buffer + first + second == s.buffer + (first + second);
      EventsInConcat(decode, f1, f2);
      var e1, e2 := EventsIn(decode, f1), EventsIn(decode, f2);
      var m1, m2 := Mixed(e1, 0, tries), Mixed(e2, |e1|, tries);
      MixedConcat(e1, e2, 0, tries);
      MixedShift(e2, 0, |e1|, tries);
      TranslateIgnoresBuffer(s, m1, sid, r1);
      TranslateIgnoresBuffer(s, m1, sid, r2);
      TranslateConcat(s.(buffer := r2), m1, m2, sid);
    }
  }

  lemma LeftoverHoldsNoBreak(decode: string -> Option<OcEvent>, sid: string, s: State, text: string, tries: set<nat>)
    requires Find(s.buffer, BREAK).None?
    ensures Find(Step(decode, sid, s, Chunk(text, tries)).buffer, BREAK).None?
  {
    if s.running {
      var (frames, rest) := SplitFrames(s.buffer + text);
      SplitFramesIsExact(s.buffer + text);
      TranslateIgnoresBuffer(s, Mixed(EventsIn(decode, frames), 0, tries), sid, rest);
    }
  }

  /** Only the text matters: however a stream is cut into chunks, the loop ends
      in the same state, having emitted the same events, as if all of it had
      come at once, wherever among the events the interrupts land; and between
      chunks the buffer never holds a break. */
  lemma {:induction false} ChunkingIsInvisible(decode: string -> Option<OcEvent>, sid: string, s: State,
                                               texts: seq<string>, tries: set<nat>)
    requires Find(s.buffer, BREAK).None?
    ensures Run(decode, sid, s, Chunks(decode, s.buffer, texts, tries))
            == Step(decode, sid, s, Chunk(Concat(texts), tries))
    ensures Find(Run(decode, sid, s, Chunks(decode, s.buffer, texts, tries)).buffer, BREAK).None?
  {
    if texts == [] {
      assert s.buffer + "" == s.buffer;
    } else {
      var n := EventCount(decode, s.buffer, Concat(Front(texts)));
      SnocParts(Chunks(decode, s.buffer, Front(texts), tries), Chunk(Last(texts), Shift(tries, n)));
      ChunkingIsInvisible(decode, sid, s, Front(texts), tries);
      TwoChunksAreOne(decode, sid, s, Concat(Front(texts)), Last(texts), tries);
    }
    LeftoverHoldsNoBreak(decode, sid, s, Concat(texts), tries);
  }

  // ---------------------------------------------------------------------
  // Translation, read off the history instead of the loop's memory
  // ---------------------------------------------------------------------

  predicate Own(item: Item, sid: string) {
    item.Seen? && item.event.sessionId == Some(sid)
  }

  predicate OwnKind(item: Item, sid: string, kind: string) {
    Own(item, sid) && item.event.kind == kind
  }

  /** The role last announced for a message in this session. */
  function LatestRole(items: seq<Item>, sid: string, message: string): Option<string> {
    if items == [] then None
    else
      var last := Last(items);
      if OwnKind(last, sid, "message.updated") && last.event.info.Some? && last.event.info.value.id == message
      then Some(last.event.info.value.role)
      else LatestRole(Front(items), sid, message)
  }

  /** An interrupt was tried since the last `session.idle` of this session. */
  predicate InterruptedSinceIdle(items: seq<Item>, sid: string) {
    items != [] && !OwnKind(Last(items), sid, "session.idle")
    && (Last(items).InterruptTried? || InterruptedSinceIdle(Front(items), sid))
  }

  /** The id the latest poll found, if it found anything. */
  function LatestFound(items: seq<Item>): Option<string> {
    if items == [] then None
    else if Last(items).Polled? then BlockId(Last(items).found)
    else LatestFound(Front(items))
  }

  /** What the poll found at which the pending id last changed. */
  function LatestChange(items: seq<Item>): Option<PendingBlock> {
    if items == [] then None
    else if Last(items).Polled? && BlockId(Last(items).found) != LatestFound(Front(items)) then Last(items).found
    else LatestChange(Front(items))
  }

  /** Whether an item is assistant text, given what came before it. */
  predicate IsAssistantText(before: seq<Item>, item: Item, sid: string) {
    && OwnKind(item, sid, "message.part.updated")
    && item.event.part.Some? && item.event.part.value.kind == "text" && item.event.part.value.text.Some?
    && LatestRole(before, sid, item.event.part.value.messageId) == Some("assistant")
  }

  /** What one more item calls for, given the history. */
  function CalledFor(before: seq<Item>, item: Item, sid: string): seq<DriverEvent> {
    if IsAssistantText(before, item, sid) then [Update(item.event.part.value.text.value)]
    else if OwnKind(item, sid, "session.status") && item.event.status == Some("busy") then [Status(Working)]
    else if OwnKind(item, sid, "session.idle") then
      [Status(Idle)] + [StopReason(if InterruptedSinceIdle(before, sid) then Cancelled else EndTurn)]
    else if item.PromptPosted? then [Status(Working)]
    else if item.Polled? && BlockId(item.found) != LatestFound(before) then
      [Status(if item.found.Some? then Blocked else Working)]
    else []
  }

  /** The events a history calls for. */
  function Expected(items: seq<Item>, sid: string): seq<DriverEvent> {
    if items == [] then [] else Expected(Front(items), sid) + CalledFor(Front(items), Last(items), sid)
  }

  /** The loop's memory is a summary of the history. */
  ghost predicate Summarises(s: State, items: seq<Item>, sid: string) {
    && (s.interrupted <==> InterruptedSinceIdle(items, sid))
    && BlockId(s.pending) == LatestFound(items) && s.pending == LatestChange(items)
    && (forall message ::
          LatestRole(items, sid, message) == if message in s.roles then Some(s.roles[message]) else None)
  }

  /** What was emitted is what the history calls for, nothing more or less. */
  ghost predicate Follows(s: State, items: seq<Item>, sid: string) {
    s.emitted == Expected(items, sid) && Summarises(s, items, sid)
  }

  lemma SeenSummarised(s: State, items: seq<Item>, e: OcEvent, sid: string)
    requires Summarises(s, items, sid) && e.sessionId == Some(sid)
    ensures Summarises(HandleEvent(s, e), items + [Seen(e)], sid)
  {
    SnocParts(items, Seen(e));
    HandleEventIgnoresBuffer(s, e, s.buffer);
  }

  lemma ItemSummarised(s: State, items: seq<Item>, item: Item, sid: string)
    requires Summarises(s, items, sid)
    ensures Summarises(AfterItem(s, item, sid), items + [item], sid)
  {
    SnocParts(items, item);
    if Own(item, sid) {
      SeenSummarised(s, items, item.event, sid);
    }
  }

  lemma SeenEmits(s: State, items: seq<Item>, e: OcEvent, sid: string)
    requires Summarises(s, items, sid) && e.sessionId == Some(sid)
    ensures HandleEvent(s, e).emitted == s.emitted + CalledFor(items, Seen(e), sid)
  {
    ConcatAssociates(s.emitted, [], []);
    if KindOf(e.kind) == SessionIdle {
      ConcatAssociates(s.emitted, [Status(Idle)], [StopReason(if s.interrupted then Cancelled else EndTurn)]);
    } else if KindOf(e.kind) == PartUpdated && e.part.Some? {
      var id := e.part.value.messageId;
      assert LatestRole(items, sid, id) == if id in s.roles then Some(s.roles[id]) else None;
    }
  }

  /** What one item adds is what the history so far calls for. */
  lemma ItemFollows(s: State, items: seq<Item>, item: Item, sid: string)
    requires Follows(s, items, sid)
    ensures Follows(AfterItem(s, item, sid), items + [item], sid)
  {
    ItemSummarised(s, items, item, sid);
    SnocParts(items, item);
    ConcatAssociates(s.emitted, [], []);
    if Own(item, sid) {
      SeenEmits(s, items, item.event, sid);
    }
  }

  /** For every interleaving of server events, interrupts, prompts and polls:
      what is emitted is what the history calls for. Updates are exactly the text
      parts whose message was last announced as the assistant's, and each own
      `session.idle` gives one `Idle` and then one stop reason, `Cancelled` iff
      an interrupt was tried since the previous one. */
  lemma {:induction false} TranslationFollowsHistory(items: seq<Item>, sid: string)
    ensures Follows(Translate(START, items, sid), items, sid)
  {
    if items != [] {
      TranslationFollowsHistory(Front(items), sid);
      ItemFollows(Translate(START, Front(items), sid), Front(items), Last(items), sid);
      assert Front(items) + [Last(items)] == items;
    }
  }

  function OwnItems(items: seq<Item>, sid: string): seq<Item> {
    if items == [] then []
    else if Last(items).Seen? && !Own(Last(items), sid) then OwnItems(Front(items), sid)
    else OwnItems(Front(items), sid) + [Last(items)]
  }

  /** Other sessions' events can be deleted from the stream unnoticed. */
  lemma {:induction false} OtherSessionsAreInvisible(items: seq<Item>, sid: string)
    ensures Expected(OwnItems(items, sid), sid) == Expected(items, sid)
    ensures Translate(START, OwnItems(items, sid), sid) == Translate(START, items, sid)
  {
    if items != [] {
      OtherSessionsAreInvisible(Front(items), sid);
      if !(Last(items).Seen? && !Own(Last(items), sid)) {
        SnocParts(OwnItems(Front(items), sid), Last(items));
      }
    }
    TranslationFollowsHistory(items, sid);
    TranslationFollowsHistory(OwnItems(items, sid), sid);
  }

  function Idles(items: seq<Item>, sid: string): nat {
    if items == [] then 0 else Idles(Front(items), sid) + if OwnKind(Last(items), sid, "session.idle") then 1 else 0
  }

  /** Every stop reason comes right after an `Idle`. */
  ghost predicate StopsFollowIdle(events: seq<DriverEvent>) {
    forall i :: 0 <= i < |events| && events[i].StopReason? ==> i > 0 && events[i - 1] == Status(Idle)
  }

  lemma OneIdlePair(before: seq<DriverEvent>, reason: DriverStopReason)
    requires StopsFollowIdle(before)
    ensures StopsFollowIdle(before + ([Status(Idle)] + [StopReason(reason)]))
    ensures StopReasons(before + ([Status(Idle)] + [StopReason(reason)])) == StopReasons(before) + 1
  {
    var pair := [Status(Idle)] + [StopReason(reason)];
    StopReasonsConcat(before, pair);
    assert Front(pair) == [Status(Idle)] && Front([Status(Idle)]) == [];
  }

  lemma NothingStops()
    ensures StopsFollowIdle([]) && StopReasons([]) == 0
  {
  }

  lemma OneOther(before: seq<DriverEvent>, event: DriverEvent)
    requires StopsFollowIdle(before) && !event.StopReason?
    ensures StopsFollowIdle(before + [event]) && StopReasons(before + [event]) == StopReasons(before)
  {
    SnocParts(before, event);
  }

  /** What an item calls for, as far as stop reasons go. */
  lemma CalledForStops(before: seq<Item>, item: Item, sid: string)
    ensures var called := CalledFor(before, item, sid);
            if OwnKind(item, sid, "session.idle")
            then called == [Status(Idle)]
                           + [StopReason(if InterruptedSinceIdle(before, sid) then Cancelled else EndTurn)]
            else called == [] || (called == [called[0]] && !called[0].StopReason?)
  {
    hide LatestRole, LatestFound, InterruptedSinceIdle;
  }

  /** A history calls for one stop reason per `session.idle`, each right after an
      `Idle`. */
  lemma {:induction false} IdleThenStop(items: seq<Item>, sid: string)
    ensures StopReasons(Expected(items, sid)) == Idles(items, sid)
    ensures StopsFollowIdle(Expected(items, sid))
  {
    if items != [] {
      hide CalledFor, InterruptedSinceIdle, StopsFollowIdle, StopReasons, OwnKind;
      IdleThenStop(Front(items), sid);
      var before, called := Expected(Front(items), sid), CalledFor(Front(items), Last(items), sid);
      CalledForStops(Front(items), Last(items), sid);
      ConcatAssociates(before, [], []);
      if OwnKind(Last(items), sid, "session.idle") {
        OneIdlePair(before, if InterruptedSinceIdle(Front(items), sid) then Cancelled else EndTurn);
      } else if called != [] {
        OneOther(before, called[0]);
      }
    } else {
      NothingStops();
    }
  }

  // ---------------------------------------------------------------------
  // The whole loop
  // ---------------------------------------------------------------------

  /** The items one stimulus brings a running loop. */
  function ItemsAdded(decode: string -> Option<OcEvent>, sid: string, s: State, stimulus: Stimulus): seq<Item> {
    match stimulus
    case Interrupt => [InterruptTried]
    case Prompt(true) => [PromptPosted]
    case Poll(questions, permissions) => [Polled(Found(sid, questions, permissions))]
    case Chunk(text, tries) => Mixed(EventsIn(decode, SplitFrames(s.buffer + text).0), 0, tries)
    case _ => []
  }

  /** The items a run of the loop meets. */
  function ItemsOf(decode: string -> Option<OcEvent>, sid: string, script: seq<Stimulus>): seq<Item> {
    if script == [] then []
    else
      var earlier := ItemsOf(decode, sid, Front(script));
      var s := Run(decode, sid, START, Front(script));
      if s.running then earlier + ItemsAdded(decode, sid, s, Last(script)) else earlier
  }

  lemma {:induction false} ItemsFollow(s: State, items: seq<Item>, more: seq<Item>, sid: string)
    requires Follows(s, items, sid)
    ensures Follows(Translate(s, more, sid), items + more, sid)
  {
    hide Follows, AfterItem;
    if more == [] {
      ConcatAssociates(items, [], []);
    } else {
      ItemsFollow(s, items, Front(more), sid);
      ItemFollows(Translate(s, Front(more), sid), items + Front(more), Last(more), sid);
      ConcatAssociates(items, Front(more), [Last(more)]);
      assert more == Front(more) + [Last(more)];
    }
  }

  lemma ChunkFollows(decode: string -> Option<OcEvent>, sid: string, s: State, items: seq<Item>, text: string,
                     tries: set<nat>)
    requires Follows(s, items, sid)
    ensures Follows(Drain(decode, sid, s.(buffer := s.buffer + text), 0, tries),
                    items + Mixed(EventsIn(decode, SplitFrames(s.buffer + text).0), 0, tries), sid)
  {
    var (frames, rest) := SplitFrames(s.buffer + text);
    assert Follows(s.(buffer := rest), items, sid);
    ItemsFollow(s.(buffer := rest), items, Mixed(EventsIn(decode, frames), 0, tries), sid);
  }

  /** Ending the loop adds nothing. */
  lemma EndFollows(decode: string -> Option<OcEvent>, sid: string, s: State, items: seq<Item>, stimulus: Stimulus)
    requires s.running && Follows(s, items, sid)
    requires stimulus.HandleDropped? || stimulus.StreamEnded? || stimulus == Prompt(false)
    ensures Follows(Step(decode, sid, s, stimulus), items, sid) && ItemsAdded(decode, sid, s, stimulus) == []
  {
  }

  lemma StepFollows(decode: string -> Option<OcEvent>, sid: string, s: State, items: seq<Item>, stimulus: Stimulus)
    requires s.running && Follows(s, items, sid)
    ensures Follows(Step(decode, sid, s, stimulus), items + ItemsAdded(decode, sid, s, stimulus), sid)
  {
    match stimulus
    case Chunk(text, tries) => ChunkFollows(decode, sid, s, items, text, tries);
    case Interrupt => ItemFollows(s, items, InterruptTried, sid);
    case Poll(questions, permissions) => ItemFollows(s, items, Polled(Found(sid, questions, permissions)), sid);
    case Prompt(true) => ItemFollows(s, items, PromptPosted, sid);
    case _ =>
      EndFollows(decode, sid, s, items, stimulus);
      ConcatAssociates(items, [], []);
  }

  /** Over any run of the loop, prompts, polls, interrupts and chunks in any
      order, the events emitted, statuses and all, are exactly those its history
      calls for, and its memory is a summary of that history. */
  lemma {:induction false} LoopFollowsHistory(decode: string -> Option<OcEvent>, sid: string, script: seq<Stimulus>)
    ensures Follows(Run(decode, sid, START, script), ItemsOf(decode, sid, script), sid)
  {
    if script != [] {
      LoopFollowsHistory(decode, sid, Front(script));
      var s := Run(decode, sid, START, Front(script));
      if s.running {
        StepFollows(decode, sid, s, ItemsOf(decode, sid, Front(script)), Last(script));
      }
    }
  }

  /** So in what the whole loop emits there is one stop reason per own
      `session.idle`, each right after its `Idle`, whatever runs in between. */
  lemma {:induction false} LoopPairsIdleWithStop(decode: string -> Option<OcEvent>, sid: string, script: seq<Stimulus>)
    ensures var emitted := Run(decode, sid, START, script).emitted;
            StopsFollowIdle(emitted) && StopReasons(emitted) == Idles(ItemsOf(decode, sid, script), sid)
  {
    LoopFollowsHistory(decode, sid, script);
    IdleThenStop(ItemsOf(decode, sid, script), sid);
  }

  // ---------------------------------------------------------------------
  // Block polling
  // ---------------------------------------------------------------------

  /** What the polls of a run found while the loop was up. */
  function Findings(decode: string -> Option<OcEvent>, sid: string, script: seq<Stimulus>): seq<Option<PendingBlock>> {
    if script == [] then []
    else
      var earlier := Findings(decode, sid, Front(script));
      match Last(script)
      case Poll(questions, permissions) =>
        if !Run(decode, sid, START, Front(script)).running then earlier
        else earlier + [Found(sid, questions, permissions)]
      case _ => earlier
  }

  /** What the polls of a run added to the events emitted. */
  function PollsSaid(decode: string -> Option<OcEvent>, sid: string, script: seq<Stimulus>): seq<DriverEvent> {
    if script == [] then []
    else
      var before := Run(decode, sid, START, Front(script)).emitted;
      var after := Run(decode, sid, START, script).emitted;
      PollsSaid(decode, sid, Front(script))
      + if Last(script).Poll? && |before| <= |after| then after[|before|..] else []
  }

  function LatestId(findings: seq<Option<PendingBlock>>): Option<string> {
    if findings == [] then None else BlockId(Last(findings))
  }

  /** One status for each finding whose id differs from the one before it. */
  function Transitions(findings: seq<Option<PendingBlock>>): seq<DriverEvent> {
    if findings == [] then []
    else if LatestId(Front(findings)) == BlockId(Last(findings)) then Transitions(Front(findings))
    else Transitions(Front(findings)) + [Status(if Last(findings).Some? then Blocked else Working)]
  }

  /** Two polled `Working`s never follow each other. */
  ghost predicate NoTwoWorkings(events: seq<DriverEvent>) {
    forall i :: 0 < i < |events| ==> events[i - 1] != Status(Working) || events[i] != Status(Working)
  }

  lemma {:induction false} TransitionsAlternate(findings: seq<Option<PendingBlock>>)
    ensures LatestId(findings).None? <==> Transitions(findings) == [] || Last(Transitions(findings)) == Status(Working)
    ensures NoTwoWorkings(Transitions(findings))
  {
    if findings != [] {
      TransitionsAlternate(Front(findings));
    }
  }

  /** What one step does to the pending id and, if it is a poll, to the events. */
  lemma PollStepSays(decode: string -> Option<OcEvent>, sid: string, s: State, stimulus: Stimulus)
    requires s.running
    ensures var t := Step(decode, sid, s, stimulus);
            match stimulus
            case Poll(questions, permissions) =>
              var found := Found(sid, questions, permissions);
              && BlockId(t.pending) == BlockId(found)
              && t.emitted == s.emitted + if BlockId(s.pending) == BlockId(found) then []
                                          else [Status(if found.Some? then Blocked else Working)]
            case _ => t.pending == s.pending
  {
    ConcatAssociates(s.emitted, [], []);
    if stimulus.Chunk? {
      var (frames, rest) := SplitFrames(s.buffer + stimulus.text);
      MixedKeepsPending(s.(buffer := rest), EventsIn(decode, frames), 0, stimulus.tries, sid);
    }
  }

  /** Over any run of the loop, whatever runs between the polls, exactly one
      status is emitted by a poll per change of the pending id, the stored id is
      always the latest one found, and two polled `Working`s never follow each
      other. */
  lemma {:induction false} PollsEmitTransitions(decode: string -> Option<OcEvent>, sid: string, script: seq<Stimulus>)
    ensures PollsSaid(decode, sid, script) == Transitions(Findings(decode, sid, script))
    ensures BlockId(Run(decode, sid, START, script).pending) == LatestId(Findings(decode, sid, script))
    ensures NoTwoWorkings(PollsSaid(decode, sid, script))
  {
    TransitionsAlternate(Findings(decode, sid, script));
    if script != [] {
      PollsEmitTransitions(decode, sid, Front(script));
      var s := Run(decode, sid, START, Front(script));
      var said, findings := PollsSaid(decode, sid, Front(script)), Findings(decode, sid, Front(script));
      ConcatAssociates(said, [], []);
      if s.running {
        PollStepSays(decode, sid, s, Last(script));
        if Last(script).Poll? {
          SnocParts(findings, Found(sid, Last(script).questions, Last(script).permissions));
        }
      }
    }
  }

  /** In the full loop the stored id is the latest poll's, whatever else runs. */
  lemma {:induction false} PendingIdIsLatest(decode: string -> Option<OcEvent>, sid: string, script: seq<Stimulus>,
                                             questions: Option<seq<QuestionRequest>>,
                                             permissions: Option<seq<PermissionRequest>>,
                                             later: seq<Stimulus>)
    requires Run(decode, sid, START, script).running
    requires forall i :: 0 <= i < |later| ==> !later[i].Poll?
    ensures BlockId(Run(decode, sid, START, script + [Poll(questions, permissions)] + later).pending)
            == BlockId(Found(sid, questions, permissions))
  {
    var head := script + [Poll(questions, permissions)];
    SnocParts(script, Poll(questions, permissions));
    if later == [] {
      assert head + later == head;
    } else {
      PendingIdIsLatest(decode, sid, script, questions, permissions, Front(later));
      var all := head + later;
      assert all == (head + Front(later)) + [Last(later)];
      SnocParts(head + Front(later), Last(later));
      var s := Run(decode, sid, START, head + Front(later));
      if s.running && Last(later).Chunk? {
        var (frames, rest) := SplitFrames(s.buffer + Last(later).text);
        MixedKeepsPending(s.(buffer := rest), EventsIn(decode, frames), 0, Last(later).tries, sid);
      }
    }
  }

  predicate SpeaksStatus(e: OcEvent, sid: string) {
    && e.sessionId == Some(sid)
    && (e.kind == "session.idle" || (e.kind == "session.status" && e.status == Some("busy")))
  }

  /** Some status of this session's own is among the events. */
  predicate SomeStatus(events: seq<OcEvent>, sid: string) {
    events != [] && (SpeaksStatus(Last(events), sid) || SomeStatus(Front(events), sid))
  }

  /** Whether a status of another origin now hides what the polls found. */
  predicate OverriddenBy(decode: string -> Option<OcEvent>, sid: string, s: State, stimulus: Stimulus, earlier: bool) {
    if !s.running then earlier
    else match stimulus
      case Poll(questions, permissions) => earlier && BlockId(s.pending) == BlockId(Found(sid, questions, permissions))
      case Prompt(posted) => earlier || posted
      case Chunk(text, _) => earlier || SomeStatus(EventsIn(decode, SplitFrames(s.buffer + text).0), sid)
      case _ => earlier
  }

  /** Since the poll that last changed the pending id, a prompt was posted or
      the session reported itself busy or idle. */
  predicate Overridden(decode: string -> Option<OcEvent>, sid: string, script: seq<Stimulus>) {
    && script != []
    && OverriddenBy(decode, sid, Run(decode, sid, START, Front(script)), Last(script),
                    Overridden(decode, sid, Front(script)))
  }

  lemma IdleBlocks(emitted: seq<DriverEvent>, reason: DriverStopReason)
    ensures !FoldBlocked(emitted + [Status(Idle)] + [StopReason(reason)], false)
  {
    FoldBlockedSnoc(emitted, Status(Idle), false);
    FoldBlockedSnoc(emitted + [Status(Idle)], StopReason(reason), false);
  }

  lemma EventBlocks(s: State, e: OcEvent, sid: string)
    requires e.sessionId == Some(sid)
    ensures FoldBlocked(HandleEvent(s, e).emitted, false) == (FoldBlocked(s.emitted, false) && !SpeaksStatus(e, sid))
  {
    hide FoldBlocked;
    match KindOf(e.kind)
    case PartUpdated =>
      if e.part.Some? && e.part.value.text.Some? {
        FoldBlockedSnoc(s.emitted, Update(e.part.value.text.value), false);
      }
    case SessionStatus => FoldBlockedSnoc(s.emitted, Status(Working), false);
    case SessionIdle => IdleBlocks(s.emitted, if s.interrupted then Cancelled else EndTurn);
    case _ =>
  }

  lemma TryBlocksNothing(s: State, items: seq<Item>, k: nat, tries: set<nat>, sid: string)
    ensures Translate(s, items + Tried(k, tries), sid).emitted == Translate(s, items, sid).emitted
  {
    ConcatAssociates(items, [], []);
    SnocParts(items, InterruptTried);
  }

  lemma {:induction false} EventsBlock(s: State, events: seq<OcEvent>, tries: set<nat>, sid: string)
    ensures FoldBlocked(Translate(s, Mixed(events, 0, tries), sid).emitted, false)
            == (FoldBlocked(s.emitted, false) && !SomeStatus(events, sid))
  {
    if events != [] {
      var earlier, k := Mixed(Front(events), 0, tries), |Front(events)|;
      EventsBlock(s, Front(events), tries, sid);
      TryBlocksNothing(s, earlier, k, tries, sid);
      SnocParts(earlier + Tried(k, tries), Seen(Last(events)));
      if Last(events).sessionId == Some(sid) {
        EventBlocks(Translate(s, earlier + Tried(k, tries), sid), Last(events), sid);
      }
    }
  }

  ghost predicate ReadsBlocked(s: State, overridden: bool) {
    FoldBlocked(s.emitted, false) <==> s.pending.Some? && !overridden
  }

  lemma PollBlocks(s: State, found: Option<PendingBlock>, earlier: bool)
    requires ReadsBlocked(s, earlier)
    ensures ReadsBlocked(PollStep(s, found), earlier && BlockId(s.pending) == BlockId(found))
  {
    FoldBlockedSnoc(s.emitted, Status(if found.Some? then Blocked else Working), false);
  }

  lemma ChunkBlocks(decode: string -> Option<OcEvent>, sid: string, s: State, text: string, tries: set<nat>,
                    earlier: bool)
    requires ReadsBlocked(s, earlier)
    ensures ReadsBlocked(Drain(decode, sid, s.(buffer := s.buffer + text), 0, tries),
                         earlier || SomeStatus(EventsIn(decode, SplitFrames(s.buffer + text).0), sid))
  {
    var (frames, rest) := SplitFrames(s.buffer + text);
    var events := EventsIn(decode, frames);
    EventsBlock(s.(buffer := rest), events, tries, sid);
    MixedKeepsPending(s.(buffer := rest), events, 0, tries, sid);
  }

  lemma StepBlocks(decode: string -> Option<OcEvent>, sid: string, s: State, stimulus: Stimulus, earlier: bool)
    requires ReadsBlocked(s, earlier)
    ensures ReadsBlocked(Step(decode, sid, s, stimulus), OverriddenBy(decode, sid, s, stimulus, earlier))
  {
    if s.running {
      match stimulus
      case Prompt(_) => FoldBlockedSnoc(s.emitted, Status(Working), false);
      case Chunk(text, tries) => ChunkBlocks(decode, sid, s, text, tries, earlier);
      case Poll(questions, permissions) => PollBlocks(s, Found(sid, questions, permissions), earlier);
      case _ =>
    }
  }

  /** What the manager is told: the session reads as blocked exactly when
      something is pending and nothing has overridden it since it was found. */
  lemma {:induction false} BlockedIffPendingUnspoken(decode: string -> Option<OcEvent>, sid: string,
                                                     script: seq<Stimulus>)
    ensures var s := Run(decode, sid, START, script);
            FoldBlocked(s.emitted, false) <==> s.pending.Some? && !Overridden(decode, sid, script)
  {
    if script != [] {
      BlockedIffPendingUnspoken(decode, sid, Front(script));
      StepBlocks(decode, sid, Run(decode, sid, START, Front(script)), Last(script),
                 Overridden(decode, sid, Front(script)));
    }
  }

  /** In attach mode `Working` does not mean unblocked: a prompt sent while a
      question is pending announces `Working` and leaves it pending. */
  lemma WorkingWhilePending(decode: string -> Option<OcEvent>, sid: string, question: QuestionRequest)
    requires question.sessionId == sid && question.asks != []
    ensures var s := Run(decode, sid, START, [Poll(Some([question]), None), Prompt(true)]);
            s.emitted == [Status(Blocked), Status(Working)] && s.pending.Some?
  {
    var p, q := Poll(Some([question]), None), Prompt(true);
    assert Front([p, q]) == [p] && Front([p]) == [];
    assert Run(decode, sid, START, []) == START;
    assert Run(decode, sid, START, [p]) == Step(decode, sid, START, p);
  }
}
