/** The attach-mode driver's background loop: event-stream framing, event
    translation and block polling (src/http_attach_driver.rs). */
module HttpAttach {
  import opened Common
  import opened DriverEvents
  import opened Text

  const BREAK := "\n\n"
  const DATA := "data: "

  datatype MessageInfo = MessageInfo(id: string, role: string)

  datatype Part = Part(kind: string, text: Option<string>, messageId: string)

  /** The fields of a server event this driver looks at. */
  datatype OcEvent = OcEvent(
    kind: string,
    sessionId: Option<string>,
    info: Option<MessageInfo>,
    part: Option<Part>,
    status: Option<string>)

  datatype BlockKind = Question | Permission

  datatype PendingBlock = PendingBlock(kind: BlockKind, id: string, options: seq<seq<string>>)

  /** An entry of the question or the permission list. */
  datatype Request<+T> = Request(id: string, sessionId: string, asks: T)

  /** A question request asks for one label out of each list of options. */
  type QuestionRequest = Request<seq<seq<string>>>

  type PermissionRequest = Request<()>

  /** What the loop can take next. `Interrupt` is the shared flag being set by
      an interrupt call between two firings; while a chunk is being drained the
      flag can be set as well, just before the events numbered in `tries`. The
      two lists are `None` when the request failed. */
  datatype Stimulus =
    | Prompt(posted: bool)
    | HandleDropped
    | Chunk(text: string, tries: set<nat>)
    | StreamEnded
    | Poll(questions: Option<seq<QuestionRequest>>, permissions: Option<seq<PermissionRequest>>)
    | Interrupt

  datatype State = State(
    buffer: string,
    roles: map<string, string>,
    interrupted: bool,
    pending: Option<PendingBlock>,
    emitted: seq<DriverEvent>,
    running: bool)

  const START := State("", map[], false, None, [], true)

  // ---------------------------------------------------------------------
  // Framing
  // ---------------------------------------------------------------------

  /** All complete frames of a text, and what is left after the last break. */
  function SplitFrames(buffer: string): (seq<string>, string)
    decreases |buffer|
  {
    match Find(buffer, BREAK)
    case None => ([], buffer)
    case Some(at) =>
      var (frames, rest) := SplitFrames(buffer[at + 2..]);
      ([buffer[..at]] + frames, rest)
  }

  lemma FirstBreakPersists(buffer: string, more: string)
    requires Find(buffer, BREAK).Some?
    ensures Find(buffer + more, BREAK) == Find(buffer, BREAK)
  {
    FindIsFirst(buffer, BREAK);
    var at := Find(buffer, BREAK).value;
    var whole := buffer + more;
    assert whole[at..at + 2] == buffer[at..at + 2];
    forall i: nat | i < at ensures !OccursAt(whole, BREAK, i) {
      assert !OccursAt(buffer, BREAK, i) && whole[i..i + 2] == buffer[i..i + 2];
    }
    FindUnique(whole, BREAK, at);
  }

  /** Cutting one frame off the front. */
  lemma SplitFramesStep(buffer: string)
    requires Find(buffer, BREAK).Some?
    ensures var at := Find(buffer, BREAK).value;
            && SplitFrames(buffer).0 == [buffer[..at]] + SplitFrames(buffer[at + 2..]).0
            && SplitFrames(buffer).1 == SplitFrames(buffer[at + 2..]).1
  {
  }

  /** A break found in the first part is cut the same way in the whole. */
  lemma CutsAlike(buffer: string, more: string)
    requires Find(buffer, BREAK).Some?
    ensures var at := Find(buffer, BREAK).value;
            && SplitFrames(buffer + more).0 == [buffer[..at]] + SplitFrames(buffer[at + 2..] + more).0
            && SplitFrames(buffer + more).1 == SplitFrames(buffer[at + 2..] + more).1
  {
    FirstBreakPersists(buffer, more);
    SplitFramesStep(buffer + more);
    var at := Find(buffer, BREAK).value;
    assert (buffer + more)[..at] == buffer[..at];
    assert (buffer + more)[at + 2..] == buffer[at + 2..] + more;
  }

  /** Splitting more text at once is splitting it in two goes: the breaks of the
      first part stay where they are and its leftover joins the second. */
  lemma {:induction false} SplitFramesConcat(buffer: string, more: string)
    ensures var left := SplitFrames(buffer).1;
            && SplitFrames(buffer + more).0 == SplitFrames(buffer).0 + SplitFrames(left + more).0
            && SplitFrames(buffer + more).1 == SplitFrames(left + more).1
    decreases |buffer|
  {
    if Find(buffer, BREAK).Some? {
      var at := Find(buffer, BREAK).value;
      SplitFramesStep(buffer);
      CutsAlike(buffer, more);
      SplitFramesConcat(buffer[at + 2..], more);
      ConcatAssociates([buffer[..at]], SplitFrames(buffer[at + 2..]).0, SplitFrames(SplitFrames(buffer).1 + more).0);
    } else {
      ConcatAssociates([], [], SplitFrames(buffer + more).0);
    }
  }

  /** Frames put back together, each with its break. */
  function Glue(frames: seq<string>): string {
    if frames == [] then [] else frames[0] + BREAK + Glue(frames[1..])
  }

  lemma GlueCons(frame: string, frames: seq<string>, rest: string)
    ensures Glue([frame] + frames) + rest == frame + BREAK + (Glue(frames) + rest)
  {
    assert ([frame] + frames)[1..] == frames;
    assert frame + BREAK + Glue(frames) + rest == frame + BREAK + (Glue(frames) + rest);
  }

  lemma AroundBreak(buffer: string)
    requires Find(buffer, BREAK).Some?
    ensures var at := Find(buffer, BREAK).value;
            buffer == buffer[..at] + BREAK + buffer[at + 2..]
  {
    FindOccurs(buffer, BREAK);
    SliceAround(buffer, BREAK, Find(buffer, BREAK).value);
  }

  lemma {:induction false} SplitFramesGlue(buffer: string)
    ensures var (frames, rest) := SplitFrames(buffer); Glue(frames) + rest == buffer
    decreases |buffer|
  {
    if Find(buffer, BREAK).Some? {
      AroundBreak(buffer);
      var at := Find(buffer, BREAK).value;
      SplitFramesGlue(buffer[at + 2..]);
      var (frames, rest) := SplitFrames(buffer[at + 2..]);
      GlueCons(buffer[..at], frames, rest);
    } else {
      assert Glue([]) + buffer == buffer;
    }
  }

  /** The text before the first break holds none. */
  lemma HeadHoldsNoBreak(buffer: string)
    requires Find(buffer, BREAK).Some?
    ensures Find(buffer[..Find(buffer, BREAK).value], BREAK).None?
  {
    var at := Find(buffer, BREAK).value;
    FindIsFirst(buffer, BREAK);
    FindIsFirst(buffer[..at], BREAK);
    forall i: nat | OccursAt(buffer[..at], BREAK, i) ensures OccursAt(buffer, BREAK, i) {
      assert buffer[..at][i..i + 2] == buffer[i..i + 2];
    }
  }

  lemma {:induction false} SplitFramesHoldNoBreak(buffer: string)
    ensures var (frames, rest) := SplitFrames(buffer);
            Find(rest, BREAK).None? && forall i :: 0 <= i < |frames| ==> Find(frames[i], BREAK).None?
    decreases |buffer|
  {
    if Find(buffer, BREAK).Some? {
      var at := Find(buffer, BREAK).value;
      HeadHoldsNoBreak(buffer);
      SplitFramesHoldNoBreak(buffer[at + 2..]);
    }
  }

  /** No frame and no leftover holds a break, and gluing the frames back with
      their breaks gives the text: splitting loses and invents nothing. */
  lemma SplitFramesIsExact(buffer: string)
    ensures var (frames, rest) := SplitFrames(buffer);
            && Find(rest, BREAK).None?
            && (forall i :: 0 <= i < |frames| ==> Find(frames[i], BREAK).None?)
            && Glue(frames) + rest == buffer
  {
    SplitFramesGlue(buffer);
    SplitFramesHoldNoBreak(buffer);
  }

  // ---------------------------------------------------------------------
  // From frames to events
  // ---------------------------------------------------------------------

  function StripCr(line: string): string {
    if line != [] && Last(line) == '\r' then Front(line) else line
  }

  /** `str::lines`: a carriage return is only dropped before a line feed. */
  function Lines(s: string): seq<string>
    decreases |s|
  {
    if s == [] then []
    else match SplitOnce(s, "\n")
      case None => [s]
      case Some((line, rest)) => [StripCr(line)] + Lines(rest)
  }

  function Unlines(lines: seq<string>, ending: string): string {
    if lines == [] then [] else lines[0] + ending + Unlines(lines[1..], ending)
  }

  lemma LinesFirst(line: string, rest: string)
    requires '\n' !in line
    ensures Lines(line + "\n" + rest) == [StripCr(line)] + Lines(rest)
  {
    SplitOnceChar(line, '\n', rest);
  }

  lemma LinesLast(last: string)
    requires '\n' !in last
    ensures Lines(last) == if last == [] then [] else [last]
  {
    FindNoChar(last, '\n');
  }

  lemma HeadFirst(lines: seq<string>, tail: seq<string>)
    requires lines != []
    ensures [lines[0]] + (lines[1..] + tail) == lines + tail
  {
  }

  lemma NoUnlines(ending: string, last: string)
    ensures Unlines([], ending) + last == last
  {
  }

  lemma UnlinesFirst(lines: seq<string>, ending: string, last: string)
    requires lines != []
    ensures Unlines(lines, ending) + last == lines[0] + ending + (Unlines(lines[1..], ending) + last)
    ensures ending == "\r\n" ==> lines[0] + ending == (lines[0] + "\r") + "\n"
  {
    ConcatAssociates(lines[0] + ending, Unlines(lines[1..], ending), last);
  }

  /** Lines come back whole under either line ending, and so does a last one that
      has no ending of its own. */
  lemma {:induction false} LinesUndoUnlines(lines: seq<string>, ending: string, last: string)
    requires ending == "\n" || ending == "\r\n"
    requires forall i :: 0 <= i < |lines| ==> '\n' !in lines[i] && (lines[i] == [] || Last(lines[i]) != '\r')
    requires '\n' !in last
    ensures Lines(Unlines(lines, ending) + last) == lines + if last == [] then [] else [last]
  {
    hide Lines, Unlines;
    if lines == [] {
      NoUnlines(ending, last);
      LinesLast(last);
    } else {
      UnlinesFirst(lines, ending, last);
      var rest := Unlines(lines[1..], ending) + last;
      LinesFirst(if ending == "\n" then lines[0] else lines[0] + "\r", rest);
      LinesUndoUnlines(lines[1..], ending, last);
      SnocParts(lines[0], '\r');
      HeadFirst(lines, if last == [] then [] else [last]);
    }
  }

  function EventsInLines(decode: string -> Option<OcEvent>, lines: seq<string>): seq<OcEvent> {
    if lines == [] then []
    else
      var earlier := EventsInLines(decode, Front(lines));
      if DATA <= Last(lines) && decode(Last(lines)[|DATA|..]).Some?
      then earlier + [decode(Last(lines)[|DATA|..]).value] else earlier
  }

  function EventsIn(decode: string -> Option<OcEvent>, frames: seq<string>): seq<OcEvent> {
    if frames == [] then []
    else EventsIn(decode, Front(frames)) + EventsInLines(decode, Lines(Last(frames)))
  }

  lemma FramesUnfold(decode: string -> Option<OcEvent>, frames: seq<string>, frame: string)
    ensures EventsIn(decode, frames + [frame]) == EventsIn(decode, frames) + EventsInLines(decode, Lines(frame))
    ensures EventsIn(decode, []) == []
  {
    hide EventsInLines, Lines;
    SnocParts(frames, frame);
  }

  lemma {:induction false} EventsInConcat(decode: string -> Option<OcEvent>, first: seq<string>, second: seq<string>)
    ensures EventsIn(decode, first + second) == EventsIn(decode, first) + EventsIn(decode, second)
  {
    hide EventsIn, EventsInLines, Lines;
    if second == [] {
      FramesUnfold(decode, [], "");
      ConcatAssociates(first, [], []);
      ConcatAssociates(EventsIn(decode, first), [], []);
    } else {
      var front, last := Front(second), Last(second);
      EventsInConcat(decode, first, front);
      ConcatAssociates(first, front, [last]);
      assert second == front + [last];
      FramesUnfold(decode, first + front, last);
      FramesUnfold(decode, front, last);
      ConcatAssociates(EventsIn(decode, first), EventsIn(decode, front), EventsInLines(decode, Lines(last)));
    }
  }

  // ---------------------------------------------------------------------
  // Translation
  // ---------------------------------------------------------------------

  function Emit(s: State, event: DriverEvent): State {
    s.(emitted := s.emitted + [event])
  }

  datatype EventKind = MessageUpdated | PartUpdated | SessionStatus | SessionIdle | OtherKind

  function KindOf(kind: string): EventKind {
    match kind
    case "message.updated" => MessageUpdated
    case "message.part.updated" => PartUpdated
    case "session.status" => SessionStatus
    case "session.idle" => SessionIdle
    case _ => OtherKind
  }

  /** `handle_event`, for an event of this session. */
  function HandleEvent(s: State, e: OcEvent): State {
    match KindOf(e.kind)
    case MessageUpdated =>
      if e.info.Some? then s.(roles := s.roles[e.info.value.id := e.info.value.role]) else s
    case PartUpdated =>
      if e.part.Some? && e.part.value.kind == "text" && e.part.value.messageId in s.roles
         && s.roles[e.part.value.messageId] == "assistant" && e.part.value.text.Some?
      then Emit(s, Update(e.part.value.text.value)) else s
    case SessionStatus =>
      if e.status == Some("busy") then Emit(s, Status(Working)) else s
    case SessionIdle =>
      Emit(Emit(s.(interrupted := false), Status(Idle)), StopReason(if s.interrupted then Cancelled else EndTurn))
    case OtherKind => s
  }

  lemma HandleEventIgnoresBuffer(s: State, e: OcEvent, buffer: string)
    ensures HandleEvent(s.(buffer := buffer), e) == HandleEvent(s, e).(buffer := buffer)
    ensures HandleEvent(s, e).running == s.running && HandleEvent(s, e).pending == s.pending
  {
    match KindOf(e.kind)
    case MessageUpdated =>
    case PartUpdated =>
    case SessionStatus =>
    case SessionIdle =>
    case OtherKind =>
  }

  // ---------------------------------------------------------------------
  // Polling for questions and permissions
  // ---------------------------------------------------------------------

  function FirstFor<T>(requests: seq<Request<T>>, sid: string): Option<Request<T>> {
    if requests == [] then None
    else if requests[0].sessionId == sid then Some(requests[0])
    else FirstFor(requests[1..], sid)
  }

  /** One poll's finding: this session's first question if it asks anything,
      else this session's first permission. */
  function Found(sid: string, questions: Option<seq<QuestionRequest>>, permissions: Option<seq<PermissionRequest>>)
    : Option<PendingBlock>
  {
    var question := if questions.Some? then FirstFor(questions.value, sid) else None;
    var permission := if permissions.Some? then FirstFor(permissions.value, sid) else None;
    if question.Some? && question.value.asks != []
    then Some(PendingBlock(Question, question.value.id, question.value.asks))
    else if permission.Some? then Some(PendingBlock(Permission, permission.value.id, []))
    else None
  }

  /** Entry `k` is this session's first in the list. */
  ghost predicate IsFirstFor<T>(requests: seq<Request<T>>, sid: string, k: nat) {
    k < |requests| && requests[k].sessionId == sid && forall j :: 0 <= j < k ==> requests[j].sessionId != sid
  }

  lemma {:induction false} FirstForMeaning<T>(requests: seq<Request<T>>, sid: string)
    ensures match FirstFor(requests, sid)
            case Some(request) => exists k: nat :: IsFirstFor(requests, sid, k) && requests[k] == request
            case None => forall k: nat :: !IsFirstFor(requests, sid, k)
  {
    if requests == [] {
    } else if requests[0].sessionId == sid {
      assert IsFirstFor(requests, sid, 0);
    } else {
      FirstForMeaning(requests[1..], sid);
      if FirstFor(requests, sid).Some? {
        var k: nat :| IsFirstFor(requests[1..], sid, k) && requests[1..][k] == FirstFor(requests, sid).value;
        assert forall j :: 0 < j < k + 1 ==> requests[j] == requests[1..][j - 1];
        assert IsFirstFor(requests, sid, k + 1);
      } else {
        forall k: nat ensures !IsFirstFor(requests, sid, k) {
          if IsFirstFor(requests, sid, k) {
            assert IsFirstFor(requests[1..], sid, k - 1);
          }
        }
      }
    }
  }

  /** What blocks a session: its first question, if that asks anything; failing
      that its first permission; else nothing. A question that asks nothing
      hides any later one, and a failed request counts as an empty list. */
  lemma FoundMeaning(sid: string, questions: seq<QuestionRequest>, permissions: seq<PermissionRequest>)
    ensures match Found(sid, Some(questions), Some(permissions))
            case Some(PendingBlock(Question, id, options)) =>
              exists k: nat :: IsFirstFor(questions, sid, k) && options != []
                               && questions[k].id == id && questions[k].asks == options
            case Some(PendingBlock(Permission, id, options)) =>
              && (forall k: nat :: IsFirstFor(questions, sid, k) ==> questions[k].asks == [])
              && options == [] && exists k: nat :: IsFirstFor(permissions, sid, k) && permissions[k].id == id
            case None =>
              && (forall k: nat :: IsFirstFor(questions, sid, k) ==> questions[k].asks == [])
              && forall k: nat :: !IsFirstFor(permissions, sid, k)
    ensures Found(sid, None, Some(permissions)) == Found(sid, Some([]), Some(permissions))
    ensures Found(sid, Some(questions), None) == Found(sid, Some(questions), Some([]))
  {
    FirstForMeaning(questions, sid);
    FirstForMeaning(permissions, sid);
    forall i: nat, j: nat | IsFirstFor(questions, sid, i) && IsFirstFor(questions, sid, j) ensures i == j {
    }
  }

  function BlockId(block: Option<PendingBlock>): Option<string> {
    if block.Some? then Some(block.value.id) else None
  }

  /** `poll_pending_block`, once the two lists are in. */
  function PollStep(s: State, found: Option<PendingBlock>): State {
    if BlockId(s.pending) == BlockId(found) then s
    else Emit(s.(pending := found), Status(if found.Some? then Blocked else Working))
  }

  // ---------------------------------------------------------------------
  // Everything the loop meets, one item at a time
  // ---------------------------------------------------------------------

  /** What the loop meets, in order: server events read, interrupts attempted,
      prompts posted, and what each poll found. */
  datatype Item = Seen(event: OcEvent) | InterruptTried | PromptPosted | Polled(found: Option<PendingBlock>)

  /** What the loop does with one item. Events of other sessions on the shared
      stream are skipped. */
  function AfterItem(s: State, item: Item, sid: string): State {
    match item
    case Seen(e) => if e.sessionId == Some(sid) then HandleEvent(s, e) else s
    case InterruptTried => s.(interrupted := true)
    case PromptPosted => Emit(s, Status(Working))
    case Polled(found) => PollStep(s, found)
  }

  function Translate(s: State, items: seq<Item>, sid: string): State {
    if items == [] then s else AfterItem(Translate(s, Front(items), sid), Last(items), sid)
  }

  lemma {:induction false} TranslateConcat(s: State, first: seq<Item>, second: seq<Item>, sid: string)
    ensures Translate(s, first + second, sid) == Translate(Translate(s, first, sid), second, sid)
  {
    if second == [] {
      ConcatAssociates(first, [], []);
    } else {
      TranslateConcat(s, first, Front(second), sid);
      ConcatAssociates(first, Front(second), [Last(second)]);
      assert second == Front(second) + [Last(second)];
      SnocParts(first + Front(second), Last(second));
    }
  }

  lemma {:induction false} TranslateIgnoresBuffer(s: State, items: seq<Item>, sid: string, buffer: string)
    ensures Translate(s.(buffer := buffer), items, sid) == Translate(s, items, sid).(buffer := buffer)
    ensures Translate(s, items, sid).running == s.running
    ensures Translate(s, items, sid).buffer == s.buffer
  {
    if items != [] {
      TranslateIgnoresBuffer(s, Front(items), sid, buffer);
      if Last(items).Seen? {
        var before := Translate(s, Front(items), sid);
        HandleEventIgnoresBuffer(before, Last(items).event, buffer);
        HandleEventIgnoresBuffer(before, Last(items).event, before.buffer);
      }
    }
  }

  /** An interrupt landing just before event `k` of the chunk. */
  function Tried(k: nat, tries: set<nat>): seq<Item> {
    if k in tries then [InterruptTried] else []
  }

  /** The events of a chunk, `from` being the number of those before them, with
      the interrupts that land among them. */
  function Mixed(events: seq<OcEvent>, from: nat, tries: set<nat>): seq<Item> {
    if events == [] then []
    else Mixed(Front(events), from, tries) + Tried(from + |Front(events)|, tries) + [Seen(Last(events))]
  }

  lemma NothingMixed(from: nat, tries: set<nat>)
    ensures Mixed([], from, tries) == []
  {
  }

  lemma MixedUnfold(events: seq<OcEvent>, event: OcEvent, from: nat, tries: set<nat>)
    ensures Mixed(events + [event], from, tries)
            == Mixed(events, from, tries) + (Tried(from + |events|, tries) + [Seen(event)])
  {
    SnocParts(events, event);
    ConcatAssociates(Mixed(events, from, tries), Tried(from + |events|, tries), [Seen(event)]);
  }

  lemma {:induction false} MixedConcat(first: seq<OcEvent>, second: seq<OcEvent>, from: nat, tries: set<nat>)
    ensures Mixed(first + second, from, tries) == Mixed(first, from, tries) + Mixed(second, from + |first|, tries)
  {
    hide Mixed, Tried;
    if second == [] {
      ConcatAssociates(first, [], []);
      ConcatAssociates(Mixed(first, from, tries), [], []);
      NothingMixed(from + |first|, tries);
    } else {
      var front, last := Front(second), Last(second);
      MixedConcat(first, front, from, tries);
      ConcatAssociates(first, front, [last]);
      assert second == front + [last];
      MixedUnfold(first + front, last, from, tries);
      MixedUnfold(front, last, from + |first|, tries);
      ConcatAssociates(Mixed(first, from, tries), Mixed(front, from + |first|, tries),
                       Tried(from + |first| + |front|, tries) + [Seen(last)]);
    }
  }

  /** The same interrupts, counted from the start of a later chunk. */
  function Shift(tries: set<nat>, past: nat): set<nat> {
    set k: nat | k in tries && k >= past :: k - past
  }

  lemma {:induction false} MixedShift(events: seq<OcEvent>, from: nat, past: nat, tries: set<nat>)
    ensures Mixed(events, past + from, tries) == Mixed(events, from, Shift(tries, past))
  {
    if events != [] {
      MixedShift(Front(events), from, past, tries);
      var k := from + |Front(events)|;
      assert past + k in tries <==> k in Shift(tries, past);
    }
  }

  lemma TryKeepsPending(s: State, items: seq<Item>, k: nat, tries: set<nat>, sid: string)
    ensures Translate(s, items + Tried(k, tries), sid).pending == Translate(s, items, sid).pending
  {
    ConcatAssociates(items, [], []);
    SnocParts(items, InterruptTried);
  }

  lemma {:induction false} MixedKeepsPending(s: State, events: seq<OcEvent>, from: nat, tries: set<nat>, sid: string)
    ensures Translate(s, Mixed(events, from, tries), sid).pending == s.pending
  {
    if events != [] {
      var earlier := Mixed(Front(events), from, tries);
      var tried := Tried(from + |Front(events)|, tries);
      MixedKeepsPending(s, Front(events), from, tries, sid);
      SnocParts(earlier + tried, Seen(Last(events)));
      var before := Translate(s, earlier + tried, sid);
      TryKeepsPending(s, earlier, from + |Front(events)|, tries, sid);
      HandleEventIgnoresBuffer(before, Last(events), before.buffer);
    }
  }

  /** Handling one event, with the interrupt that may land before it. */
  lemma TriedThenSeen(s: State, event: OcEvent, at: nat, tries: set<nat>, sid: string)
    ensures Translate(s, Tried(at, tries) + [Seen(event)], sid)
            == AfterItem(if at in tries then s.(interrupted := true) else s, Seen(event), sid)
  {
    SnocParts(Tried(at, tries), Seen(event));
    assert Front([InterruptTried]) == [];
    assert Translate(s, [], sid) == s;
  }

  lemma MixedSnoc(s: State, events: seq<OcEvent>, event: OcEvent, from: nat, tries: set<nat>, sid: string)
    ensures Translate(s, Mixed(events + [event], from, tries), sid)
            == Translate(Translate(s, Mixed(events, from, tries), sid),
                         Tried(from + |events|, tries) + [Seen(event)], sid)
  {
    hide *;
    MixedUnfold(events, event, from, tries);
    TranslateConcat(s, Mixed(events, from, tries), Tried(from + |events|, tries) + [Seen(event)], sid);
  }

  lemma LineEvents(decode: string -> Option<OcEvent>, lines: seq<string>, line: string)
    ensures EventsInLines(decode, lines + [line])
            == EventsInLines(decode, lines)
               + if DATA <= line && decode(line[|DATA|..]).Some? then [decode(line[|DATA|..]).value] else []
  {
    SnocParts(lines, line);
    ConcatAssociates(EventsInLines(decode, lines), [], []);
  }

  lemma NoLines(s: State, decode: string -> Option<OcEvent>, from: nat, tries: set<nat>, sid: string)
    ensures EventsInLines(decode, []) == [] && Translate(s, Mixed([], from, tries), sid) == s
  {
  }

  /** Everything the buffer's complete frames call for. */
  function Drain(decode: string -> Option<OcEvent>, sid: string, s: State, from: nat, tries: set<nat>): State {
    var (frames, rest) := SplitFrames(s.buffer);
    Translate(s.(buffer := rest), Mixed(EventsIn(decode, frames), from, tries), sid)
  }

  lemma TranslateParts(s: State, first: seq<Item>, second: seq<Item>, sid: string, cut: string, rest: string)
    ensures var head := Translate(s.(buffer := cut), first, sid);
            && head.buffer == cut
            && Translate(s.(buffer := rest), first + second, sid) == Translate(head.(buffer := rest), second, sid)
  {
    TranslateConcat(s.(buffer := rest), first, second, sid);
    TranslateIgnoresBuffer(s, first, sid, rest);
    TranslateIgnoresBuffer(s, first, sid, cut);
    TranslateIgnoresBuffer(s.(buffer := cut), first, sid, cut);
  }

  lemma OneFrame(decode: string -> Option<OcEvent>, frame: string)
    ensures EventsIn(decode, [frame]) == EventsInLines(decode, Lines(frame))
  {
    assert Front([frame]) == [];
    assert [] + EventsInLines(decode, Lines(frame)) == EventsInLines(decode, Lines(frame));
  }

  /** The items of the first frame come before those of the rest. */
  lemma FrameItems(decode: string -> Option<OcEvent>, frame: string, frames: seq<string>, from: nat, tries: set<nat>)
    ensures var first := EventsInLines(decode, Lines(frame));
            Mixed(EventsIn(decode, [frame] + frames), from, tries)
            == Mixed(first, from, tries) + Mixed(EventsIn(decode, frames), from + |first|, tries)
  {
    hide *;
    EventsInConcat(decode, [frame], frames);
    OneFrame(decode, frame);
    MixedConcat(EventsInLines(decode, Lines(frame)), EventsIn(decode, frames), from, tries);
  }

  lemma FrameFirst(decode: string -> Option<OcEvent>, sid: string, s: State, frame: string, frames: seq<string>,
                   cut: string, rest: string, from: nat, tries: set<nat>)
    ensures var first := EventsInLines(decode, Lines(frame));
            var head := Translate(s.(buffer := cut), Mixed(first, from, tries), sid);
            && head.buffer == cut
            && Translate(s.(buffer := rest), Mixed(EventsIn(decode, [frame] + frames), from, tries), sid)
               == Translate(head.(buffer := rest), Mixed(EventsIn(decode, frames), from + |first|, tries), sid)
  {
    hide *;
    var first := EventsInLines(decode, Lines(frame));
    FrameItems(decode, frame, frames, from, tries);
    TranslateParts(s, Mixed(first, from, tries), Mixed(EventsIn(decode, frames), from + |first|, tries), sid,
                   cut, rest);
  }

  /** Handling the first frame first changes nothing about the whole. */
  lemma DrainStep(decode: string -> Option<OcEvent>, sid: string, s: State, from: nat, tries: set<nat>)
    requires Find(s.buffer, BREAK).Some?
    ensures var at := Find(s.buffer, BREAK).value;
            var first := EventsInLines(decode, Lines(s.buffer[..at]));
            && Drain(decode, sid, s, from, tries)
               == Drain(decode, sid, Translate(s.(buffer := s.buffer[at + 2..]), Mixed(first, from, tries), sid),
                        from + |first|, tries)
  {
    hide SplitFrames, EventsIn, EventsInLines, Lines, Mixed, Translate;
    SplitFramesStep(s.buffer);
    var at := Find(s.buffer, BREAK).value;
    FrameFirst(decode, sid, s, s.buffer[..at], SplitFrames(s.buffer[at + 2..]).0, s.buffer[at + 2..],
               SplitFrames(s.buffer).1, from, tries);
  }

  lemma DrainNothing(decode: string -> Option<OcEvent>, sid: string, s: State, from: nat, tries: set<nat>)
    requires Find(s.buffer, BREAK).None?
    ensures Drain(decode, sid, s, from, tries) == s
  {
  }

  // ---------------------------------------------------------------------
  // The loop
  // ---------------------------------------------------------------------

  function Step(decode: string -> Option<OcEvent>, sid: string, s: State, stimulus: Stimulus): State {
    if !s.running then s
    else match stimulus
      case Prompt(posted) => if posted then Emit(s, Status(Working)) else s.(running := false)
      case HandleDropped => s.(running := false)
      case Chunk(text, tries) => Drain(decode, sid, s.(buffer := s.buffer + text), 0, tries)
      case StreamEnded => s.(running := false)
      case Poll(questions, permissions) => PollStep(s, Found(sid, questions, permissions))
      case Interrupt => s.(interrupted := true)
  }

  function Run(decode: string -> Option<OcEvent>, sid: string, s: State, script: seq<Stimulus>): State {
    if script == [] then s else Step(decode, sid, Run(decode, sid, s, Front(script)), Last(script))
  }

  /** The loop as it runs. */
  class HttpLoop {
    const decode: string -> Option<OcEvent>
    const sessionId: string
    var buffer: string
    var messageRoles: map<string, string>
    var interruptRequested: bool
    var pendingBlock: Option<PendingBlock>
    var emitted: seq<DriverEvent>
    var running: bool

    ghost function View(): State
      reads this
    {
      State(buffer, messageRoles, interruptRequested, pendingBlock, emitted, running)
    }

    constructor (decode: string -> Option<OcEvent>, sessionId: string)
      ensures this.decode == decode && this.sessionId == sessionId
      ensures View() == START
    {
      this.decode := decode;
      this.sessionId := sessionId;
      buffer, messageRoles, interruptRequested, pendingBlock := "", map[], false, None;
      emitted, running := [], true;
    }

    method TranslateEvent(e: OcEvent)
      modifies this
      ensures View() == HandleEvent(old(View()), e)
    {
      match KindOf(e.kind)
      case MessageUpdated =>
        if e.info.Some? {
          messageRoles := messageRoles[e.info.value.id := e.info.value.role];
        }
      case PartUpdated =>
        if e.part.Some? && e.part.value.kind == "text" {
          var id := e.part.value.messageId;
          if id in messageRoles && messageRoles[id] == "assistant" && e.part.value.text.Some? {
            emitted := emitted + [Update(e.part.value.text.value)];
          }
        }
      case SessionStatus =>
        if e.status == Some("busy") {
          emitted := emitted + [Status(Working)];
        }
      case SessionIdle =>
        var wasCancelled := interruptRequested;
        interruptRequested := false;
        emitted := emitted + [Status(Idle)];
        emitted := emitted + [StopReason(if wasCancelled then Cancelled else EndTurn)];
      case OtherKind =>
    }

    /** One decoded event, number `at` of its chunk. */
    method ReadEvent(event: OcEvent, at: nat, tries: set<nat>)
      modifies this
      ensures View() == Translate(old(View()), Tried(at, tries) + [Seen(event)], sessionId)
    {
      TriedThenSeen(View(), event, at, tries, sessionId);
      if at in tries {
        interruptRequested := true;
      }
      if event.sessionId == Some(sessionId) {
        TranslateEvent(event);
      }
    }

    /** The lines of one frame; `from` counts the events of the chunk so far. */
    method ReadFrame(frame: string, from: nat, tries: set<nat>) returns (next: nat)
      modifies this
      ensures View() == Translate(old(View()), Mixed(EventsInLines(decode, Lines(frame)), from, tries), sessionId)
      ensures next == from + |EventsInLines(decode, Lines(frame))|
    {
      var lines := Lines(frame);
      hide Lines, Mixed, Translate, EventsInLines;
      ghost var start := View();
      NoLines(start, decode, from, tries, sessionId);
      next := from;
      for i := 0 to |lines|
        invariant next == from + |EventsInLines(decode, lines[..i])|
        invariant View() == Translate(start, Mixed(EventsInLines(decode, lines[..i]), from, tries), sessionId)
      {
        LineEvents(decode, lines[..i], lines[i]);
        assert lines[..i + 1] == lines[..i] + [lines[i]];
        if DATA <= lines[i] {
          var event := decode(lines[i][|DATA|..]);
          if event.Some? {
            MixedSnoc(start, EventsInLines(decode, lines[..i]), event.value, from, tries, sessionId);
            ReadEvent(event.value, next, tries);
            next := next + 1;
          } else {
            ConcatAssociates(EventsInLines(decode, lines[..i]), [], []);
          }
        } else {
          ConcatAssociates(EventsInLines(decode, lines[..i]), [], []);
        }
      }
      assert lines[..|lines|] == lines;
    }

    /** One chunk off the stream: frames are cut off the front of the buffer
        for as long as it holds a break. */
    method ReadChunk(text: string, tries: set<nat>)
      requires running
      modifies this
      ensures View() == Step(decode, sessionId, old(View()), Chunk(text, tries))
      ensures Find(buffer, BREAK).None?
    {
      hide SplitFrames, EventsIn, EventsInLines, Lines, Mixed, Translate, Drain, Find;
      buffer := buffer + text;
      var seen: nat := 0;
      ghost var goal := Drain(decode, sessionId, View(), 0, tries);
      while Find(buffer, BREAK).Some?
        invariant Drain(decode, sessionId, View(), seen, tries) == goal
        invariant running
        decreases |buffer|
      {
        DrainStep(decode, sessionId, View(), seen, tries);
        var at := Find(buffer, BREAK).value;
        var frame := buffer[..at];
        buffer := buffer[at + 2..];
        TranslateIgnoresBuffer(View(), Mixed(EventsInLines(decode, Lines(frame)), seen, tries), sessionId, buffer);
        seen := ReadFrame(frame, seen, tries);
      }
      DrainNothing(decode, sessionId, View(), seen, tries);
    }

    method PollPendingBlock(questions: Option<seq<QuestionRequest>>, permissions: Option<seq<PermissionRequest>>)
      modifies this`pendingBlock, this`emitted
      ensures View() == PollStep(old(View()), Found(sessionId, questions, permissions))
    {
      var found := Found(sessionId, questions, permissions);
      if BlockId(pendingBlock) == BlockId(found) {
        return;
      }
      pendingBlock := found;
      emitted := emitted + [Status(if found.Some? then Blocked else Working)];
    }

    method Serve(script: seq<Stimulus>)
      modifies this
      ensures View() == Run(decode, sessionId, old(View()), script)
    {
      for i := 0 to |script|
        invariant View() == Run(decode, sessionId, old(View()), script[..i])
      {
        SnocParts(script[..i], script[i]);
        assert script[..i + 1] == script[..i] + [script[i]];
        if running {
          match script[i]
          case Prompt(posted) =>
            if posted { emitted := emitted + [Status(Working)]; } else { running := false; }
          case HandleDropped => running := false;
          case Chunk(text, tries) => ReadChunk(text, tries);
          case StreamEnded => running := false;
          case Poll(questions, permissions) => PollPendingBlock(questions, permissions);
          case Interrupt => interruptRequested := true;
        }
      }
      assert script[..|script|] == script;
    }
  }
}
