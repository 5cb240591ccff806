/** The attach-mode stream told character by character, and the loop told from
    what it was given alone (src/http_attach_driver.rs, `run_http_loop`). Nothing
    here that describes the outside looks at the loop's state or at how the
    loop cuts its buffer; the theorems say that the loop does what it tells. */
module HttpStream {
  import opened Common
  import opened DriverEvents
  import opened Text
  import opened HttpAttach
  import opened HttpTheorems

  // ---------------------------------------------------------------------
  // Reading one character at a time
  // ---------------------------------------------------------------------

  /** The lines of the frames that are complete, the complete lines of the frame
      that is open, and the line that has been begun. */
  datatype Reading = Reading(done: seq<string>, held: seq<string>, line: string)

  function WithoutCr(line: string): string {
    if line != [] && Last(line) == '\r' then Front(line) else line
  }

  /** The lines of a frame: a carriage return before a line feed belongs to the
      line feed, and the last line ends where the break begins. */
  function Settled(held: seq<string>): seq<string> {
    if |held| <= 1 then held else [WithoutCr(held[0])] + Settled(held[1..])
  }

  /** A line feed ends a line; two in a row end a frame. */
  function AfterChar(r: Reading, c: char): Reading {
    if c != '\n' then r.(line := r.line + [c])
    else if r.line == [] && r.held != [] then Reading(r.done + Settled(r.held), [], [])
    else r.(held := r.held + [r.line], line := [])
  }

  function ReadText(text: string): Reading {
    if text == [] then Reading([], [], []) else AfterChar(ReadText(Front(text)), Last(text))
  }

  /** Only a line that starts with `data: ` can carry an event. */
  function LineEvent(decode: string -> Option<OcEvent>, line: string): seq<OcEvent> {
    if |line| >= 6 && line[..6] == "data: " && decode(line[6..]).Some? then [decode(line[6..]).value] else []
  }

  function EventsRead(decode: string -> Option<OcEvent>, lines: seq<string>): seq<OcEvent> {
    if lines == [] then [] else EventsRead(decode, Front(lines)) + LineEvent(decode, Last(lines))
  }

  /** The events a text carries in its complete frames. */
  function EventsOf(decode: string -> Option<OcEvent>, text: string): seq<OcEvent> {
    EventsRead(decode, ReadText(text).done)
  }

  // ---------------------------------------------------------------------
  // The loop's own framing agrees
  // ---------------------------------------------------------------------

  lemma BreakIsTwo(s: string, i: nat)
    ensures OccursAt(s, BREAK, i) <==> i + 1 < |s| && s[i] == '\n' && s[i + 1] == '\n'
  {
    if i + 2 <= |s| {
      assert s[i..i + 2] == [s[i], s[i + 1]];
    }
  }

  lemma BreakAtEnd(left: string, c: char)
    requires Find(left, BREAK).None?
    ensures Find(left + [c], BREAK)
            == if c == '\n' && left != [] && Last(left) == '\n' then Some(|left| - 1) else None
  {
    hide Find, OccursAt;
    var whole := left + [c];
    FindIsFirst(left, BREAK);
    FindIsFirst(whole, BREAK);
    forall i: nat | i + 2 < |whole| ensures !OccursAt(whole, BREAK, i) {
      BreakIsTwo(whole, i);
      BreakIsTwo(left, i);
    }
    if Find(whole, BREAK).Some? {
      BreakIsTwo(whole, Find(whole, BREAK).value);
    } else if left != [] {
      BreakIsTwo(whole, |left| - 1);
    }
  }

  lemma NoBreakNoFrames(left: string)
    ensures Find(left, BREAK).None? ==> SplitFrames(left) == ([], left)
    ensures SplitFrames("") == ([], "")
  {
  }

  lemma OneBreak(left: string)
    requires left != [] && Last(left) == '\n' && Find(left + ['\n'], BREAK) == Some(|left| - 1)
    ensures SplitFrames(left + ['\n']) == ([Front(left)], "")
  {
    hide Find;
    var whole := left + ['\n'];
    assert whole[..|left| - 1] == Front(left) && whole[|left| + 1..] == "";
    SplitFramesStep(whole);
    NoBreakNoFrames("");
    ConcatAssociates([Front(left)], [], []);
  }

  /** What one more character does to the frames and to the leftover. */
  lemma SplitFramesSnoc(text: string, c: char)
    ensures var (frames, left) := SplitFrames(text);
            SplitFrames(text + [c])
            == if c == '\n' && left != [] && Last(left) == '\n' then (frames + [Front(left)], "")
               else (frames, left + [c])
  {
    hide SplitFrames, Find;
    var (frames, left) := SplitFrames(text);
    SplitFramesConcat(text, [c]);
    SplitFramesIsExact(text);
    BreakAtEnd(left, c);
    if c == '\n' && left != [] && Last(left) == '\n' {
      OneBreak(left);
    } else {
      NoBreakNoFrames(left + [c]);
      ConcatAssociates(frames, [], []);
    }
  }

  lemma {:induction false} SameEvents(decode: string -> Option<OcEvent>, lines: seq<string>)
    ensures EventsInLines(decode, lines) == EventsRead(decode, lines)
  {
    if lines != [] {
      SameEvents(decode, Front(lines));
      ConcatAssociates(EventsRead(decode, Front(lines)), [], []);
    }
  }

  lemma EventsReadSnoc(decode: string -> Option<OcEvent>, lines: seq<string>, line: string)
    ensures EventsRead(decode, lines + [line]) == EventsRead(decode, lines) + LineEvent(decode, line)
  {
    SnocParts(lines, line);
  }

  lemma {:induction false} EventsReadConcat(decode: string -> Option<OcEvent>, first: seq<string>, second: seq<string>)
    ensures EventsRead(decode, first + second) == EventsRead(decode, first) + EventsRead(decode, second)
  {
    if second == [] {
      ConcatAssociates(first, [], []);
      ConcatAssociates(EventsRead(decode, first), [], []);
    } else {
      EventsReadConcat(decode, first, Front(second));
      ConcatAssociates(first, Front(second), [Last(second)]);
      assert second == Front(second) + [Last(second)];
      EventsReadSnoc(decode, first + Front(second), Last(second));
      ConcatAssociates(EventsRead(decode, first), EventsRead(decode, Front(second)), LineEvent(decode, Last(second)));
    }
  }

  /** What the open frame can hold: no line feed inside a line, and no empty line
      but a first one. */
  ghost predicate Open(r: Reading) {
    && '\n' !in r.line
    && (forall i :: 0 <= i < |r.held| ==> '\n' !in r.held[i])
    && (forall i :: 0 < i < |r.held| ==> r.held[i] != [])
  }

  lemma UnlinesSnoc(lines: seq<string>, line: string, ending: string)
    ensures Unlines(lines + [line], ending) == Unlines(lines, ending) + line + ending
    decreases |lines|
  {
    if lines == [] {
      assert ([] + [line])[1..] == [];
      ConcatAssociates(line + ending, [], []);
    } else {
      assert (lines + [line])[1..] == lines[1..] + [line];
      UnlinesSnoc(lines[1..], line, ending);
      assert Unlines(lines + [line], ending) == Unlines(lines, ending) + line + ending;
    }
  }

  lemma SettledUnfold(held: seq<string>)
    ensures |held| <= 1 ==> Settled(held) == held
    ensures |held| > 1 ==> Settled(held) == [StripCr(held[0])] + Settled(held[1..])
  {
  }

  /** The lines of a frame as the loop takes them apart. */
  lemma {:induction false} FrameLines(held: seq<string>)
    requires held != [] && Last(held) != []
    requires forall i :: 0 <= i < |held| ==> '\n' !in held[i]
    ensures Lines(Unlines(Front(held), "\n") + Last(held)) == Settled(held)
    decreases |held|
  {
    hide Lines, Unlines, Settled;
    if |held| == 1 {
      NoUnlines("\n", held[0]);
      LinesLast(held[0]);
      SettledUnfold(held);
    } else {
      UnlinesFirst(Front(held), "\n", Last(held));
      assert Front(held)[1..] == Front(held[1..]);
      LinesFirst(held[0], Unlines(Front(held)[1..], "\n") + Last(held));
      FrameLines(held[1..]);
      SettledUnfold(held);
    }
  }

  lemma FrameEvents(decode: string -> Option<OcEvent>, held: seq<string>)
    requires held != []
    requires forall i :: 0 <= i < |held| ==> '\n' !in held[i]
    requires forall i :: 0 < i < |held| ==> held[i] != []
    ensures EventsInLines(decode, Lines(Unlines(Front(held), "\n") + Last(held))) == EventsRead(decode, Settled(held))
  {
    if Last(held) == [] {
      assert held == [[]];
      assert Front(held) == [];
      assert Lines([]) == [];
    } else {
      FrameLines(held);
      SameEvents(decode, Settled(held));
    }
  }

  ghost predicate Agree(decode: string -> Option<OcEvent>, text: string, r: Reading) {
    var (frames, left) := SplitFrames(text);
    && EventsIn(decode, frames) == EventsRead(decode, r.done)
    && left == Unlines(r.held, "\n") + r.line
    && Open(r)
  }

  lemma CharAgrees(decode: string -> Option<OcEvent>, text: string, r: Reading, c: char)
    requires Agree(decode, text, r)
    ensures Agree(decode, text + [c], AfterChar(r, c))
  {
    hide SplitFrames, EventsIn, EventsInLines, EventsRead, Lines, Unlines, Settled;
    var (frames, left) := SplitFrames(text);
    SplitFramesSnoc(text, c);
    if c != '\n' {
      ConcatAssociates(Unlines(r.held, "\n"), r.line, [c]);
    } else if r.line == [] && r.held != [] {
      var front, last := Front(r.held), Last(r.held);
      assert r.held == front + [last];
      UnlinesSnoc(front, last, "\n");
      ConcatAssociates(Unlines(r.held, "\n"), [], []);
      SnocParts(Unlines(front, "\n") + last, '\n');
      FramesUnfold(decode, frames, Unlines(front, "\n") + last);
      FrameEvents(decode, r.held);
      EventsReadConcat(decode, r.done, Settled(r.held));
      NoUnlines("\n", []);
    } else {
      UnlinesSnoc(r.held, r.line, "\n");
      ConcatAssociates(Unlines(r.held + [r.line], "\n"), [], []);
      if r.line == [] {
        NoUnlines("\n", []);
      }
    }
  }

  /** Cutting at the first break, then at line feeds, reads what reading character
      by character reads. */
  lemma {:induction false} FramingReadsTheStream(decode: string -> Option<OcEvent>, text: string)
    ensures Agree(decode, text, ReadText(text))
    ensures EventsIn(decode, SplitFrames(text).0) == EventsOf(decode, text)
  {
    if text == [] {
      assert SplitFrames([]) == ([], []);
    } else {
      FramingReadsTheStream(decode, Front(text));
      assert text == Front(text) + [Last(text)];
      CharAgrees(decode, Front(text), ReadText(Front(text)), Last(text));
    }
  }

  // ---------------------------------------------------------------------
  // The loop, from what it was given
  // ---------------------------------------------------------------------

  /** The handle was dropped, a prompt could not be posted, or the stream ended. */
  predicate Over(script: seq<Stimulus>) {
    && script != []
    && (Over(Front(script))
        || match Last(script)
           case Prompt(posted) => !posted
           case HandleDropped => true
           case StreamEnded => true
           case _ => false)
  }

  /** The text that came in before that. */
  function Heard(script: seq<Stimulus>): string {
    if script == [] then []
    else if Last(script).Chunk? && !Over(Front(script)) then Heard(Front(script)) + Last(script).text
    else Heard(Front(script))
  }

  /** The events a further piece of text completes. */
  function Completed(decode: string -> Option<OcEvent>, text: string, more: string): seq<OcEvent> {
    var before, after := EventsOf(decode, text), EventsOf(decode, text + more);
    if |before| <= |after| then after[|before|..] else []
  }

  /** What the loop meets before it is over, one stimulus at a time. */
  function Met(decode: string -> Option<OcEvent>, sid: string, script: seq<Stimulus>): seq<Item> {
    if script == [] then []
    else
      var earlier := Met(decode, sid, Front(script));
      if Over(Front(script)) then earlier
      else match Last(script)
        case Interrupt => earlier + [InterruptTried]
        case Prompt(true) => earlier + [PromptPosted]
        case Poll(questions, permissions) => earlier + [Polled(Found(sid, questions, permissions))]
        case Chunk(text, tries) => earlier + Mixed(Completed(decode, Heard(Front(script)), text), 0, tries)
        case _ => earlier
  }

  /** The events a chunk completes are those of the frames it completes. */
  lemma ChunkCompletes(decode: string -> Option<OcEvent>, text: string, more: string)
    ensures EventsOf(decode, text + more) == EventsOf(decode, text) + Completed(decode, text, more)
    ensures EventsIn(decode, SplitFrames(SplitFrames(text).1 + more).0) == Completed(decode, text, more)
  {
    hide SplitFrames, EventsIn, EventsOf;
    FramingReadsTheStream(decode, text);
    FramingReadsTheStream(decode, text + more);
    SplitFramesConcat(text, more);
    EventsInConcat(decode, SplitFrames(text).0, SplitFrames(SplitFrames(text).1 + more).0);
  }

  ghost predicate Knows(decode: string -> Option<OcEvent>, sid: string, s: State, script: seq<Stimulus>) {
    && (s.running <==> !Over(script))
    && s.buffer == SplitFrames(Heard(script)).1
    && ItemsOf(decode, sid, script) == Met(decode, sid, script)
  }

  lemma ChunkKnown(decode: string -> Option<OcEvent>, sid: string, s: State, heard: string, text: string,
                   tries: set<nat>)
    requires s.running && s.buffer == SplitFrames(heard).1
    ensures var t := Step(decode, sid, s, Chunk(text, tries));
            && t.running && t.buffer == SplitFrames(heard + text).1
            && ItemsAdded(decode, sid, s, Chunk(text, tries)) == Mixed(Completed(decode, heard, text), 0, tries)
  {
    hide SplitFrames, EventsIn, Mixed, Translate, Completed;
    ChunkCompletes(decode, heard, text);
    SplitFramesConcat(heard, text);
    var (frames, rest) := SplitFrames(s.buffer + text);
    TranslateIgnoresBuffer(s, Mixed(EventsIn(decode, frames), 0, tries), sid, rest);
  }

  lemma OtherKnown(decode: string -> Option<OcEvent>, sid: string, s: State, stimulus: Stimulus)
    requires s.running && !stimulus.Chunk?
    ensures var t := Step(decode, sid, s, stimulus);
            && t.buffer == s.buffer
            && (t.running <==> !stimulus.HandleDropped? && !stimulus.StreamEnded? && stimulus != Prompt(false))
  {
  }

  lemma EndedStays(decode: string -> Option<OcEvent>, sid: string, s: State, stimulus: Stimulus)
    ensures !s.running ==> Step(decode, sid, s, stimulus) == s
  {
  }

  lemma OtherItems(decode: string -> Option<OcEvent>, sid: string, s: State, stimulus: Stimulus)
    requires !stimulus.Chunk?
    ensures ItemsAdded(decode, sid, s, stimulus)
            == match stimulus
               case Interrupt => [InterruptTried]
               case Prompt(true) => [PromptPosted]
               case Poll(questions, permissions) => [Polled(Found(sid, questions, permissions))]
               case _ => []
  {
  }

  lemma {:induction false} LoopKnows(decode: string -> Option<OcEvent>, sid: string, script: seq<Stimulus>)
    ensures Knows(decode, sid, Run(decode, sid, START, script), script)
  {
    hide SplitFrames, Mixed, Completed, Step, ItemsAdded;
    if script == [] {
      NoBreakNoFrames("");
    } else {
      LoopKnows(decode, sid, Front(script));
      var s := Run(decode, sid, START, Front(script));
      if s.running {
        var last := Last(script);
        if last.Chunk? {
          ChunkKnown(decode, sid, s, Heard(Front(script)), last.text, last.tries);
        } else {
          OtherKnown(decode, sid, s, last);
          OtherItems(decode, sid, s, last);
          ConcatAssociates(Met(decode, sid, Front(script)), [], []);
        }
      } else {
        EndedStays(decode, sid, s, Last(script));
      }
    }
  }

  /** Over any run, prompts, polls, interrupts and pieces of the stream in any
      order: the loop is there exactly until it has a reason to return, it has
      emitted exactly what the stimuli call for, and it holds back exactly the
      lines of the frame that is still open. */
  lemma LoopFollowsItsStimuli(decode: string -> Option<OcEvent>, sid: string, script: seq<Stimulus>)
    ensures var s := Run(decode, sid, START, script);
            var met := Met(decode, sid, script);
            var reading := ReadText(Heard(script));
            && (s.running <==> !Over(script))
            && s.emitted == Expected(met, sid)
            && s.pending == LatestChange(met)
            && (s.interrupted <==> InterruptedSinceIdle(met, sid))
            && s.buffer == Unlines(reading.held, "\n") + reading.line
  {
    LoopKnows(decode, sid, script);
    LoopFollowsHistory(decode, sid, script);
    FramingReadsTheStream(decode, Heard(script));
  }

  // ---------------------------------------------------------------------
  // What a server sends is what is translated
  // ---------------------------------------------------------------------

  /** A stream of chunks with no interrupt among them. */
  function Plain(texts: seq<string>): seq<Stimulus> {
    if texts == [] then [] else Plain(Front(texts)) + [Chunk(Last(texts), {})]
  }

  function AllSeen(events: seq<OcEvent>): seq<Item> {
    if events == [] then [] else AllSeen(Front(events)) + [Seen(Last(events))]
  }

  lemma {:induction false} NoneTried(events: seq<OcEvent>, from: nat)
    ensures Mixed(events, from, {}) == AllSeen(events)
  {
    if events != [] {
      NoneTried(Front(events), from);
      ConcatAssociates(AllSeen(Front(events)), [], []);
    }
  }

  lemma AllSeenSnoc(events: seq<OcEvent>, event: OcEvent)
    ensures AllSeen(events + [event]) == AllSeen(events) + [Seen(event)]
  {
    SnocParts(events, event);
  }

  lemma AllSeenNothing()
    ensures AllSeen([]) == []
  {
  }

  lemma {:induction false} AllSeenConcat(first: seq<OcEvent>, second: seq<OcEvent>)
    ensures AllSeen(first + second) == AllSeen(first) + AllSeen(second)
  {
    hide AllSeen;
    if second == [] {
      ConcatAssociates(first, [], []);
      ConcatAssociates(AllSeen(first), [], []);
      AllSeenNothing();
    } else {
      var front, last := Front(second), Last(second);
      AllSeenConcat(first, front);
      SnocWhole(second);
      ConcatAssociates(first, front, [last]);
      AllSeenSnoc(first + front, last);
      AllSeenSnoc(front, last);
      ConcatAssociates(AllSeen(first), AllSeen(front), [Seen(last)]);
    }
  }

  lemma NothingYet(decode: string -> Option<OcEvent>)
    ensures EventsOf(decode, "") == [] && AllSeen([]) == []
  {
  }

  lemma {:induction false} PlainMet(decode: string -> Option<OcEvent>, sid: string, texts: seq<string>)
    ensures !Over(Plain(texts)) && Heard(Plain(texts)) == Concat(texts)
    ensures Met(decode, sid, Plain(texts)) == AllSeen(EventsOf(decode, Concat(texts)))
  {
    hide EventsOf;
    if texts == [] {
      NothingYet(decode);
    } else {
      var front, last := Front(texts), Last(texts);
      PlainMet(decode, sid, front);
      SnocParts(Plain(front), Chunk(last, {}));
      ChunkCompletes(decode, Concat(front), last);
      NoneTried(Completed(decode, Concat(front), last), 0);
      AllSeenConcat(EventsOf(decode, Concat(front)), Completed(decode, Concat(front), last));
    }
  }

  lemma ReadSnoc(text: string, c: char)
    ensures ReadText(text + [c]) == AfterChar(ReadText(text), c)
  {
    SnocParts(text, c);
  }

  lemma {:induction false} LineRead(text: string, line: string)
    requires '\n' !in line
    ensures ReadText(text + line) == ReadText(text).(line := ReadText(text).line + line)
  {
    hide ReadText;
    if line == [] {
      ConcatAssociates(text, [], []);
      ConcatAssociates(ReadText(text).line, [], []);
    } else {
      var front, c := Front(line), Last(line);
      LineRead(text, front);
      SnocWhole(line);
      ConcatAssociates(text, front, [c]);
      ConcatAssociates(ReadText(text).line, front, [c]);
      ReadSnoc(text + front, c);
    }
  }

  lemma {:induction false} LinesRead(text: string, lines: seq<string>)
    requires ReadText(text).held == [] && ReadText(text).line == []
    requires forall i :: 0 <= i < |lines| ==> lines[i] != [] && '\n' !in lines[i]
    ensures ReadText(text + Unlines(lines, "\n")) == ReadText(text).(held := lines)
    decreases |lines|
  {
    if lines == [] {
      NoUnlines("\n", []);
      ConcatAssociates(text, [], []);
    } else {
      hide Unlines, ReadText;
      var front, last := Front(lines), Last(lines);
      assert lines == front + [last];
      LinesRead(text, front);
      UnlinesSnoc(front, last, "\n");
      ConcatAssociates(text, Unlines(front, "\n") + last, "\n");
      ConcatAssociates(text, Unlines(front, "\n"), last);
      LineRead(text + Unlines(front, "\n"), last);
      ReadSnoc(text + Unlines(front, "\n") + last, '\n');
      ConcatAssociates([], [], last);
    }
  }

  /** The lines of one frame, each ended by a line feed, and the line feed more
      that ends the frame, after text whose frames are complete. */
  lemma FrameIsRead(decode: string -> Option<OcEvent>, text: string, lines: seq<string>)
    requires ReadText(text).held == [] && ReadText(text).line == [] && lines != []
    requires forall i :: 0 <= i < |lines| ==> lines[i] != [] && '\n' !in lines[i]
    ensures ReadText(text + Unlines(lines, "\n") + "\n") == Reading(ReadText(text).done + Settled(lines), [], [])
    ensures EventsOf(decode, text + Unlines(lines, "\n") + "\n")
            == EventsOf(decode, text) + EventsRead(decode, Settled(lines))
  {
    LinesRead(text, lines);
    SnocParts(text + Unlines(lines, "\n"), '\n');
    EventsReadConcat(decode, ReadText(text).done, Settled(lines));
  }

  /** What a server sends to say `payloads`: one frame of one line for each. */
  function Said(payloads: seq<string>): string {
    if payloads == [] then [] else Said(Front(payloads)) + "data: " + Last(payloads) + "\n\n"
  }

  /** The events the payloads decode to; one that does not decode is skipped. */
  function Decoded(decode: string -> Option<OcEvent>, payloads: seq<string>): seq<OcEvent> {
    if payloads == [] then []
    else
      Decoded(decode, Front(payloads))
      + match decode(Last(payloads)) { case Some(event) => [event] case None => [] }
  }

  lemma OneFrameSaid(said: string, payload: string)
    ensures said + Unlines(["data: " + payload], "\n") + "\n" == said + "data: " + payload + "\n\n"
  {
    var line := "data: " + payload;
    assert Unlines([line], "\n") == line + "\n" by {
      assert [line][1..] == [];
      NoUnlines("\n", []);
      ConcatAssociates(line + "\n", [], []);
    }
    assert said + (line + "\n") + "\n" == said + "data: " + payload + "\n\n";
  }

  lemma OneLine(decode: string -> Option<OcEvent>, line: string)
    ensures EventsRead(decode, [line]) == LineEvent(decode, line)
  {
    assert Front([line]) == [];
  }

  lemma {:induction false} PayloadsAreRead(decode: string -> Option<OcEvent>, payloads: seq<string>)
    requires forall i :: 0 <= i < |payloads| ==> '\n' !in payloads[i]
    ensures ReadText(Said(payloads)).held == [] && ReadText(Said(payloads)).line == []
    ensures EventsOf(decode, Said(payloads)) == Decoded(decode, payloads)
  {
    if payloads == [] {
      NothingYet(decode);
    } else {
      hide ReadText, EventsOf, Unlines;
      var front, line := Front(payloads), "data: " + Last(payloads);
      PayloadsAreRead(decode, front);
      FrameIsRead(decode, Said(front), [line]);
      OneFrameSaid(Said(front), Last(payloads));
      SettledUnfold([line]);
      assert line[6..] == Last(payloads) && line[..6] == "data: ";
      OneLine(decode, line);
    }
  }

  /** However what the server sends is cut into chunks, the loop emits exactly
      what its payloads call for, in order, and nothing else. */
  lemma PayloadsAreEmitted(decode: string -> Option<OcEvent>, sid: string, payloads: seq<string>, texts: seq<string>)
    requires forall i :: 0 <= i < |payloads| ==> '\n' !in payloads[i]
    requires Concat(texts) == Said(payloads)
    ensures var s := Run(decode, sid, START, Plain(texts));
            s.running && s.buffer == "" && s.emitted == Expected(AllSeen(Decoded(decode, payloads)), sid)
  {
    PlainMet(decode, sid, texts);
    LoopFollowsItsStimuli(decode, sid, Plain(texts));
    PayloadsAreRead(decode, payloads);
    NoUnlines("\n", []);
  }
}
