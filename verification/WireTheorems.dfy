/** What one connection guarantees about its outbound frames, for every script. */
module WireTheorems {
  import opened Common
  import opened DriverEvents
  import opened WireLoop
  import Coalescing

  // ---------------------------------------------------------------------
  // Reading a frame stream the way the far side does
  // ---------------------------------------------------------------------

  /** The text of a reply frame: `text` first, then `chunks`, in order. */
  function FrameText(f: Frame): seq<string>
    requires f.Reply?
  {
    (if f.text.Some? then [f.text.value] else []) + f.chunks
  }

  function TurnsAfterFrame(f: Frame, session: string, turns: Turns): Turns {
    if !f.Reply? || f.session != session then turns
    else
      var open := turns.open + FrameText(f);
      if f.done then Turns(turns.closed + [open], []) else turns.(open := open)
  }

  /** One session's turns as read off the wire, cut at `done` frames. */
  function TurnsSent(sent: seq<Frame>, session: string): Turns {
    if sent == [] then NO_TURNS else TurnsAfterFrame(Last(sent), session, TurnsSent(Front(sent), session))
  }

  /** The driver events of one session among the stimuli. */
  function EventsOf(script: seq<Stimulus>, session: string): seq<DriverEvent> {
    if script == [] then []
    else
      var earlier := EventsOf(Front(script), session);
      var last := Last(script);
      if last.Event? && last.session == session then earlier + [last.event] else earlier
  }

  /** `cut` is what is left of `whole` when a stream breaks off somewhere. */
  ghost predicate Precedes(cut: Turns, whole: Turns) {
    || (cut.closed == whole.closed && cut.open <= whole.open)
    || (&& |cut.closed| < |whole.closed|
        && cut.closed == whole.closed[..|cut.closed|]
        && cut.open <= whole.closed[|cut.closed|])
  }

  /** While the connection is up, text already sent plus text still buffered is
      exactly the text received; after it ends, what was sent is a cut of it. */
  ghost predicate Refines(s: State, session: string, turns: Turns) {
    var sent := TurnsSent(s.sent, session);
    if s.exit == Running
    then sent.closed == turns.closed && sent.open + Coalescing.Buffered(s.pending, session) == turns.open
    else Precedes(sent, turns)
  }

  function TurnsAfterStimulus(stimulus: Stimulus, session: string, turns: Turns): Turns {
    if stimulus.Event? && stimulus.session == session then TurnsAfter(stimulus.event, turns) else turns
  }

  /** What a step that is neither an event nor a flush can do to the outbound
      stream: at most one frame, and never a reply or a `session_blocked`. */
  lemma PlainStep(s: State, stimulus: Stimulus)
    requires s.exit == Running && !stimulus.Event? && !stimulus.Flush?
    ensures var t := Step(s, stimulus);
            && t.pending == s.pending && t.blocked == s.blocked && t.minted == s.minted
            && (!stimulus.InPrompt? ==> t.lastPromptId == s.lastPromptId)
            && (t.sent != s.sent ==>
                  t.sent != [] && t.sent == s.sent + [Last(t.sent)]
                  && !Last(t.sent).Reply? && !Last(t.sent).SessionBlocked?)
  {
    match stimulus
    case InPing(_, _) => case InPong => case InError => case InQuery(_, _, _) =>
    case InPrompt(_, _, _, _) => case InInterrupt(_, _, _, _) => case InAnswer(_, _, _, _) =>
    case Ignored => case WsPing(_) => case Closed => case Heartbeat(_, _) => case DetachPoll(_) =>
  }

  lemma SendReplyShape(s: State, id: Id, owner: string, chunks: seq<string>, done: bool, sendOk: bool)
    ensures var t := SendReply(s, id, owner, chunks, done, sendOk);
            && t == s.(sent := t.sent, exit := t.exit)
            && (t.sent != s.sent ==>
                  t.sent != [] && t.sent == s.sent + [Last(t.sent)]
                  && Last(t.sent).Reply? && Last(t.sent).id == id && Last(t.sent).session == owner)
  {
  }

  lemma SendTurns(s: State, frame: Frame, sendOk: bool, session: string)
    ensures var t := Send(s, frame, sendOk);
            TurnsSent(t.sent, session)
            == if sendOk then TurnsAfterFrame(frame, session, TurnsSent(s.sent, session))
               else TurnsSent(s.sent, session)
  {
    SnocParts(s.sent, frame);
  }

  lemma SendReplyTurns(s: State, id: Id, owner: string, chunks: seq<string>, done: bool, sendOk: bool, session: string)
    requires s.exit == Running
    ensures var t := SendReply(s, id, owner, chunks, done, sendOk);
            var was := TurnsSent(s.sent, session);
            && t == s.(sent := t.sent, exit := t.exit)
            && (t.exit == Running || (t.exit == Dropped && !sendOk && t.sent == s.sent))
            && (t.exit == Running ==>
                  TurnsSent(t.sent, session)
                  == (if owner != session then was
                      else if done then Turns(was.closed + [was.open + chunks], [])
                      else was.(open := was.open + chunks)))
  {
    hide TurnsSent;
    var was := TurnsSent(s.sent, session);
    ConcatAssociates(was.open, [], []);
    if chunks != [] || done {
      var f := if |chunks| == 1 then Reply(id, owner, Some(chunks[0]), [], done)
               else Reply(id, owner, None, chunks, done);
      SendTurns(s, f, sendOk, session);
      assert FrameText(f) == chunks;
    }
  }

  /** What a list of released batches holds for one session. */
  function Held(batches: seq<Coalescing.Batch>, session: string): seq<string> {
    if batches == [] then []
    else (if batches[0].session == session then batches[0].chunks else []) + Held(batches[1..], session)
  }

  lemma {:induction false} HeldSnoc(batches: seq<Coalescing.Batch>, b: Coalescing.Batch, session: string)
    ensures Held(batches + [b], session) == Held(batches, session) + if b.session == session then b.chunks else []
  {
    if batches == [] {
      assert [b][1..] == [];
    } else {
      assert (batches + [b])[1..] == batches[1..] + [b];
      HeldSnoc(batches[1..], b, session);
      var head := if batches[0].session == session then batches[0].chunks else [];
      ConcatAssociates(head, Held(batches[1..], session), if b.session == session then b.chunks else []);
    }
  }

  /** Moving one session's whole batch from the buffer to the release. */
  lemma ReleaseOneConserves(rest: Coalescing.Buffer, out: seq<Coalescing.Batch>, key: string, session: string)
    requires key in rest
    ensures Held(out + [Coalescing.Batch(key, rest[key].chunks)], session) + Coalescing.Buffered(rest - {key}, session)
            == Held(out, session) + Coalescing.Buffered(rest, session)
  {
    HeldSnoc(out, Coalescing.Batch(key, rest[key].chunks), session);
    var held := Held(out, session);
    assert held + rest[key].chunks + [] == held + rest[key].chunks;
    assert held + [] == held;
  }

  lemma {:induction false} ReleaseConserves(buffer: Coalescing.Buffer, keys: seq<string>, session: string)
    ensures var (rest, out) := Coalescing.Release(buffer, keys);
            Held(out, session) + Coalescing.Buffered(rest, session) == Coalescing.Buffered(buffer, session)
  {
    if keys == [] {
      assert [] + Coalescing.Buffered(buffer, session) == Coalescing.Buffered(buffer, session);
    } else {
      ReleaseConserves(buffer, Front(keys), session);
      var (rest, out) := Coalescing.Release(buffer, Front(keys));
      if Last(keys) in rest {
        ReleaseOneConserves(rest, out, Last(keys), session);
      }
    }
  }

  lemma SendAllFirst(s: State, batches: seq<Coalescing.Batch>, sends: nat)
    requires s.exit == Running
    ensures batches == [] ==> SendAll(s, batches, sends) == s
    ensures batches != [] ==>
              var b := batches[0];
              var next := SendReply(Mint(s, b.session), ReplyId(s, b.session), b.session, b.chunks, false, sends > 0);
              SendAll(s, batches, sends)
              == if next.exit == Running then SendAll(next, batches[1..], if sends > 0 then sends - 1 else 0) else next
  {
    hide SendReply;
  }

  lemma HeldUnfold(batches: seq<Coalescing.Batch>, session: string)
    ensures batches == [] ==> Held(batches, session) == []
    ensures batches != [] ==>
              Held(batches, session)
              == (if batches[0].session == session then batches[0].chunks else []) + Held(batches[1..], session)
  {
  }

  lemma {:induction false} SendAllTurns(s: State, batches: seq<Coalescing.Batch>, sends: nat, session: string)
    requires s.exit == Running
    ensures var t := SendAll(s, batches, sends);
            var was := TurnsSent(s.sent, session);
            var now := TurnsSent(t.sent, session);
            && t.pending == s.pending && t.lastPromptId == s.lastPromptId && t.blocked == s.blocked
            && now.closed == was.closed
            && (t.exit == Running || t.exit == Dropped)
            && (t.exit == Running ==> now.open == was.open + Held(batches, session))
            && was.open <= now.open <= was.open + Held(batches, session)
    decreases |batches|
  {
    hide TurnsSent, SendReply, SendAll, Held;
    var was := TurnsSent(s.sent, session);
    SendAllFirst(s, batches, sends);
    HeldUnfold(batches, session);
    if batches == [] {
      ConcatAssociates(was.open, [], []);
    } else {
      var b := batches[0];
      var m := Mint(s, b.session);
      var next := SendReply(m, ReplyId(s, b.session), b.session, b.chunks, false, sends > 0);
      SendReplyTurns(m, ReplyId(s, b.session), b.session, b.chunks, false, sends > 0, session);
      var first := if b.session == session then b.chunks else [];
      ConcatAssociates(was.open, first, Held(batches[1..], session));
      ConcatAssociates(was.open, first, []);
      if next.exit == Running {
        SendAllTurns(next, batches[1..], if sends > 0 then sends - 1 else 0, session);
      }
    }
  }

  lemma CutStaysCut(cut: Turns, whole: Turns, event: DriverEvent)
    requires Precedes(cut, whole)
    ensures Precedes(cut, TurnsAfter(event, whole))
  {
    var after := TurnsAfter(event, whole);
    if event.StopReason? && cut.closed == whole.closed {
      assert after.closed[..|cut.closed|] == cut.closed;
    } else if event.StopReason? {
      assert after.closed[..|cut.closed|] == whole.closed[..|cut.closed|];
    }
  }

  /** A text that only joins the buffer. */
  lemma BufferedRefines(s: State, t: State, owner: string, text: string, session: string, turns: Turns)
    requires s.exit == Running && Refines(s, session, turns)
    requires t.exit == Running && t.sent == s.sent
    requires Coalescing.Buffered(t.pending, session)
             == Coalescing.Buffered(s.pending, session) + if owner == session then [text] else []
    ensures Refines(t, session, if owner == session then TurnsAfter(Update(text), turns) else turns)
  {
    var open, held := TurnsSent(s.sent, session).open, Coalescing.Buffered(s.pending, session);
    ConcatAssociates(open, held, [text]);
    ConcatAssociates(held, [], []);
  }

  /** A batch that goes out with the text that filled it. */
  lemma FlushedRefines(s: State, u: State, id: Id, owner: string, text: string, batch: seq<string>, sendOk: bool,
                       session: string, turns: Turns)
    requires s.exit == Running && Refines(s, session, turns)
    requires u.exit == Running && u.sent == s.sent && batch == Coalescing.Buffered(s.pending, owner) + [text]
    requires Coalescing.Buffered(u.pending, session)
             == if owner == session then [] else Coalescing.Buffered(s.pending, session)
    ensures Refines(SendReply(u, id, owner, batch, false, sendOk), session,
                    if owner == session then TurnsAfter(Update(text), turns) else turns)
  {
    var open, held := TurnsSent(s.sent, session).open, Coalescing.Buffered(s.pending, session);
    SendReplyTurns(u, id, owner, batch, false, sendOk, session);
    ConcatAssociates(open, held, [text]);
    ConcatAssociates(open + (held + [text]), [], []);
  }

  /** Where a pushed text goes: into the buffer, or out with what was there. */
  lemma PushedText(buffer: Coalescing.Buffer, owner: string, text: string, now: nat, session: string)
    ensures var (after, batch) := Coalescing.Push(buffer, MAX_BYTES, owner, text, now);
            var held := Coalescing.Buffered(buffer, session);
            && (batch.Some? ==> batch.value == Coalescing.Buffered(buffer, owner) + [text])
            && Coalescing.Buffered(after, session)
               == (if owner != session then held else if batch.Some? then [] else held + [text])
  {
  }

  lemma UpdateRefines(s: State, owner: string, text: string, now: nat, sendOk: bool, session: string, turns: Turns)
    requires s.exit == Running && Refines(s, session, turns)
    ensures Refines(OnEvent(s, owner, Update(text), now, sendOk), session,
                    if owner == session then TurnsAfter(Update(text), turns) else turns)
  {
    var t := Mint(s, owner);
    var (pending, batch) := Coalescing.Push(t.pending, MAX_BYTES, owner, text, now);
    PushedText(s.pending, owner, text, now, session);
    ConcatAssociates(Coalescing.Buffered(s.pending, session), [], []);
    if batch.Some? {
      FlushedRefines(s, t.(pending := pending), ReplyId(s, owner), owner, text, batch.value, sendOk, session, turns);
    } else {
      BufferedRefines(s, t.(pending := pending), owner, text, session, turns);
    }
  }

  lemma StopRefines(s: State, owner: string, reason: DriverStopReason, now: nat, sendOk: bool, session: string,
                    turns: Turns)
    requires s.exit == Running && Refines(s, session, turns)
    ensures Refines(OnEvent(s, owner, StopReason(reason), now, sendOk), session,
                    if owner == session then TurnsAfter(StopReason(reason), turns) else turns)
  {
    var id := ReplyId(s, owner);
    var t := Mint(s, owner);
    var u := t.(pending := t.pending - {owner}, lastPromptId := t.lastPromptId - {owner});
    SendReplyTurns(u, id, owner, Coalescing.Buffered(t.pending, owner), true, sendOk, session);
    assert (turns.closed + [turns.open])[..|turns.closed|] == turns.closed;
    var none: seq<string> := [];
    ConcatAssociates(none, none, none);
  }

  lemma StatusRefines(s: State, owner: string, status: DriverStatus, now: nat, sendOk: bool, session: string,
                      turns: Turns)
    requires s.exit == Running && Refines(s, session, turns)
    ensures Refines(OnEvent(s, owner, Status(status), now, sendOk), session, turns)
  {
    var t := Mint(s, owner);
    var u := OnEvent(s, owner, Status(status), now, sendOk);
    if u != t {
      var flag := status == Blocked;
      SendTurns(t.(blocked := u.blocked), SessionBlocked(owner, flag), sendOk, session);
    }
  }

  lemma EventRefines(s: State, owner: string, event: DriverEvent, now: nat, sendOk: bool, session: string, turns: Turns)
    requires s.exit == Running && Refines(s, session, turns)
    ensures Refines(OnEvent(s, owner, event, now, sendOk), session,
                    if owner == session then TurnsAfter(event, turns) else turns)
  {
    if event.Update? {
      UpdateRefines(s, owner, event.text, now, sendOk, session, turns);
    } else if event.StopReason? {
      StopRefines(s, owner, event.reason, now, sendOk, session, turns);
    } else {
      StatusRefines(s, owner, event.status, now, sendOk, session, turns);
    }
  }

  lemma FlushRefines(s: State, now: nat, order: seq<string>, sends: nat, session: string, turns: Turns)
    requires s.exit == Running && Refines(s, session, turns)
    ensures Refines(Step(s, Flush(now, order, sends)), session, turns)
  {
    var keys := Coalescing.Expired(s.pending, WINDOW, now, order);
    var (rest, out) := Coalescing.Release(s.pending, keys);
    ReleaseConserves(s.pending, keys, session);
    SendAllTurns(s.(pending := rest), out, sends, session);
    ConcatAssociates(TurnsSent(s.sent, session).open, Held(out, session), Coalescing.Buffered(rest, session));
  }

  lemma StepRefines(s: State, stimulus: Stimulus, session: string, turns: Turns)
    requires Refines(s, session, turns)
    ensures Refines(Step(s, stimulus), session, TurnsAfterStimulus(stimulus, session, turns))
  {
    if s.exit != Running {
      if stimulus.Event? && stimulus.session == session {
        CutStaysCut(TurnsSent(s.sent, session), turns, stimulus.event);
      }
    } else if stimulus.Event? {
      EventRefines(s, stimulus.session, stimulus.event, stimulus.now, stimulus.sendOk, session, turns);
    } else if stimulus.Flush? {
      FlushRefines(s, stimulus.now, stimulus.order, stimulus.sends, session, turns);
    } else {
      PlainStep(s, stimulus);
      var t := Step(s, stimulus);
      if t.sent != s.sent {
        SnocParts(s.sent, Last(t.sent));
      }
    }
  }

  lemma {:induction false} ResyncSendsNoReply(s: State, answers: seq<ResyncAnswer>, session: string)
    requires s.exit == Running && Refines(s, session, NO_TURNS)
    ensures Refines(RunResync(s, answers), session, NO_TURNS)
  {
    if answers != [] {
      ResyncSendsNoReply(s, Front(answers), session);
      var t := RunResync(s, Front(answers));
      var a := Last(answers);
      SendTurns(t.(blocked := t.blocked + {a.session}), SessionBlocked(a.session, true), a.sendOk, session);
    }
  }

  /** The batched reply stream is the one-frame-per-update stream, regrouped:
      for every interleaving of sessions, updates, timer flushes and byte-cap
      flushes, cutting a session's frames at `done` yields exactly the update
      texts between consecutive stop reasons, in order. */
  lemma {:induction false} ReplyStreamRefines(at: nat, answers: seq<ResyncAnswer>, script: seq<Stimulus>,
                                              session: string)
    ensures Refines(Connection(at, answers, script), session, TurnsOf(EventsOf(script, session)))
  {
    var s := RunResync(Start(at), answers);
    if script == [] {
      ResyncSendsNoReply(Start(at), answers, session);
    } else {
      ReplyStreamRefines(at, answers, Front(script), session);
      StepRefines(Run(s, Front(script)), Last(script), session, TurnsOf(EventsOf(Front(script), session)));
      if Last(script).Event? && Last(script).session == session {
        SnocParts(EventsOf(Front(script), session), Last(script).event);
      }
    }
  }

  function DoneFrames(sent: seq<Frame>, session: string): nat {
    if sent == [] then 0
    else DoneFrames(Front(sent), session)
         + if Last(sent).Reply? && Last(sent).session == session && Last(sent).done then 1 else 0
  }

  lemma {:induction false} DoneFramesCloseTurns(sent: seq<Frame>, session: string)
    ensures |TurnsSent(sent, session).closed| == DoneFrames(sent, session)
  {
    if sent != [] {
      DoneFramesCloseTurns(Front(sent), session);
    }
  }

  /** Exactly one `done` frame per stop reason while the connection is up. */
  lemma OneDonePerStopReason(at: nat, answers: seq<ResyncAnswer>, script: seq<Stimulus>, session: string)
    requires Connection(at, answers, script).exit == Running
    ensures DoneFrames(Connection(at, answers, script).sent, session) == StopReasons(EventsOf(script, session))
  {
    ReplyStreamRefines(at, answers, script, session);
    DoneFramesCloseTurns(Connection(at, answers, script).sent, session);
    ClosedTurnsCountStopReasons(EventsOf(script, session));
  }

  lemma RunOfTwo(s: State, first: Stimulus, second: Stimulus)
    ensures Run(s, [first, second]) == Step(Step(s, first), second)
  {
    assert Front([first, second]) == [first] && Front([first]) == [];
    assert Run(s, []) == s && Run(s, [first]) == Step(s, first);
  }

  lemma UpdateIsBuffered(session: string, text: string)
    requires Coalescing.Utf8Len(text) < MAX_BYTES
    ensures Step(Step(Start(0), Event(session, Update(text), 0, true)), Closed).sent == []
  {
  }

  lemma OneUpdateReceived(session: string, text: string)
    ensures TurnsOf(EventsOf([Event(session, Update(text), 0, true), Closed], session)) == Turns([], [text])
  {
    var update := Event(session, Update(text), 0, true);
    assert Front([update, Closed]) == [update] && Front([update]) == [];
    ConcatAssociates([], [], [Update(text)]);
    assert EventsOf([update], session) == [Update(text)];
    assert Front([Update(text)]) == [];
    assert TurnsOf([Update(text)]) == TurnsAfter(Update(text), NO_TURNS);
  }

  /** Text still buffered when a connection ends is not resent: the cut can be
      strict. One update below the byte cap, then the peer closes. */
  lemma BufferedTextDiesWithTheConnection(session: string, text: string)
    requires Coalescing.Utf8Len(text) < MAX_BYTES
    ensures var script := [Event(session, Update(text), 0, true), Closed];
            && TurnsSent(Connection(0, [], script).sent, session) == NO_TURNS
            && TurnsOf(EventsOf(script, session)) == Turns([], [text])
  {
    RunOfTwo(Start(0), Event(session, Update(text), 0, true), Closed);
    UpdateIsBuffered(session, text);
    OneUpdateReceived(session, text);
    assert RunResync(Start(0), []) == Start(0);
  }

  // ---------------------------------------------------------------------
  // Resident batches
  // ---------------------------------------------------------------------

  lemma {:induction false} SendAllKeepsPending(s: State, batches: seq<Coalescing.Batch>, sends: nat)
    ensures SendAll(s, batches, sends).pending == s.pending
    decreases |batches|
  {
    if batches != [] && s.exit == Running {
      var b := batches[0];
      var next := SendReply(Mint(s, b.session), ReplyId(s, b.session), b.session, b.chunks, false, sends > 0);
      SendAllKeepsPending(next, batches[1..], if sends > 0 then sends - 1 else 0);
    }
  }

  /** What an event does to the buffer. */
  lemma EventPending(s: State, owner: string, event: DriverEvent, now: nat, sendOk: bool)
    ensures OnEvent(s, owner, event, now, sendOk).pending ==
              match event
              case Update(text) => Coalescing.Push(s.pending, MAX_BYTES, owner, text, now).0
              case StopReason(_) => s.pending - {owner}
              case Status(_) => s.pending
  {
    var id := ReplyId(s, owner);
    var t := Mint(s, owner);
    if event.Update? {
      var (pending, batch) := Coalescing.Push(t.pending, MAX_BYTES, owner, event.text, now);
      if batch.Some? {
        SendReplyShape(t.(pending := pending), id, owner, batch.value, false, sendOk);
      }
    } else if event.StopReason? {
      var u := t.(pending := t.pending - {owner}, lastPromptId := t.lastPromptId - {owner});
      SendReplyShape(u, id, owner, Coalescing.Buffered(t.pending, owner), true, sendOk);
    }
  }

  lemma EventKeepsWellFormed(s: State, owner: string, event: DriverEvent, now: nat, sendOk: bool)
    requires Coalescing.WellFormed(s.pending, MAX_BYTES)
    ensures Coalescing.WellFormed(OnEvent(s, owner, event, now, sendOk).pending, MAX_BYTES)
  {
    EventPending(s, owner, event, now, sendOk);
    if event.Update? {
      Coalescing.PushMeaning(s.pending, MAX_BYTES, owner, event.text, now);
    }
  }

  lemma StepKeepsWellFormed(s: State, stimulus: Stimulus)
    requires Coalescing.WellFormed(s.pending, MAX_BYTES)
    ensures Coalescing.WellFormed(Step(s, stimulus).pending, MAX_BYTES)
  {
    if s.exit == Running {
      match stimulus
      case Event(session, event, now, sendOk) => EventKeepsWellFormed(s, session, event, now, sendOk);
      case Flush(now, order, sends) =>
        var keys := Coalescing.Expired(s.pending, WINDOW, now, order);
        var (rest, out) := Coalescing.Release(s.pending, keys);
        Coalescing.ReleaseIsWhole(s.pending, keys);
        assert Coalescing.WellFormed(rest, MAX_BYTES);
        SendAllKeepsPending(s.(pending := rest), out, sends);
      case _ => PlainStep(s, stimulus);
    }
  }

  lemma {:induction false} ResyncBuffersNothing(s: State, answers: seq<ResyncAnswer>)
    ensures var t := RunResync(s, answers);
            t.pending == s.pending && t.lastPromptId == s.lastPromptId && t.minted == s.minted
  {
    if answers != [] {
      ResyncBuffersNothing(s, Front(answers));
    }
  }

  /** Over every run, everything resident is non-empty, measured and under the cap. */
  lemma {:induction false} BuffersStayWellFormed(at: nat, answers: seq<ResyncAnswer>, script: seq<Stimulus>)
    ensures Coalescing.WellFormed(Connection(at, answers, script).pending, MAX_BYTES)
  {
    if script == [] {
      ResyncBuffersNothing(Start(at), answers);
    } else {
      BuffersStayWellFormed(at, answers, Front(script));
      StepKeepsWellFormed(Connection(at, answers, Front(script)), Last(script));
    }
  }

  // ---------------------------------------------------------------------
  // What the end of a connection loses
  // ---------------------------------------------------------------------

  lemma {:induction false} HeldNothing(batches: seq<Coalescing.Batch>, session: string)
    requires forall i :: 0 <= i < |batches| ==> batches[i].session != session
    ensures Held(batches, session) == []
  {
    if batches != [] {
      HeldNothing(batches[1..], session);
    }
  }

  /** Releases name a session at most once, so a session holds the whole of its
      own batch. */
  lemma {:induction false} HeldIsOne(batches: seq<Coalescing.Batch>, session: string, k: nat)
    requires k < |batches| && batches[k].session == session
    requires forall i, j :: 0 <= i < j < |batches| ==> batches[i].session != batches[j].session
    ensures Held(batches, session) == batches[k].chunks
  {
    var rest := batches[1..];
    assert forall i :: 0 <= i < |rest| ==> rest[i] == batches[i + 1];
    if k == 0 {
      HeldNothing(rest, session);
      assert batches[0].chunks + [] == batches[0].chunks;
    } else {
      HeldIsOne(rest, session, k - 1);
      assert [] + rest[k - 1].chunks == rest[k - 1].chunks;
    }
  }

  lemma HeldFirst(b: Coalescing.Batch, rest: seq<Coalescing.Batch>, sends: nat, session: string)
    requires sends > 0
    ensures var batches := [b] + rest;
            Held(if sends < |batches| then batches[..sends] else batches, session)
            == (if b.session == session then b.chunks else [])
               + Held(if sends < |batches| then rest[..sends - 1] else rest, session)
  {
    var batches := [b] + rest;
    assert batches[1..] == rest;
    if sends < |batches| {
      assert batches[..sends][1..] == rest[..sends - 1];
    }
  }

  lemma FirstSendFails(s: State, batches: seq<Coalescing.Batch>)
    requires s.exit == Running && batches != [] && batches[0].chunks != []
    ensures SendAll(s, batches, 0).exit == Dropped && SendAll(s, batches, 0).sent == s.sent
  {
  }

  lemma SendAllUnfold(s: State, batches: seq<Coalescing.Batch>, sends: nat)
    requires s.exit == Running && batches != [] && sends > 0
    ensures var b := batches[0];
            SendAll(s, batches, sends)
            == SendAll(SendReply(Mint(s, b.session), ReplyId(s, b.session), b.session, b.chunks, false, true),
                       batches[1..], sends - 1)
  {
    hide SendReply;
  }

  lemma FirstSent(open: seq<string>, b: Coalescing.Batch, rest: seq<Coalescing.Batch>, sends: nat, session: string)
    requires sends > 0
    ensures var batches := [b] + rest;
            (if b.session == session then open + b.chunks else open)
            + Held(if sends < |batches| then rest[..sends - 1] else rest, session)
            == open + Held(if sends < |batches| then batches[..sends] else batches, session)
  {
    var batches := [b] + rest;
    var later := Held(if sends < |batches| then rest[..sends - 1] else rest, session);
    HeldFirst(b, rest, sends, session);
    ConcatAssociates(open, if b.session == session then b.chunks else [], later);
    ConcatAssociates(open, [], later);
  }

  lemma NoneSent(s: State, batches: seq<Coalescing.Batch>, session: string)
    requires s.exit == Running && forall i :: 0 <= i < |batches| ==> batches[i].chunks != []
    ensures Held([], session) == []
    ensures SendAll(s, [], 0) == s
    ensures SendAll(s, batches, 0).sent == s.sent && (SendAll(s, batches, 0).exit == Running <==> batches == [])
  {
    if batches != [] {
      FirstSendFails(s, batches);
    }
  }

  /** A flush sends batch by batch: what gets out is exactly the first `sends`. */
  lemma {:induction false} SendAllSendsFirst(s: State, batches: seq<Coalescing.Batch>, sends: nat, session: string)
    requires s.exit == Running && forall i :: 0 <= i < |batches| ==> batches[i].chunks != []
    ensures var t := SendAll(s, batches, sends);
            var out := if sends < |batches| then batches[..sends] else batches;
            && (t.exit == Running <==> |batches| <= sends)
            && TurnsSent(t.sent, session)
               == TurnsSent(s.sent, session).(open := TurnsSent(s.sent, session).open + Held(out, session))
    decreases |batches|
  {
    var was := TurnsSent(s.sent, session);
    if batches == [] || sends == 0 {
      NoneSent(s, batches, session);
      ConcatAssociates(was.open, [], []);
    } else {
      hide TurnsSent, SendReply, SendAll, Held;
      var b, rest := batches[0], batches[1..];
      assert batches == [b] + rest;
      var m := Mint(s, b.session);
      var next := SendReply(m, ReplyId(s, b.session), b.session, b.chunks, false, true);
      SendAllUnfold(s, batches, sends);
      SendReplyTurns(m, ReplyId(s, b.session), b.session, b.chunks, false, true, session);
      SendAllSendsFirst(next, rest, sends - 1, session);
      FirstSent(was.open, b, rest, sends, session);
    }
  }

  ghost predicate Among(batches: seq<Coalescing.Batch>, sends: nat, session: string) {
    exists k: nat :: k < |batches| && k < sends && batches[k].session == session
  }

  /** The session's batch is among the first `sends` that a flush releases. */
  ghost predicate FlushedInTime(buffer: Coalescing.Buffer, now: nat, order: seq<string>, sends: nat, session: string) {
    Among(Coalescing.Due(buffer, WINDOW, now, order).1, sends, session)
  }

  /** Whether everything a session was sent had reached the wire when `last`
      ended the connection. */
  ghost predicate GotOut(s: State, last: Stimulus, session: string) {
    match last
    case Event(owner, event, _, _) => session !in s.pending && (owner == session ==> event.Status?)
    case Flush(now, order, sends) => session !in s.pending || FlushedInTime(s.pending, now, order, sends, session)
    case _ => session !in s.pending
  }

  /** Of a release, the first `sends` batches hold all of a session's text iff
      there was none or its batch is among them. */
  lemma FirstHoldAll(buffer: Coalescing.Buffer, out: seq<Coalescing.Batch>, sends: nat, session: string)
    requires sends <= |out| && Coalescing.WellFormed(buffer, MAX_BYTES)
    requires forall b :: b in out ==> b.session in buffer && b.chunks == buffer[b.session].chunks
    requires forall i, j :: 0 <= i < j < |out| ==> out[i].session != out[j].session
    ensures Held(out[..sends], session) == Coalescing.Buffered(buffer, session)
            <==> session !in buffer || Among(out, sends, session)
  {
    var first := out[..sends];
    if Among(out, sends, session) {
      var k: nat :| k < |out| && k < sends && out[k].session == session;
      assert first[k] == out[k] && out[k] in out;
      HeldIsOne(first, session, k);
    } else {
      forall i | 0 <= i < |first| ensures first[i].session != session {
        assert first[i] == out[i];
      }
      HeldNothing(first, session);
    }
  }

  lemma SameOpen(open: seq<string>, sent: seq<string>, held: seq<string>)
    ensures open + sent == open + held <==> sent == held
  {
    if open + sent == open + held {
      assert sent == (open + sent)[|open|..] == (open + held)[|open|..] == held;
    }
  }

  lemma FlushLoses(s: State, now: nat, order: seq<string>, sends: nat, session: string, turns: Turns)
    requires s.exit == Running && Refines(s, session, turns) && Coalescing.WellFormed(s.pending, MAX_BYTES)
    requires Step(s, Flush(now, order, sends)).exit != Running
    ensures TurnsSent(Step(s, Flush(now, order, sends)).sent, session) == turns
            <==> session !in s.pending || FlushedInTime(s.pending, now, order, sends, session)
  {
    hide TurnsSent, Held, SendAll, Among, Coalescing.Release, Coalescing.Expired, Coalescing.Buffered;
    var keys := Coalescing.Expired(s.pending, WINDOW, now, order);
    var (rest, out) := Coalescing.Release(s.pending, keys);
    Coalescing.ReleaseIsWhole(s.pending, keys);
    forall b | b in out ensures b.chunks != [] {
      assert b.session in s.pending;
    }
    SendAllSendsFirst(s.(pending := rest), out, sends, session);
    FirstHoldAll(s.pending, out, sends, session);
    SameOpen(TurnsSent(s.sent, session).open, Held(out[..sends], session), Coalescing.Buffered(s.pending, session));
  }

  /** A reply that could not be sent leaves the wire as it was. */
  lemma FailedSend(s: State, last: Stimulus)
    requires s.exit == Running && Step(s, last).exit != Running && last.Event?
    ensures Step(s, last).sent == s.sent
  {
    hide SendReply, TurnsSent;
    var t := Mint(s, last.session);
    var id := ReplyId(s, last.session);
    if last.event.Update? {
      var (pending, batch) := Coalescing.Push(t.pending, MAX_BYTES, last.session, last.event.text, last.now);
      if batch.Some? {
        SendReplyTurns(t.(pending := pending), id, last.session, batch.value, false, last.sendOk, "");
      }
    } else if last.event.StopReason? {
      var u := t.(pending := t.pending - {last.session}, lastPromptId := t.lastPromptId - {last.session});
      SendReplyTurns(u, id, last.session, Coalescing.Buffered(t.pending, last.session), true, last.sendOk, "");
    }
  }

  lemma EventLoses(s: State, last: Stimulus, session: string, turns: Turns)
    requires s.exit == Running && Refines(s, session, turns) && Coalescing.WellFormed(s.pending, MAX_BYTES)
    requires last.Event? && Step(s, last).exit != Running
    ensures TurnsSent(Step(s, last).sent, session) == TurnsAfterStimulus(last, session, turns)
            <==> GotOut(s, last, session)
  {
    FailedSend(s, last);
    var open, held := TurnsSent(s.sent, session).open, Coalescing.Buffered(s.pending, session);
    SameOpen(open, [], held);
    ConcatAssociates(open, [], []);
    if last.session == session && last.event.Update? {
      assert |turns.open + [last.event.text]| > |open|;
    } else if last.session == session && last.event.StopReason? {
      assert |turns.closed + [turns.open]| > |turns.closed|;
    }
  }

  lemma EventsSnoc(script: seq<Stimulus>, last: Stimulus, session: string)
    ensures TurnsOf(EventsOf(script + [last], session))
            == TurnsAfterStimulus(last, session, TurnsOf(EventsOf(script, session)))
  {
    SnocParts(script, last);
    if last.Event? && last.session == session {
      SnocParts(EventsOf(script, session), last.event);
    }
  }

  lemma PlainEnds(s: State, last: Stimulus, session: string)
    requires s.exit == Running && !last.Event? && !last.Flush?
    ensures TurnsSent(Step(s, last).sent, session) == TurnsSent(s.sent, session)
  {
    PlainStep(s, last);
    var t := Step(s, last);
    if t.sent != s.sent {
      SnocParts(s.sent, Last(t.sent));
    }
  }

  /** Exactly when the end of a connection loses nothing of a session: nothing of
      it was buffered and it was not the one whose reply failed, or the flush
      that failed had already sent its batch. */
  lemma NothingLostIff(at: nat, answers: seq<ResyncAnswer>, script: seq<Stimulus>, last: Stimulus,
                                          session: string)
    requires Connection(at, answers, script).exit == Running
    requires Connection(at, answers, script + [last]).exit != Running
    ensures TurnsSent(Connection(at, answers, script + [last]).sent, session)
            == TurnsOf(EventsOf(script + [last], session))
            <==> GotOut(Connection(at, answers, script), last, session)
  {
    var s := Connection(at, answers, script);
    var turns := TurnsOf(EventsOf(script, session));
    SnocParts(script, last);
    EventsSnoc(script, last, session);
    ReplyStreamRefines(at, answers, script, session);
    BuffersStayWellFormed(at, answers, script);
    if last.Event? {
      EventLoses(s, last, session, turns);
    } else if last.Flush? {
      FlushLoses(s, last.now, last.order, last.sends, session, turns);
    } else {
      PlainEnds(s, last, session);
      SameOpen(TurnsSent(s.sent, session).open, [], Coalescing.Buffered(s.pending, session));
      ConcatAssociates(TurnsSent(s.sent, session).open, [], []);
    }
  }

  // ---------------------------------------------------------------------
  // Reply correlation
  // ---------------------------------------------------------------------

  /** The latest prompt accepted for a session since its last stop reason. */
  function LatestPrompt(script: seq<Stimulus>, session: string): Option<string> {
    if script == [] then None
    else match Last(script)
      case InPrompt(id, target, Delivered, _) =>
        if target == session then Some(id) else LatestPrompt(Front(script), session)
      case Event(owner, StopReason(_), _, _) =>
        if owner == session then None else LatestPrompt(Front(script), session)
      case _ => LatestPrompt(Front(script), session)
  }

  ghost predicate Remembers(s: State, session: string, latest: Option<string>) {
    match latest
    case Some(id) => session in s.lastPromptId && s.lastPromptId[session] == id
    case None => session !in s.lastPromptId
  }

  /** Every reply frame from position `from` on carries its session's remembered
      id, or a serial not below `serial` where none is remembered. */
  ghost predicate Correlated(sent: seq<Frame>, from: nat, last: map<string, string>, serial: nat, minted: nat) {
    forall k :: from <= k < |sent| && sent[k].Reply? ==>
      match sent[k].id
      case Wire(id) => sent[k].session in last && last[sent[k].session] == id
      case Minted(n) => sent[k].session !in last && serial <= n < minted
  }

  lemma {:induction false} SendAllCorrelated(s: State, batches: seq<Coalescing.Batch>, sends: nat, from: nat,
                                             serial: nat)
    requires serial <= s.minted && from <= |s.sent|
    requires Correlated(s.sent, from, s.lastPromptId, serial, s.minted)
    ensures var t := SendAll(s, batches, sends);
            && Correlated(t.sent, from, s.lastPromptId, serial, t.minted)
            && t.lastPromptId == s.lastPromptId
            && t.minted >= s.minted && s.sent <= t.sent
    decreases |batches|
  {
    if batches != [] && s.exit == Running {
      var b := batches[0];
      var id := ReplyId(s, b.session);
      var m := Mint(s, b.session);
      var next := SendReply(m, id, b.session, b.chunks, false, sends > 0);
      SendReplyShape(m, id, b.session, b.chunks, false, sends > 0);
      SendAllCorrelated(next, batches[1..], if sends > 0 then sends - 1 else 0, from, serial);
    }
  }

  /** Frames sent by a reply step carry the id it was given. */
  lemma ReplyCorrelates(s: State, u: State, owner: string, chunks: seq<string>, done: bool, sendOk: bool)
    requires u.sent == s.sent && u.minted == Mint(s, owner).minted
    ensures var t := SendReply(u, ReplyId(s, owner), owner, chunks, done, sendOk);
            s.sent <= t.sent && t.minted == u.minted
            && Correlated(t.sent, |s.sent|, s.lastPromptId, s.minted, t.minted)
  {
    SendReplyShape(u, ReplyId(s, owner), owner, chunks, done, sendOk);
  }

  lemma StatusCorrelates(s: State, owner: string, status: DriverStatus, now: nat, sendOk: bool)
    ensures var t := OnEvent(s, owner, Status(status), now, sendOk);
            s.sent <= t.sent && s.minted <= t.minted
            && Correlated(t.sent, |s.sent|, s.lastPromptId, s.minted, t.minted)
  {
  }

  lemma EventCorrelates(s: State, owner: string, event: DriverEvent, now: nat, sendOk: bool)
    requires s.exit == Running
    ensures var t := OnEvent(s, owner, event, now, sendOk);
            s.sent <= t.sent && s.minted <= t.minted
            && Correlated(t.sent, |s.sent|, s.lastPromptId, s.minted, t.minted)
  {
    var t := Mint(s, owner);
    if event.Update? {
      var (pending, batch) := Coalescing.Push(t.pending, MAX_BYTES, owner, event.text, now);
      if batch.Some? {
        hide SendReply, Correlated;
        ReplyCorrelates(s, t.(pending := pending), owner, batch.value, false, sendOk);
      }
    } else if event.StopReason? {
      hide SendReply, Correlated;
      var u := t.(pending := t.pending - {owner}, lastPromptId := t.lastPromptId - {owner});
      ReplyCorrelates(s, u, owner, Coalescing.Buffered(t.pending, owner), true, sendOk);
    } else {
      StatusCorrelates(s, owner, event.status, now, sendOk);
    }
  }

  lemma StepCorrelates(s: State, stimulus: Stimulus)
    ensures var t := Step(s, stimulus);
            s.sent <= t.sent && s.minted <= t.minted
            && Correlated(t.sent, |s.sent|, s.lastPromptId, s.minted, t.minted)
  {
    if s.exit == Running {
      match stimulus
      case Flush(now, order, sends) =>
        var (rest, out) := Coalescing.Due(s.pending, WINDOW, now, order);
        SendAllCorrelated(s.(pending := rest), out, sends, |s.sent|, s.minted);
      case Event(owner, event, now, sendOk) => EventCorrelates(s, owner, event, now, sendOk);
      case _ => PlainStep(s, stimulus);
    }
  }

  /** Only a stop reason makes the loop forget a prompt id. */
  lemma EventForgets(s: State, owner: string, event: DriverEvent, now: nat, sendOk: bool)
    ensures OnEvent(s, owner, event, now, sendOk).lastPromptId
            == if event.StopReason? then s.lastPromptId - {owner} else s.lastPromptId
  {
    var id := ReplyId(s, owner);
    var t := Mint(s, owner);
    if event.Update? {
      var (pending, batch) := Coalescing.Push(t.pending, MAX_BYTES, owner, event.text, now);
      if batch.Some? {
        hide SendReply;
        SendReplyShape(t.(pending := pending), id, owner, batch.value, false, sendOk);
      }
    } else if event.StopReason? {
      hide SendReply;
      var u := t.(pending := t.pending - {owner}, lastPromptId := t.lastPromptId - {owner});
      SendReplyShape(u, id, owner, Coalescing.Buffered(t.pending, owner), true, sendOk);
    }
  }

  lemma StepRemembers(s: State, stimulus: Stimulus, session: string, latest: Option<string>)
    requires s.exit == Running && Remembers(s, session, latest)
    ensures var t := Step(s, stimulus);
            Remembers(t, session,
              if stimulus.InPrompt? && stimulus.delivery == Delivered && stimulus.session == session
              then Some(stimulus.id)
              else if stimulus.Event? && stimulus.event.StopReason? && stimulus.session == session then None
              else latest)
  {
    if stimulus.Flush? {
      hide SendAll;
      var (rest, out) := Coalescing.Due(s.pending, WINDOW, stimulus.now, stimulus.order);
      SendAllCorrelated(s.(pending := rest), out, stimulus.sends, |s.sent|, s.minted);
    } else if stimulus.Event? {
      hide OnEvent;
      EventForgets(s, stimulus.session, stimulus.event, stimulus.now, stimulus.sendOk);
    } else if !stimulus.InPrompt? {
      PlainStep(s, stimulus);
    }
  }

  lemma StepStaysEnded(s: State, stimulus: Stimulus)
    ensures s.exit != Running ==> Step(s, stimulus) == s
  {
  }

  lemma {:induction false} LastPromptIsLatest(at: nat, answers: seq<ResyncAnswer>, script: seq<Stimulus>,
                                              session: string)
    requires Connection(at, answers, script).exit == Running
    ensures Remembers(Connection(at, answers, script), session, LatestPrompt(script, session))
  {
    if script == [] {
      ResyncBuffersNothing(Start(at), answers);
    } else {
      var s := Connection(at, answers, Front(script));
      StepStaysEnded(s, Last(script));
      LastPromptIsLatest(at, answers, Front(script), session);
      StepRemembers(s, Last(script), session, LatestPrompt(Front(script), session));
    }
  }

  /** Every reply frame, streamed, debounced or terminal, carries the id of the
      latest prompt accepted for its session since that session's last stop
      reason, and if there is none an id minted in that step (see
      `MintedIdsAreDistinct`). */
  lemma ReplyCorrelation(at: nat, answers: seq<ResyncAnswer>, script: seq<Stimulus>, next: Stimulus)
    ensures var s := Connection(at, answers, script);
            var t := Connection(at, answers, script + [next]);
            && s.sent <= t.sent
            && forall k :: |s.sent| <= k < |t.sent| && t.sent[k].Reply? ==>
                 match LatestPrompt(script, t.sent[k].session)
                 case Some(id) => t.sent[k].id == Wire(id)
                 case None => t.sent[k].id.Minted? && s.minted <= t.sent[k].id.serial < t.minted
  {
    var s := Connection(at, answers, script);
    SnocParts(script, next);
    var t := Step(s, next);
    StepStaysEnded(s, next);
    StepCorrelates(s, next);
    forall k | |s.sent| <= k < |t.sent| && t.sent[k].Reply?
      ensures match LatestPrompt(script, t.sent[k].session)
              case Some(id) => t.sent[k].id == Wire(id)
              case None => t.sent[k].id.Minted? && s.minted <= t.sent[k].id.serial < t.minted
    {
      LastPromptIsLatest(at, answers, script, t.sent[k].session);
    }
  }

  predicate MintedReply(f: Frame) {
    f.Reply? && f.id.Minted?
  }

  /** Fresh ids are used once: the serials of minted replies only ever go up. */
  ghost predicate FreshIds(sent: seq<Frame>, minted: nat) {
    && (forall i :: 0 <= i < |sent| && MintedReply(sent[i]) ==> sent[i].id.serial < minted)
    && (forall i, j :: 0 <= i < j < |sent| && MintedReply(sent[i]) && MintedReply(sent[j]) ==>
          sent[i].id.serial < sent[j].id.serial)
  }

  lemma ReplyKeepsFresh(s: State, u: State, owner: string, chunks: seq<string>, done: bool, sendOk: bool)
    requires FreshIds(s.sent, s.minted) && u.sent == s.sent && u.minted == Mint(s, owner).minted
    ensures var t := SendReply(u, ReplyId(s, owner), owner, chunks, done, sendOk);
            FreshIds(t.sent, t.minted)
  {
    SendReplyShape(u, ReplyId(s, owner), owner, chunks, done, sendOk);
  }

  lemma {:induction false} SendAllKeepsFresh(s: State, batches: seq<Coalescing.Batch>, sends: nat)
    requires FreshIds(s.sent, s.minted)
    ensures FreshIds(SendAll(s, batches, sends).sent, SendAll(s, batches, sends).minted)
    decreases |batches|
  {
    if batches != [] && s.exit == Running {
      var b := batches[0];
      ReplyKeepsFresh(s, Mint(s, b.session), b.session, b.chunks, false, sends > 0);
      SendAllKeepsFresh(SendReply(Mint(s, b.session), ReplyId(s, b.session), b.session, b.chunks, false, sends > 0),
                        batches[1..], if sends > 0 then sends - 1 else 0);
    }
  }

  lemma OtherKeepsFresh(s: State, frame: Frame, sendOk: bool)
    requires FreshIds(s.sent, s.minted) && !frame.Reply?
    ensures FreshIds(Send(s, frame, sendOk).sent, s.minted)
  {
  }

  lemma LaterStaysFresh(sent: seq<Frame>, minted: nat, later: nat)
    requires FreshIds(sent, minted) && minted <= later
    ensures FreshIds(sent, later)
  {
  }

  lemma StatusKeepsFresh(s: State, owner: string, status: DriverStatus, now: nat, sendOk: bool)
    requires FreshIds(s.sent, s.minted)
    ensures var t := OnEvent(s, owner, Status(status), now, sendOk);
            FreshIds(t.sent, t.minted)
  {
    hide FreshIds;
    var t := Mint(s, owner);
    LaterStaysFresh(s.sent, s.minted, t.minted);
    OtherKeepsFresh(t.(blocked := t.blocked + {owner}), SessionBlocked(owner, true), sendOk);
    OtherKeepsFresh(t.(blocked := t.blocked - {owner}), SessionBlocked(owner, false), sendOk);
  }

  lemma EventKeepsFresh(s: State, owner: string, event: DriverEvent, now: nat, sendOk: bool)
    requires FreshIds(s.sent, s.minted)
    ensures var t := OnEvent(s, owner, event, now, sendOk);
            FreshIds(t.sent, t.minted)
  {
    var t := Mint(s, owner);
    if event.Update? {
      var (pending, batch) := Coalescing.Push(t.pending, MAX_BYTES, owner, event.text, now);
      if batch.Some? {
        ReplyKeepsFresh(s, t.(pending := pending), owner, batch.value, false, sendOk);
      }
    } else if event.StopReason? {
      var u := t.(pending := t.pending - {owner}, lastPromptId := t.lastPromptId - {owner});
      ReplyKeepsFresh(s, u, owner, Coalescing.Buffered(t.pending, owner), true, sendOk);
    } else {
      StatusKeepsFresh(s, owner, event.status, now, sendOk);
    }
  }

  lemma StepKeepsFresh(s: State, stimulus: Stimulus)
    requires FreshIds(s.sent, s.minted)
    ensures FreshIds(Step(s, stimulus).sent, Step(s, stimulus).minted)
  {
    if s.exit == Running {
      match stimulus
      case Flush(now, order, sends) =>
        var (rest, out) := Coalescing.Due(s.pending, WINDOW, now, order);
        SendAllKeepsFresh(s.(pending := rest), out, sends);
      case Event(owner, event, now, sendOk) => EventKeepsFresh(s, owner, event, now, sendOk);
      case _ => PlainStep(s, stimulus);
    }
  }

  lemma {:induction false} ResyncKeepsFresh(at: nat, answers: seq<ResyncAnswer>)
    ensures FreshIds(RunResync(Start(at), answers).sent, RunResync(Start(at), answers).minted)
  {
    if answers != [] {
      ResyncKeepsFresh(at, Front(answers));
    }
  }

  /** A minted id is never used for a second reply frame of the connection, not
      even within one flush. */
  lemma {:induction false} MintedIdsAreDistinct(at: nat, answers: seq<ResyncAnswer>, script: seq<Stimulus>)
    ensures var sent := Connection(at, answers, script).sent;
            forall i, j :: 0 <= i < j < |sent| && MintedReply(sent[i]) && MintedReply(sent[j]) ==>
              sent[i].id.serial < sent[j].id.serial
    ensures FreshIds(Connection(at, answers, script).sent, Connection(at, answers, script).minted)
  {
    if script == [] {
      ResyncKeepsFresh(at, answers);
    } else {
      MintedIdsAreDistinct(at, answers, Front(script));
      StepKeepsFresh(Connection(at, answers, Front(script)), Last(script));
    }
  }

  /** Nothing in `script` starts another prompt or ends the turn of `session`. */
  ghost predicate SameTurn(script: seq<Stimulus>, session: string) {
    forall i :: 0 <= i < |script| ==>
      && !(script[i].InPrompt? && script[i].delivery == Delivered && script[i].session == session)
      && !(script[i].Event? && script[i].event.StopReason? && script[i].session == session)
  }

  lemma {:induction false} LatestPromptPersists(before: seq<Stimulus>, during: seq<Stimulus>, session: string,
                                                id: string, sendOk: bool)
    requires SameTurn(during, session)
    ensures LatestPrompt(before + [InPrompt(id, session, Delivered, sendOk)] + during, session) == Some(id)
  {
    var head := before + [InPrompt(id, session, Delivered, sendOk)];
    if during == [] {
      assert head + during == head;
    } else {
      assert SameTurn(Front(during), session);
      assert head + during == (head + Front(during)) + [Last(during)];
      SnocParts(head + Front(during), Last(during));
      LatestPromptPersists(before, Front(during), session, id, sendOk);
    }
  }

  /** With prompts sent one at a time, all frames of a turn, the terminal one
      included, reuse the prompt's id. */
  lemma TurnReusesPromptId(at: nat, answers: seq<ResyncAnswer>, before: seq<Stimulus>, during: seq<Stimulus>,
                           session: string, id: string, sendOk: bool, next: Stimulus)
    requires SameTurn(during, session)
    ensures var script := before + [InPrompt(id, session, Delivered, sendOk)] + during;
            var s := Connection(at, answers, script);
            var t := Connection(at, answers, script + [next]);
            && |s.sent| <= |t.sent|
            && forall k :: |s.sent| <= k < |t.sent| && t.sent[k].Reply? && t.sent[k].session == session ==>
                 t.sent[k].id == Wire(id)
  {
    var script := before + [InPrompt(id, session, Delivered, sendOk)] + during;
    ReplyCorrelation(at, answers, script, next);
    LatestPromptPersists(before, during, session, id, sendOk);
  }

  // ---------------------------------------------------------------------
  // `session_blocked` frames
  // ---------------------------------------------------------------------

  function BlockedSent(sent: seq<Frame>, session: string): seq<bool> {
    if sent == [] then []
    else
      var earlier := BlockedSent(Front(sent), session);
      if Last(sent).SessionBlocked? && Last(sent).session == session then earlier + [Last(sent).blocked] else earlier
  }

  /** Strictly alternating, starting with `true`. */
  ghost predicate Alternating(flags: seq<bool>) {
    forall i :: 0 <= i < |flags| ==> (flags[i] <==> i % 2 == 0)
  }

  ghost predicate Announced(s: State, session: string) {
    var flags := BlockedSent(s.sent, session);
    && Alternating(flags)
    && (s.exit == Running ==> (session in s.blocked <==> flags != [] && Last(flags)))
  }

  lemma SendBlocked(s: State, frame: Frame, sendOk: bool, session: string)
    ensures var t := Send(s, frame, sendOk);
            var was := BlockedSent(s.sent, session);
            BlockedSent(t.sent, session) ==
              if sendOk && frame.SessionBlocked? && frame.session == session then was + [frame.blocked] else was
  {
    SnocParts(s.sent, frame);
  }

  lemma ReplyIsNotBlocked(s: State, id: Id, owner: string, chunks: seq<string>, done: bool, sendOk: bool,
                          session: string)
    ensures var t := SendReply(s, id, owner, chunks, done, sendOk);
            BlockedSent(t.sent, session) == BlockedSent(s.sent, session) && t.blocked == s.blocked
  {
    var t := SendReply(s, id, owner, chunks, done, sendOk);
    SendReplyShape(s, id, owner, chunks, done, sendOk);
    if t.sent != s.sent {
      SnocParts(s.sent, Last(t.sent));
    }
  }

  lemma {:induction false} SendAllBlocked(s: State, batches: seq<Coalescing.Batch>, sends: nat, session: string)
    ensures var t := SendAll(s, batches, sends);
            BlockedSent(t.sent, session) == BlockedSent(s.sent, session) && t.blocked == s.blocked
    decreases |batches|
  {
    if batches != [] && s.exit == Running {
      var b := batches[0];
      var m := Mint(s, b.session);
      var id := ReplyId(s, b.session);
      ReplyIsNotBlocked(m, id, b.session, b.chunks, false, sends > 0, session);
      SendAllBlocked(SendReply(m, id, b.session, b.chunks, false, sends > 0), batches[1..],
                     if sends > 0 then sends - 1 else 0, session);
    }
  }

  lemma AlternatingSnoc(flags: seq<bool>, flag: bool)
    requires Alternating(flags)
    requires flag <==> flags == [] || !Last(flags)
    ensures Alternating(flags + [flag])
  {
    if flags != [] {
      assert Last(flags) <==> (|flags| - 1) % 2 == 0;
    }
  }

  /** Announcing a real transition keeps the frames alternating. */
  lemma AnnounceStatus(s: State, owner: string, flag: bool, sendOk: bool, session: string)
    requires s.exit == Running && Announced(s, session)
    ensures flag != (owner in s.blocked) ==>
              Announced(Send(s.(blocked := if flag then s.blocked + {owner} else s.blocked - {owner}),
                             SessionBlocked(owner, flag), sendOk), session)
  {
    if flag != (owner in s.blocked) {
      var u := s.(blocked := if flag then s.blocked + {owner} else s.blocked - {owner});
      var flags := BlockedSent(s.sent, session);
      SendBlocked(u, SessionBlocked(owner, flag), sendOk, session);
      if owner == session {
        AlternatingSnoc(flags, flag);
        SnocParts(flags, flag);
      }
    }
  }

  lemma PlainAnnounces(s: State, stimulus: Stimulus, session: string)
    requires Announced(s, session) && s.exit == Running && !stimulus.Event? && !stimulus.Flush?
    ensures Announced(Step(s, stimulus), session)
  {
    PlainStep(s, stimulus);
    var t := Step(s, stimulus);
    if t.sent != s.sent {
      SnocParts(s.sent, Last(t.sent));
    }
  }

  lemma EventAnnounces(s: State, owner: string, event: DriverEvent, now: nat, sendOk: bool, session: string)
    requires s.exit == Running && Announced(s, session)
    ensures Announced(OnEvent(s, owner, event, now, sendOk), session)
  {
    var id := ReplyId(s, owner);
    var t := Mint(s, owner);
    match event
    case Update(text) =>
      var (pending, batch) := Coalescing.Push(t.pending, MAX_BYTES, owner, text, now);
      if batch.Some? {
        ReplyIsNotBlocked(t.(pending := pending), id, owner, batch.value, false, sendOk, session);
      }
    case StopReason(_) =>
      var u := t.(pending := t.pending - {owner}, lastPromptId := t.lastPromptId - {owner});
      ReplyIsNotBlocked(u, id, owner, Coalescing.Buffered(t.pending, owner), true, sendOk, session);
    case Status(status) => AnnounceStatus(t, owner, status == Blocked, sendOk, session);
  }

  lemma StepAnnounces(s: State, stimulus: Stimulus, session: string)
    requires Announced(s, session)
    ensures Announced(Step(s, stimulus), session)
  {
    if s.exit == Running {
      match stimulus
      case Flush(now, order, sends) =>
        var (rest, out) := Coalescing.Due(s.pending, WINDOW, now, order);
        SendAllBlocked(s.(pending := rest), out, sends, session);
      case Event(owner, event, now, sendOk) => EventAnnounces(s, owner, event, now, sendOk, session);
      case _ => PlainAnnounces(s, stimulus, session);
    }
  }

  /** The sessions a resync has asked about. */
  function Asked(answers: seq<ResyncAnswer>): set<string> {
    set a | a in answers :: a.session
  }

  lemma {:induction false} ResyncAnnounces(at: nat, answers: seq<ResyncAnswer>, session: string)
    requires forall i, j :: 0 <= i < j < |answers| ==> answers[i].session != answers[j].session
    ensures Announced(RunResync(Start(at), answers), session)
    ensures RunResync(Start(at), answers).blocked <= Asked(answers)
  {
    if answers != [] {
      ResyncAnnounces(at, Front(answers), session);
      var t := RunResync(Start(at), Front(answers));
      var a := Last(answers);
      assert a.session !in Asked(Front(answers));
      assert Asked(answers) == Asked(Front(answers)) + {a.session} by {
        assert answers == Front(answers) + [a];
      }
      if t.exit == Running {
        AnnounceStatus(t, a.session, true, a.sendOk, session);
      }
    }
  }

  /** Within a connection a session's `session_blocked` frames strictly
      alternate true, false, true, ..., and the last one sent says whether the
      session is in `blocked_sessions`. */
  lemma {:induction false} BlockedFramesAlternate(at: nat, answers: seq<ResyncAnswer>, script: seq<Stimulus>,
                                                  session: string)
    requires forall i, j :: 0 <= i < j < |answers| ==> answers[i].session != answers[j].session
    ensures Announced(Connection(at, answers, script), session)
  {
    if script == [] {
      ResyncAnnounces(at, answers, session);
    } else {
      BlockedFramesAlternate(at, answers, Front(script), session);
      StepAnnounces(Connection(at, answers, Front(script)), Last(script), session);
    }
  }

  // ---------------------------------------------------------------------
  // Heartbeat
  // ---------------------------------------------------------------------

  lemma {:induction false} SendAllKeepsHeartbeat(s: State, batches: seq<Coalescing.Batch>, sends: nat)
    ensures var t := SendAll(s, batches, sends);
            t.awaitingPong == s.awaitingPong && t.connectedAt == s.connectedAt
    decreases |batches|
  {
    if batches != [] && s.exit == Running {
      var b := batches[0];
      var next := SendReply(Mint(s, b.session), ReplyId(s, b.session), b.session, b.chunks, false, sends > 0);
      SendAllKeepsHeartbeat(next, batches[1..], if sends > 0 then sends - 1 else 0);
    }
  }

  lemma AwaitingPongPersists(s: State, stimulus: Stimulus)
    requires s.exit == Running ==> s.awaitingPong
    requires !stimulus.InPong?
    ensures Step(s, stimulus).exit == Running ==> Step(s, stimulus).awaitingPong
  {
    if s.exit == Running && stimulus.Flush? {
      var (rest, out) := Coalescing.Due(s.pending, WINDOW, stimulus.now, stimulus.order);
      SendAllKeepsHeartbeat(s.(pending := rest), out, stimulus.sends);
    }
  }

  lemma {:induction false} QuietRunAwaits(s: State, quiet: seq<Stimulus>)
    requires s.exit == Running ==> s.awaitingPong
    requires forall i :: 0 <= i < |quiet| ==> !quiet[i].InPong?
    ensures Run(s, quiet).exit == Running ==> Run(s, quiet).awaitingPong
  {
    if quiet != [] {
      QuietRunAwaits(s, Front(quiet));
      AwaitingPongPersists(Run(s, Front(quiet)), Last(quiet));
    }
  }

  lemma {:induction false} RunConcat(s: State, first: seq<Stimulus>, second: seq<Stimulus>)
    ensures Run(s, first + second) == Run(Run(s, first), second)
  {
    if second == [] {
      assert first + second == first;
    } else {
      assert first + second == (first + Front(second)) + [Last(second)];
      SnocParts(first + Front(second), Last(second));
      RunConcat(s, first, Front(second));
    }
  }

  /** The loop never survives two heartbeat ticks with no `pong` between them. */
  lemma SecondSilentTickEnds(s: State, quiet: seq<Stimulus>, at1: nat, ok1: bool, at2: nat, ok2: bool)
    requires forall i :: 0 <= i < |quiet| ==> !quiet[i].InPong?
    ensures Run(s, [Heartbeat(at1, ok1)] + quiet + [Heartbeat(at2, ok2)]).exit != Running
  {
    var tick := [Heartbeat(at1, ok1)];
    SnocParts([], Heartbeat(at1, ok1));
    assert tick == [] + tick;
    assert Run(s, tick) == Step(Run(s, []), Heartbeat(at1, ok1));
    QuietRunAwaits(Run(s, tick), quiet);
    RunConcat(s, tick, quiet);
    SnocParts(tick + quiet, Heartbeat(at2, ok2));
  }
}
