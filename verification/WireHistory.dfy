/** One connection told from its stimuli alone (src/connection.rs): what it holds
    back and since when, which sessions it has announced as blocked, which frames
    are called for, which of them get out, and when the connection ends. No
    definition here looks at the loop's state; `ConnectionIsHistory` says the loop
    sends exactly these frames and ends exactly then. */
module WireHistory {
  import opened Common
  import opened DriverEvents
  import opened WireLoop
  import opened WireTheorems
  import WireAnswers
  import Coalescing

  // ---------------------------------------------------------------------
  // What is held back
  // ---------------------------------------------------------------------

  /** Reply text not yet sent, and when the oldest of it came. */
  datatype HeldBack = HeldBack(since: nat, texts: seq<string>)

  function TextsOf(held: Option<HeldBack>): seq<string> {
    if held.Some? then held.value.texts else []
  }

  predicate Overdue(held: Option<HeldBack>, now: nat) {
    held.Some? && now >= held.value.since + 50
  }

  /** The text a session has waiting: texts join what is held until together they
      reach 64 KiB, a stop reason takes all of it, and so does a flush that walks
      over the session fifty milliseconds or more after the first of it came. */
  function HeldFor(script: seq<Stimulus>, session: string): Option<HeldBack> {
    if script == [] then None
    else
      var held := HeldFor(Front(script), session);
      match Last(script)
      case Event(owner, Update(text), now, _) =>
        if owner != session then held
        else if Coalescing.Bytes(TextsOf(held) + [text]) >= 65536 then None
        else Some(HeldBack(if held.Some? then held.value.since else now, TextsOf(held) + [text]))
      case Event(owner, StopReason(_), _, _) => if owner == session then None else held
      case Flush(now, order, _) => if session in order && Overdue(held, now) then None else held
      case _ => held
  }

  ghost predicate Holds(buffer: Coalescing.Buffer, session: string, held: Option<HeldBack>) {
    match held
    case None => session !in buffer
    case Some(h) =>
      session in buffer && buffer[session].chunks == h.texts && buffer[session].openedAt == h.since
  }

  lemma PushHolds(buffer: Coalescing.Buffer, owner: string, text: string, now: nat, session: string,
                  held: Option<HeldBack>)
    requires Coalescing.WellFormed(buffer, MAX_BYTES) && Holds(buffer, session, held)
    ensures Holds(Coalescing.Push(buffer, MAX_BYTES, owner, text, now).0, session,
                  if owner != session then held
                  else if Coalescing.Bytes(TextsOf(held) + [text]) >= 65536 then None
                  else Some(HeldBack(if held.Some? then held.value.since else now, TextsOf(held) + [text])))
  {
    hide Coalescing.Push, Coalescing.Bytes;
    Coalescing.PushMeaning(buffer, MAX_BYTES, owner, text, now);
  }

  lemma FlushHolds(buffer: Coalescing.Buffer, now: nat, order: seq<string>, session: string, held: Option<HeldBack>)
    requires Holds(buffer, session, held)
    ensures Holds(Coalescing.Due(buffer, WINDOW, now, order).0, session,
                  if session in order && Overdue(held, now) then None else held)
  {
    var keys := Coalescing.Expired(buffer, WINDOW, now, order);
    Coalescing.ExpiredIsFilter(buffer, WINDOW, now, order);
    Coalescing.ReleaseIsWhole(buffer, keys);
  }

  lemma StepHolds(s: State, last: Stimulus, script: seq<Stimulus>, session: string)
    requires s.exit == Running && Coalescing.WellFormed(s.pending, MAX_BYTES)
    requires Holds(s.pending, session, HeldFor(script, session))
    ensures Holds(Step(s, last).pending, session, HeldFor(script + [last], session))
  {
    hide Coalescing.Push, Coalescing.Bytes, Coalescing.Due, OnEvent, SendAll;
    SnocParts(script, last);
    var held := HeldFor(script, session);
    if last.Event? {
      EventPending(s, last.session, last.event, last.now, last.sendOk);
      if last.event.Update? {
        PushHolds(s.pending, last.session, last.event.text, last.now, session, held);
      }
    } else if last.Flush? {
      var (rest, out) := Coalescing.Due(s.pending, WINDOW, last.now, last.order);
      FlushHolds(s.pending, last.now, last.order, session, held);
      SendAllKeepsPending(s.(pending := rest), out, last.sends);
    } else {
      PlainStep(s, last);
    }
  }

  /** While the connection is up, a session has text resident exactly while its
      history holds some back, that text, since then. */
  lemma {:induction false} ResidentIsHeld(at: nat, answers: seq<ResyncAnswer>, script: seq<Stimulus>,
                                          session: string)
    requires Connection(at, answers, script).exit == Running
    ensures Holds(Connection(at, answers, script).pending, session, HeldFor(script, session))
  {
    if script == [] {
      ResyncBuffersNothing(Start(at), answers);
    } else {
      var s := Connection(at, answers, Front(script));
      StepStaysEnded(s, Last(script));
      ResidentIsHeld(at, answers, Front(script), session);
      BuffersStayWellFormed(at, answers, Front(script));
      StepHolds(s, Last(script), Front(script), session);
      assert script == Front(script) + [Last(script)];
    }
  }

  /** A flush lets go of a session it walks over exactly when something of it has
      been held for fifty milliseconds. */
  lemma FlushLetsGoIff(at: nat, answers: seq<ResyncAnswer>, script: seq<Stimulus>, now: nat, order: seq<string>,
                       sends: nat, session: string)
    requires Connection(at, answers, script).exit == Running
    requires session in Connection(at, answers, script).pending && session in order
    ensures HeldFor(script, session).Some?
    ensures session !in Connection(at, answers, script + [Flush(now, order, sends)]).pending
            <==> now >= HeldFor(script, session).value.since + 50
  {
    ResidentIsHeld(at, answers, script, session);
    BuffersStayWellFormed(at, answers, script);
    SnocParts(script, Flush(now, order, sends));
    StepHolds(Connection(at, answers, script), Flush(now, order, sends), script, session);
  }

  // ---------------------------------------------------------------------
  // What is sent, and when the connection ends
  // ---------------------------------------------------------------------

  /** The session was blocked when the connection came up, or has become so, and
      has not been unblocked since. */
  predicate ToldBlocked(answers: seq<ResyncAnswer>, script: seq<Stimulus>, session: string) {
    if script == [] then exists a :: a in answers && a.session == session && a.isBlocked
    else match Last(script)
      case Event(owner, Status(status), _, _) =>
        if owner == session then status == Blocked else ToldBlocked(answers, Front(script), session)
      case _ => ToldBlocked(answers, Front(script), session)
  }

  /** A reply to the session's latest prompt, or to none: one text travels as
      `text`, any other number as `chunks`. */
  function ReplyTo(latest: Option<string>, session: string, texts: seq<string>, done: bool): Frame {
    var id := if latest.Some? then Wire(latest.value) else Minted(0);
    if |texts| == 1 then Reply(id, session, Some(texts[0]), [], done) else Reply(id, session, None, texts, done)
  }

  /** The sessions a flush lets go of, in the order it walks them. */
  function LetGo(script: seq<Stimulus>, now: nat, order: seq<string>): seq<string> {
    if order == [] then []
    else
      var earlier, key := LetGo(script, now, Front(order)), Last(order);
      if key !in earlier && Overdue(HeldFor(script, key), now) then earlier + [key] else earlier
  }

  function FlushFrames(script: seq<Stimulus>, keys: seq<string>): seq<Frame> {
    if keys == [] then []
    else
      [ReplyTo(LatestPrompt(script, keys[0]), keys[0], TextsOf(HeldFor(script, keys[0])), false)]
      + FlushFrames(script, keys[1..])
  }

  /** The answer to a request, by what the session manager said to it. */
  function Verdict(id: string, delivery: Delivery, answering: bool): Frame {
    match delivery
    case Delivered => Ack(id)
    case UnknownSession => ErrorReply(id, "unknown_session")
    case Unavailable => ErrorReply(id, "session_unavailable")
    case NothingPending => ErrorReply(id, if answering then "no_pending_answer" else "session_unavailable")
  }

  /** The frames a stimulus calls for. */
  function FramesDue(answers: seq<ResyncAnswer>, before: seq<Stimulus>, last: Stimulus): seq<Frame> {
    match last
    case InPing(id, _) => [Pong(id)]
    case InQuery(id, refusal, _) => [if refusal.Some? then ErrorReply(id, refusal.value) else QueryAnswer(id)]
    case InPrompt(id, _, delivery, _) => if delivery == Delivered then [] else [Verdict(id, delivery, false)]
    case InInterrupt(id, _, delivery, _) => [Verdict(id, delivery, false)]
    case InAnswer(id, _, delivery, _) => [Verdict(id, delivery, true)]
    case WsPing(_) => [WsPong]
    case Heartbeat(_, _) => [Ping]
    case Event(session, Update(text), _, _) =>
      var texts := TextsOf(HeldFor(before, session)) + [text];
      if Coalescing.Bytes(texts) < 65536 then []
      else [ReplyTo(LatestPrompt(before, session), session, texts, false)]
    case Event(session, StopReason(_), _, _) =>
      [ReplyTo(LatestPrompt(before, session), session, TextsOf(HeldFor(before, session)), true)]
    case Event(session, Status(status), _, _) =>
      if ToldBlocked(answers, before, session) == (status == Blocked) then []
      else [SessionBlocked(session, status == Blocked)]
    case Flush(now, order, _) => FlushFrames(before, LetGo(before, now, order))
    case _ => []
  }

  /** How many sends succeed before one fails. */
  function Budget(last: Stimulus): nat {
    match last
    case InPing(_, ok) => if ok then 1 else 0
    case InQuery(_, _, ok) => if ok then 1 else 0
    case InPrompt(_, _, _, ok) => if ok then 1 else 0
    case InInterrupt(_, _, _, ok) => if ok then 1 else 0
    case InAnswer(_, _, _, ok) => if ok then 1 else 0
    case WsPing(ok) => if ok then 1 else 0
    case Heartbeat(_, ok) => if ok then 1 else 0
    case Event(_, _, _, ok) => if ok then 1 else 0
    case Flush(_, _, sends) => sends
    case _ => 0
  }

  function Firsts<T>(all: seq<T>, n: nat): seq<T> {
    if n < |all| then all[..n] else all
  }

  /** The frames that get out: none at a tick while the last one is unanswered. */
  function FramesOut(answers: seq<ResyncAnswer>, before: seq<Stimulus>, last: Stimulus): seq<Frame> {
    if last.Heartbeat? && WireAnswers.TickUnanswered(before) then []
    else Firsts(FramesDue(answers, before, last), Budget(last))
  }

  /** The peer closed or failed, or something called for could not be sent. */
  predicate Drops(answers: seq<ResyncAnswer>, before: seq<Stimulus>, last: Stimulus) {
    last.Closed? || last.InError? || |FramesOut(answers, before, last)| < |FramesDue(answers, before, last)|
  }

  predicate ResyncFailed(answers: seq<ResyncAnswer>) {
    exists a :: a in answers && a.isBlocked && !a.sendOk
  }

  /** The connection was dropped, by a failed resync or by a stimulus that found
      it up. */
  predicate DropSeen(answers: seq<ResyncAnswer>, script: seq<Stimulus>)
    decreases |script|, 0
  {
    if script == [] then ResyncFailed(answers)
    else
      || DropSeen(answers, Front(script))
      || (Up(answers, Front(script)) && Drops(answers, Front(script), Last(script)))
  }

  /** A poll that found it up saw the detach marker. */
  predicate MarkerSeen(answers: seq<ResyncAnswer>, script: seq<Stimulus>)
    decreases |script|, 0
  {
    && script != []
    && (|| MarkerSeen(answers, Front(script))
        || (Up(answers, Front(script)) && Last(script) == DetachPoll(true)))
  }

  predicate Up(answers: seq<ResyncAnswer>, script: seq<Stimulus>)
    decreases |script|, 1
  {
    !DropSeen(answers, script) && !MarkerSeen(answers, script)
  }

  /** The blocked sessions announced on connecting, up to a failed send. */
  function ResyncFrames(answers: seq<ResyncAnswer>): seq<Frame> {
    if answers == [] then []
    else
      ResyncFrames(Front(answers))
      + if Last(answers).isBlocked && !ResyncFailed(answers) then [SessionBlocked(Last(answers).session, true)] else []
  }

  /** Everything sent. */
  function FramesSent(answers: seq<ResyncAnswer>, script: seq<Stimulus>): seq<Frame> {
    if script == [] then ResyncFrames(answers)
    else
      FramesSent(answers, Front(script))
      + if Up(answers, Front(script)) then FramesOut(answers, Front(script), Last(script)) else []
  }

  // ---------------------------------------------------------------------
  // The loop does exactly that
  // ---------------------------------------------------------------------

  function Unnumber(f: Frame): Frame {
    if f.Reply? && f.id.Minted? then f.(id := Minted(0)) else f
  }

  /** The frames, whatever serial numbers the minted ids among them have (see
      `MintedIdsAreDistinct`). */
  function Unnumbered(sent: seq<Frame>): seq<Frame> {
    if sent == [] then [] else Unnumbered(Front(sent)) + [Unnumber(Last(sent))]
  }

  /** The loop's memory is what the history tells. */
  ghost predicate Recalls(s: State, answers: seq<ResyncAnswer>, script: seq<Stimulus>) {
    && Coalescing.WellFormed(s.pending, MAX_BYTES)
    && (forall session :: Holds(s.pending, session, HeldFor(script, session)))
    && (forall session :: Remembers(s, session, LatestPrompt(script, session)))
    && (forall session :: session in s.blocked <==> ToldBlocked(answers, script, session))
    && (s.awaitingPong <==> WireAnswers.TickUnanswered(script))
  }

  lemma SendOut(s: State, frame: Frame, sendOk: bool)
    requires s.exit == Running
    ensures var t := Send(s, frame, sendOk);
            && Unnumbered(t.sent) == Unnumbered(s.sent) + (if sendOk then [Unnumber(frame)] else [])
            && t.exit == if sendOk then Running else Dropped
  {
    SnocParts(s.sent, frame);
    ConcatAssociates(Unnumbered(s.sent), [], []);
  }

  lemma ReplyOut(s: State, u: State, owner: string, chunks: seq<string>, done: bool, sendOk: bool,
                 latest: Option<string>)
    requires u.exit == Running && u.sent == s.sent && Remembers(s, owner, latest)
    requires chunks != [] || done
    ensures var t := SendReply(u, ReplyId(s, owner), owner, chunks, done, sendOk);
            && Unnumbered(t.sent)
               == Unnumbered(s.sent) + (if sendOk then [ReplyTo(latest, owner, chunks, done)] else [])
            && t.exit == if sendOk then Running else Dropped
  {
    hide Unnumbered;
    var id := ReplyId(s, owner);
    SendOut(u, if |chunks| == 1 then Reply(id, owner, Some(chunks[0]), [], done)
               else Reply(id, owner, None, chunks, done), sendOk);
  }

  /** What one step sends and whether it ends the connection. */
  ghost predicate StepsAs(s: State, t: State, due: seq<Frame>, out: seq<Frame>, detached: bool, broken: bool) {
    && Unnumbered(t.sent) == Unnumbered(s.sent) + out
    && t.exit == if detached then Detached else if broken || |out| < |due| then Dropped else Running
  }

  ghost predicate Follows(s: State, t: State, answers: seq<ResyncAnswer>, before: seq<Stimulus>, last: Stimulus) {
    StepsAs(s, t, FramesDue(answers, before, last), FramesOut(answers, before, last), last == DetachPoll(true),
            last.Closed? || last.InError?)
  }

  lemma RequestFollows(s: State, answers: seq<ResyncAnswer>, before: seq<Stimulus>, last: Stimulus)
    requires s.exit == Running && Recalls(s, answers, before)
    requires last.InPing? || last.InQuery? || last.InPrompt? || last.InInterrupt? || last.InAnswer? || last.WsPing?
    ensures Follows(s, Step(s, last), answers, before, last)
  {
    hide Recalls, Unnumbered;
    ConcatAssociates(Unnumbered(s.sent), [], []);
    match last
    case InPing(id, ok) => SendOut(s, Pong(id), ok);
    case InQuery(id, refusal, ok) => SendOut(s, QueryFrame(id, refusal), ok);
    case InPrompt(id, _, delivery, ok) => SendOut(s, RefusalFrame(id, delivery, false), ok);
    case InInterrupt(id, _, delivery, ok) =>
      SendOut(s, if delivery == Delivered then Ack(id) else RefusalFrame(id, delivery, false), ok);
    case InAnswer(id, _, delivery, ok) =>
      SendOut(s, if delivery == Delivered then Ack(id) else RefusalFrame(id, delivery, true), ok);
    case WsPing(ok) => SendOut(s, WsPong, ok);
  }

  lemma QuietFollows(s: State, answers: seq<ResyncAnswer>, before: seq<Stimulus>, last: Stimulus)
    requires s.exit == Running && Recalls(s, answers, before)
    requires last.InPong? || last.InError? || last.Ignored? || last.Closed? || last.Heartbeat? || last.DetachPoll?
    ensures Follows(s, Step(s, last), answers, before, last)
  {
    hide Unnumbered;
    ConcatAssociates(Unnumbered(s.sent), [], []);
    SendOut(s, Ping, true);
  }

  /** A text either joins what is held back or goes out with all of it. */
  lemma UpdateOut(s: State, owner: string, text: string, now: nat, sendOk: bool, held: Option<HeldBack>,
                  latest: Option<string>)
    requires s.exit == Running && Coalescing.WellFormed(s.pending, MAX_BYTES)
    requires Holds(s.pending, owner, held) && Remembers(s, owner, latest)
    ensures var t := OnEvent(s, owner, Update(text), now, sendOk);
            var texts := TextsOf(held) + [text];
            var full := Coalescing.Bytes(texts) >= 65536;
            && Unnumbered(t.sent)
               == Unnumbered(s.sent) + (if full && sendOk then [ReplyTo(latest, owner, texts, false)] else [])
            && t.exit == if full && !sendOk then Dropped else Running
  {
    hide Unnumbered, Coalescing.Bytes, Coalescing.Push, Coalescing.WellFormed, SendReply, ReplyTo;
    ConcatAssociates(Unnumbered(s.sent), [], []);
    var (pending, batch) := Coalescing.Push(s.pending, MAX_BYTES, owner, text, now);
    Coalescing.PushMeaning(s.pending, MAX_BYTES, owner, text, now);
    if batch.Some? {
      ReplyOut(s, Mint(s, owner).(pending := pending), owner, batch.value, false, sendOk, latest);
    }
  }

  lemma UpdateFollows(s: State, answers: seq<ResyncAnswer>, before: seq<Stimulus>, last: Stimulus)
    requires s.exit == Running && Recalls(s, answers, before) && last.Event? && last.event.Update?
    ensures Follows(s, Step(s, last), answers, before, last)
  {
    hide Unnumbered, Coalescing.Bytes, Coalescing.WellFormed, OnEvent, LatestPrompt, HeldFor, ReplyTo;
    var owner := last.session;
    assert Holds(s.pending, owner, HeldFor(before, owner));
    assert Remembers(s, owner, LatestPrompt(before, owner));
    UpdateOut(s, owner, last.event.text, last.now, last.sendOk, HeldFor(before, owner), LatestPrompt(before, owner));
  }

  lemma StopFollows(s: State, answers: seq<ResyncAnswer>, before: seq<Stimulus>, last: Stimulus)
    requires s.exit == Running && Recalls(s, answers, before) && last.Event? && last.event.StopReason?
    ensures Follows(s, Step(s, last), answers, before, last)
  {
    hide Unnumbered, SendReply, LatestPrompt, HeldFor;
    var owner := last.session;
    var t := Mint(s, owner);
    assert Holds(s.pending, owner, HeldFor(before, owner));
    assert Remembers(s, owner, LatestPrompt(before, owner));
    ReplyOut(s, t.(pending := t.pending - {owner}, lastPromptId := t.lastPromptId - {owner}), owner,
             Coalescing.Buffered(s.pending, owner), true, last.sendOk, LatestPrompt(before, owner));
  }

  lemma StatusFollows(s: State, answers: seq<ResyncAnswer>, before: seq<Stimulus>, last: Stimulus)
    requires s.exit == Running && Recalls(s, answers, before) && last.Event? && last.event.Status?
    ensures Follows(s, Step(s, last), answers, before, last)
  {
    hide Unnumbered, ToldBlocked;
    ConcatAssociates(Unnumbered(s.sent), [], []);
    var owner, t := last.session, Mint(s, last.session);
    assert owner in s.blocked <==> ToldBlocked(answers, before, owner);
    SendOut(t.(blocked := t.blocked + {owner}), SessionBlocked(owner, true), last.sendOk);
    SendOut(t.(blocked := t.blocked - {owner}), SessionBlocked(owner, false), last.sendOk);
  }

  /** The batches a flush releases are those of the sessions it lets go of. */
  ghost predicate Matches(batches: seq<Coalescing.Batch>, keys: seq<string>, script: seq<Stimulus>) {
    && |batches| == |keys|
    && forall i :: 0 <= i < |keys| ==>
         batches[i] == Coalescing.Batch(keys[i], TextsOf(HeldFor(script, keys[i]))) && batches[i].chunks != []
  }

  lemma ExpiredUnfold(buffer: Coalescing.Buffer, now: nat, order: seq<string>)
    requires order != []
    ensures var keys := Coalescing.Expired(buffer, WINDOW, now, Front(order));
            var key := Last(order);
            if key in buffer && Coalescing.Elapsed(buffer[key], WINDOW, now)
            then Coalescing.Expired(buffer, WINDOW, now, order) == keys + [key]
                 && Coalescing.Release(buffer, keys + [key])
                    == (var (rest, out) := Coalescing.Release(buffer, keys);
                        if key in rest then (rest - {key}, out + [Coalescing.Batch(key, rest[key].chunks)])
                        else (rest, out))
            else Coalescing.Expired(buffer, WINDOW, now, order) == keys
  {
    SnocParts(Coalescing.Expired(buffer, WINDOW, now, Front(order)), Last(order));
  }

  lemma MatchesSnoc(batches: seq<Coalescing.Batch>, keys: seq<string>, script: seq<Stimulus>, key: string)
    requires Matches(batches, keys, script) && TextsOf(HeldFor(script, key)) != []
    ensures Matches(batches + [Coalescing.Batch(key, TextsOf(HeldFor(script, key)))], keys + [key], script)
  {
  }

  lemma {:induction false} LetGoIsFilter(script: seq<Stimulus>, now: nat, order: seq<string>)
    ensures forall key :: key in LetGo(script, now, order) <==> key in order && Overdue(HeldFor(script, key), now)
  {
    if order != [] {
      LetGoIsFilter(script, now, Front(order));
      assert order == Front(order) + [Last(order)];
    }
  }

  /** The two tell alike of every session whether a flush lets go of it. */
  lemma OverdueIsElapsed(buffer: Coalescing.Buffer, script: seq<Stimulus>, now: nat, key: string)
    requires Coalescing.WellFormed(buffer, MAX_BYTES) && Holds(buffer, key, HeldFor(script, key))
    ensures Overdue(HeldFor(script, key), now) <==> key in buffer && Coalescing.Elapsed(buffer[key], WINDOW, now)
    ensures key in buffer ==> TextsOf(HeldFor(script, key)) == buffer[key].chunks && buffer[key].chunks != []
  {
    hide HeldFor;
  }

  /** One more session on the walk. */
  lemma DueStep(buffer: Coalescing.Buffer, script: seq<Stimulus>, now: nat, order: seq<string>)
    requires order != []
    requires Coalescing.WellFormed(buffer, MAX_BYTES) && Holds(buffer, Last(order), HeldFor(script, Last(order)))
    requires Matches(Coalescing.Due(buffer, WINDOW, now, Front(order)).1, LetGo(script, now, Front(order)), script)
    requires Last(order) in LetGo(script, now, Front(order))
             <==> Last(order) in Coalescing.Expired(buffer, WINDOW, now, Front(order))
    ensures Matches(Coalescing.Due(buffer, WINDOW, now, order).1, LetGo(script, now, order), script)
  {
    hide HeldFor, Matches, Coalescing.Expired, Coalescing.Release, Coalescing.WellFormed, Coalescing.Elapsed;
    var key := Last(order);
    ExpiredUnfold(buffer, now, order);
    OverdueIsElapsed(buffer, script, now, key);
    var keys := Coalescing.Expired(buffer, WINDOW, now, Front(order));
    var (rest, out) := Coalescing.Release(buffer, keys);
    Coalescing.ReleaseIsWhole(buffer, keys);
    if key in rest && Coalescing.Elapsed(buffer[key], WINDOW, now) {
      MatchesSnoc(out, LetGo(script, now, Front(order)), script, key);
    }
  }

  lemma {:induction false} DueMatches(buffer: Coalescing.Buffer, script: seq<Stimulus>, now: nat, order: seq<string>)
    requires Coalescing.WellFormed(buffer, MAX_BYTES)
    requires forall session :: Holds(buffer, session, HeldFor(script, session))
    ensures Matches(Coalescing.Due(buffer, WINDOW, now, order).1, LetGo(script, now, order), script)
  {
    if order != [] {
      hide HeldFor, Matches, Coalescing.Expired, Coalescing.WellFormed, Coalescing.Elapsed, LetGo, Coalescing.Due;
      var key := Last(order);
      DueMatches(buffer, script, now, Front(order));
      LetGoIsFilter(script, now, Front(order));
      Coalescing.ExpiredIsFilter(buffer, WINDOW, now, Front(order));
      OverdueIsElapsed(buffer, script, now, key);
      DueStep(buffer, script, now, order);
    }
  }

  lemma FirstsCons<T>(head: T, tail: seq<T>, n: nat)
    requires n > 0
    ensures Firsts([head] + tail, n) == [head] + Firsts(tail, n - 1)
  {
  }

  lemma FlushFramesUnfold(script: seq<Stimulus>, keys: seq<string>)
    ensures keys == [] ==> FlushFrames(script, keys) == []
    ensures keys != [] ==>
              FlushFrames(script, keys)
              == [ReplyTo(LatestPrompt(script, keys[0]), keys[0], TextsOf(HeldFor(script, keys[0])), false)]
                 + FlushFrames(script, keys[1..])
  {
  }

  lemma SameCount(batches: seq<Coalescing.Batch>, keys: seq<string>, script: seq<Stimulus>)
    requires Matches(batches, keys, script)
    ensures |batches| == |keys|
  {
  }

  lemma MatchesHead(batches: seq<Coalescing.Batch>, keys: seq<string>, script: seq<Stimulus>)
    requires Matches(batches, keys, script) && batches != []
    ensures batches[0] == Coalescing.Batch(keys[0], TextsOf(HeldFor(script, keys[0]))) && batches[0].chunks != []
    ensures Matches(batches[1..], keys[1..], script)
  {
  }

  /** One batch of a flush, and what it leaves of the loop's memory of prompts. */
  lemma BatchOut(s: State, b: Coalescing.Batch, sendOk: bool, latest: Option<string>)
    requires s.exit == Running && Remembers(s, b.session, latest) && b.chunks != []
    ensures var next := SendReply(Mint(s, b.session), ReplyId(s, b.session), b.session, b.chunks, false, sendOk);
            && Unnumbered(next.sent)
               == Unnumbered(s.sent) + (if sendOk then [ReplyTo(latest, b.session, b.chunks, false)] else [])
            && next.exit == (if sendOk then Running else Dropped) && next.lastPromptId == s.lastPromptId
  {
    hide Unnumbered, SendReply, ReplyTo;
    ReplyOut(s, Mint(s, b.session), b.session, b.chunks, false, sendOk, latest);
    SendReplyShape(Mint(s, b.session), ReplyId(s, b.session), b.session, b.chunks, false, sendOk);
  }

  lemma {:induction false} SendAllFollows(s: State, batches: seq<Coalescing.Batch>, keys: seq<string>, sends: nat,
                                          script: seq<Stimulus>)
    requires s.exit == Running && Matches(batches, keys, script)
    requires forall session :: Remembers(s, session, LatestPrompt(script, session))
    ensures var t := SendAll(s, batches, sends);
            && Unnumbered(t.sent) == Unnumbered(s.sent) + Firsts(FlushFrames(script, keys), sends)
            && t.exit == (if sends < |FlushFrames(script, keys)| then Dropped else Running)
    ensures |FlushFrames(script, keys)| == |keys|
    decreases |batches|
  {
    hide Unnumbered, SendReply, HeldFor, LatestPrompt, SendAll, FlushFrames, ReplyTo, Matches, Mint, ReplyId;
    SameCount(batches, keys, script);
    SendAllFirst(s, batches, sends);
    FlushFramesUnfold(script, keys);
    ConcatAssociates(Unnumbered(s.sent), [], []);
    if batches != [] {
      var b := batches[0];
      var latest := LatestPrompt(script, b.session);
      MatchesHead(batches, keys, script);
      BatchOut(s, b, sends > 0, latest);
      var frame, rest := ReplyTo(latest, b.session, b.chunks, false), FlushFrames(script, keys[1..]);
      if sends > 0 {
        var next := SendReply(Mint(s, b.session), ReplyId(s, b.session), b.session, b.chunks, false, true);
        forall session ensures Remembers(next, session, LatestPrompt(script, session)) {
          assert Remembers(s, session, LatestPrompt(script, session));
        }
        SendAllFollows(next, batches[1..], keys[1..], sends - 1, script);
        ConcatAssociates(Unnumbered(s.sent), [frame], Firsts(rest, sends - 1));
        FirstsCons(frame, rest, sends);
      } else {
        SendAllFollows(s, batches[1..], keys[1..], 0, script);
      }
    }
  }

  lemma FlushFollows(s: State, answers: seq<ResyncAnswer>, before: seq<Stimulus>, last: Stimulus)
    requires s.exit == Running && Recalls(s, answers, before) && last.Flush?
    ensures Follows(s, Step(s, last), answers, before, last)
  {
    hide Unnumbered, SendAll, HeldFor, LatestPrompt, FlushFrames, LetGo, Coalescing.Due;
    var (rest, out) := Coalescing.Due(s.pending, WINDOW, last.now, last.order);
    var keys := LetGo(before, last.now, last.order);
    DueMatches(s.pending, before, last.now, last.order);
    forall session ensures Remembers(s.(pending := rest), session, LatestPrompt(before, session)) {
      assert Remembers(s, session, LatestPrompt(before, session));
    }
    SendAllFollows(s.(pending := rest), out, keys, last.sends, before);
  }

  lemma StepFollowsHistory(s: State, answers: seq<ResyncAnswer>, before: seq<Stimulus>, last: Stimulus)
    requires s.exit == Running && Recalls(s, answers, before)
    ensures Follows(s, Step(s, last), answers, before, last)
  {
    hide Follows, Recalls, Step;
    match last
    case Event(_, Update(_), _, _) => UpdateFollows(s, answers, before, last);
    case Event(_, StopReason(_), _, _) => StopFollows(s, answers, before, last);
    case Event(_, Status(_), _, _) => StatusFollows(s, answers, before, last);
    case Flush(_, _, _) => FlushFollows(s, answers, before, last);
    case InPong => QuietFollows(s, answers, before, last);
    case InError => QuietFollows(s, answers, before, last);
    case Ignored => QuietFollows(s, answers, before, last);
    case Closed => QuietFollows(s, answers, before, last);
    case Heartbeat(_, _) => QuietFollows(s, answers, before, last);
    case DetachPoll(_) => QuietFollows(s, answers, before, last);
    case _ => RequestFollows(s, answers, before, last);
  }

  lemma ResyncUnfold(answers: seq<ResyncAnswer>, a: ResyncAnswer)
    ensures ResyncFailed(answers + [a]) <==> ResyncFailed(answers) || (a.isBlocked && !a.sendOk)
    ensures forall session :: ToldBlocked(answers + [a], [], session)
                              <==> ToldBlocked(answers, [], session) || (a.session == session && a.isBlocked)
  {
    assert a in answers + [a];
    forall b | b in answers ensures b in answers + [a] {
    }
  }

  lemma NothingResynced()
    ensures !ResyncFailed([]) && Unnumbered([]) == [] && forall session :: !ToldBlocked([], [], session)
  {
  }

  lemma {:induction false} ResyncFollowsHistory(at: nat, answers: seq<ResyncAnswer>)
    ensures var s := RunResync(Start(at), answers);
            && Unnumbered(s.sent) == ResyncFrames(answers)
            && s.exit == (if ResyncFailed(answers) then Dropped else Running)
            && (s.exit == Running ==> forall session :: session in s.blocked <==> ToldBlocked(answers, [], session))
  {
    if answers != [] {
      hide Unnumbered, ResyncFailed, ToldBlocked;
      var front, a := Front(answers), Last(answers);
      ResyncFollowsHistory(at, front);
      assert answers == front + [a];
      ResyncUnfold(front, a);
      var s := RunResync(Start(at), front);
      ConcatAssociates(Unnumbered(s.sent), [], []);
      if s.exit == Running {
        SendOut(s.(blocked := s.blocked + {a.session}), SessionBlocked(a.session, true), a.sendOk);
      }
    } else {
      NothingResynced();
    }
  }

  lemma EventMembership(s: State, owner: string, event: DriverEvent, now: nat, sendOk: bool, session: string)
    ensures session in OnEvent(s, owner, event, now, sendOk).blocked
            <==> if event.Status? && owner == session then event.status == Blocked else session in s.blocked
  {
    var id, t := ReplyId(s, owner), Mint(s, owner);
    if event.Update? {
      var (pending, batch) := Coalescing.Push(t.pending, MAX_BYTES, owner, event.text, now);
      if batch.Some? {
        SendReplyShape(t.(pending := pending), id, owner, batch.value, false, sendOk);
      }
    } else if event.StopReason? {
      var u := t.(pending := t.pending - {owner}, lastPromptId := t.lastPromptId - {owner});
      SendReplyShape(u, id, owner, Coalescing.Buffered(t.pending, owner), true, sendOk);
    }
  }

  lemma ToldSnoc(answers: seq<ResyncAnswer>, before: seq<Stimulus>, last: Stimulus, session: string)
    ensures ToldBlocked(answers, before + [last], session)
            == if last.Event? && last.event.Status? && last.session == session then last.event.status == Blocked
               else ToldBlocked(answers, before, session)
  {
    SnocParts(before, last);
  }

  lemma FlushMembership(s: State, now: nat, order: seq<string>, sends: nat)
    requires s.exit == Running
    ensures Step(s, Flush(now, order, sends)).blocked == s.blocked
  {
    hide SendAll, Coalescing.Due;
    var (rest, out) := Coalescing.Due(s.pending, WINDOW, now, order);
    SendAllBlocked(s.(pending := rest), out, sends, "");
  }

  lemma StepMembership(s: State, answers: seq<ResyncAnswer>, before: seq<Stimulus>, last: Stimulus, session: string)
    requires s.exit == Running
    requires session in s.blocked <==> ToldBlocked(answers, before, session)
    ensures session in Step(s, last).blocked <==> ToldBlocked(answers, before + [last], session)
  {
    hide OnEvent, SendAll, Coalescing.Due, ToldBlocked;
    ToldSnoc(answers, before, last, session);
    if last.Event? {
      EventMembership(s, last.session, last.event, last.now, last.sendOk, session);
    } else if last.Flush? {
      hide Step;
      FlushMembership(s, last.now, last.order, last.sends);
    } else {
      PlainStep(s, last);
    }
  }

  /** While the connection is up, a session is in `blocked_sessions` exactly when
      it was last told to be blocked. */
  lemma {:induction false} MembershipIsTold(at: nat, answers: seq<ResyncAnswer>, script: seq<Stimulus>,
                                            session: string)
    requires Connection(at, answers, script).exit == Running
    ensures session in Connection(at, answers, script).blocked <==> ToldBlocked(answers, script, session)
  {
    if script == [] {
      ResyncFollowsHistory(at, answers);
    } else {
      var s := Connection(at, answers, Front(script));
      StepStaysEnded(s, Last(script));
      MembershipIsTold(at, answers, Front(script), session);
      StepMembership(s, answers, Front(script), Last(script), session);
      assert script == Front(script) + [Last(script)];
    }
  }

  lemma LoopRecalls(at: nat, answers: seq<ResyncAnswer>, script: seq<Stimulus>)
    requires Connection(at, answers, script).exit == Running
    ensures Recalls(Connection(at, answers, script), answers, script)
  {
    hide Connection;
    var s := Connection(at, answers, script);
    BuffersStayWellFormed(at, answers, script);
    forall session
      ensures Holds(s.pending, session, HeldFor(script, session))
      ensures Remembers(s, session, LatestPrompt(script, session))
      ensures session in s.blocked <==> ToldBlocked(answers, script, session)
    {
      ResidentIsHeld(at, answers, script, session);
      LastPromptIsLatest(at, answers, script, session);
      MembershipIsTold(at, answers, script, session);
    }
    WireAnswers.HeartbeatsKeepTheStampFresh(at, answers, script);
  }

  lemma MarkerIsNoDrop(answers: seq<ResyncAnswer>, before: seq<Stimulus>)
    ensures !Drops(answers, before, DetachPoll(true))
  {
  }

  /** Over every run, and to the end of it: the frames sent are exactly those the
      stimuli call for, cut at the first send that fails, and the connection ends
      as dropped or as detached exactly when its history says so. */
  lemma {:induction false} ConnectionIsHistory(at: nat, answers: seq<ResyncAnswer>, script: seq<Stimulus>)
    ensures var s := Connection(at, answers, script);
            && Unnumbered(s.sent) == FramesSent(answers, script)
            && (s.exit == Dropped <==> DropSeen(answers, script))
            && (s.exit == Detached <==> MarkerSeen(answers, script))
  {
    if script == [] {
      ResyncFollowsHistory(at, answers);
    } else {
      hide FramesDue, FramesOut, Step, Unnumbered;
      var front, last := Front(script), Last(script);
      var s := Connection(at, answers, front);
      ConnectionIsHistory(at, answers, front);
      StepStaysEnded(s, last);
      ConcatAssociates(FramesSent(answers, front), [], []);
      if s.exit == Running {
        LoopRecalls(at, answers, front);
        StepFollowsHistory(s, answers, front, last);
        MarkerIsNoDrop(answers, front);
      }
    }
  }
}
