/** Requests, heartbeats and detaching on one connection, for every script. */
module WireAnswers {
  import opened Common
  import opened DriverEvents
  import opened WireLoop
  import Reconnect
  import WireTheorems
  import Coalescing

  /** How a request came out, as its sender sees it. */
  datatype Verdict = Served | Refused(code: string)

  datatype Answered = Answered(request: string, verdict: Verdict)

  /** The request a frame answers, if it answers one. */
  function AnswerIn(f: Frame): seq<Answered> {
    match f
    case Pong(of) => [Answered(of, Served)]
    case QueryAnswer(of) => [Answered(of, Served)]
    case Ack(of) => [Answered(of, Served)]
    case ErrorReply(of, code) => [Answered(of, Refused(code))]
    case _ => []
  }

  /** The answers among the frames sent, oldest first. */
  function AnswersSent(sent: seq<Frame>): seq<Answered> {
    if sent == [] then [] else AnswersSent(Front(sent)) + AnswerIn(Last(sent))
  }

  function VerdictOn(delivery: Delivery, answering: bool): Verdict {
    match delivery
    case Delivered => Served
    case UnknownSession => Refused("unknown_session")
    case NothingPending => Refused(if answering then "no_pending_answer" else "session_unavailable")
    case Unavailable => Refused("session_unavailable")
  }

  /** The answer a request calls for. A delivered prompt is answered by its
      reply frames, not here. */
  function AnswerDue(stimulus: Stimulus): seq<Answered> {
    match stimulus
    case InPing(id, _) => [Answered(id, Served)]
    case InQuery(id, refusal, _) => [Answered(id, if refusal.Some? then Refused(refusal.value) else Served)]
    case InPrompt(id, _, delivery, _) =>
      if delivery == Delivered then [] else [Answered(id, VerdictOn(delivery, false))]
    case InInterrupt(id, _, delivery, _) => [Answered(id, VerdictOn(delivery, false))]
    case InAnswer(id, _, delivery, _) => [Answered(id, VerdictOn(delivery, true))]
    case _ => []
  }

  function AnswersDue(script: seq<Stimulus>): seq<Answered> {
    if script == [] then [] else AnswersDue(Front(script)) + AnswerDue(Last(script))
  }

  function PingsSent(sent: seq<Frame>): nat {
    if sent == [] then 0 else PingsSent(Front(sent)) + if Last(sent).Ping? then 1 else 0
  }

  // ---------------------------------------------------------------------
  // Events and flushes only stream
  // ---------------------------------------------------------------------

  /** Everything added to the outbound frames is a reply or a `session_blocked`. */
  ghost predicate Streams(before: seq<Frame>, after: seq<Frame>) {
    before <= after && forall k :: |before| <= k < |after| ==> after[k].Reply? || after[k].SessionBlocked?
  }

  lemma {:induction false} SendAllStreams(s: State, batches: seq<Coalescing.Batch>, sends: nat)
    ensures Streams(s.sent, SendAll(s, batches, sends).sent)
    decreases |batches|
  {
    if batches != [] && s.exit == Running {
      var b := batches[0];
      var m := Mint(s, b.session);
      WireTheorems.SendReplyShape(m, ReplyId(s, b.session), b.session, b.chunks, false, sends > 0);
      SendAllStreams(SendReply(m, ReplyId(s, b.session), b.session, b.chunks, false, sends > 0), batches[1..],
                     if sends > 0 then sends - 1 else 0);
    }
  }

  ghost predicate StreamsOnly(s: State, t: State) {
    && Streams(s.sent, t.sent) && t.awaitingPong == s.awaitingPong && t.connectedAt == s.connectedAt
    && (t.exit == Detached ==> s.exit == Detached)
  }

  lemma ReplyStreams(s: State, u: State, id: Id, owner: string, chunks: seq<string>, done: bool, sendOk: bool)
    requires u.sent == s.sent && u.awaitingPong == s.awaitingPong && u.connectedAt == s.connectedAt && u.exit == s.exit
    ensures StreamsOnly(s, SendReply(u, id, owner, chunks, done, sendOk))
  {
    WireTheorems.SendReplyShape(u, id, owner, chunks, done, sendOk);
  }

  lemma EventStreams(s: State, owner: string, event: DriverEvent, now: nat, sendOk: bool)
    ensures StreamsOnly(s, OnEvent(s, owner, event, now, sendOk))
  {
    var id := ReplyId(s, owner);
    var t := Mint(s, owner);
    match event
    case Update(text) =>
      var (pending, batch) := Coalescing.Push(t.pending, MAX_BYTES, owner, text, now);
      if batch.Some? {
        ReplyStreams(s, t.(pending := pending), id, owner, batch.value, false, sendOk);
      }
    case StopReason(_) =>
      var u := t.(pending := t.pending - {owner}, lastPromptId := t.lastPromptId - {owner});
      ReplyStreams(s, u, id, owner, Coalescing.Buffered(t.pending, owner), true, sendOk);
    case Status(_) =>
  }

  lemma {:induction false} StreamsAnswerNothing(before: seq<Frame>, after: seq<Frame>)
    requires Streams(before, after)
    ensures AnswersSent(after) == AnswersSent(before) && PingsSent(after) == PingsSent(before)
    decreases |after|
  {
    if |after| > |before| {
      StreamsAnswerNothing(before, Front(after));
      ConcatAssociates(AnswersSent(before), [], []);
    } else {
      assert before == after;
    }
  }

  lemma FlushStreams(s: State, now: nat, order: seq<string>, sends: nat)
    requires s.exit == Running
    ensures StreamsOnly(s, Step(s, Flush(now, order, sends)))
  {
    var (rest, out) := Coalescing.Due(s.pending, WINDOW, now, order);
    var r := s.(pending := rest);
    SendAllStreams(r, out, sends);
    WireTheorems.SendAllKeepsHeartbeat(r, out, sends);
    WireTheorems.SendAllTurns(r, out, sends, "");
  }

  lemma EventStep(s: State, stimulus: Stimulus)
    requires s.exit == Running && stimulus.Event?
    ensures Step(s, stimulus) == OnEvent(s, stimulus.session, stimulus.event, stimulus.now, stimulus.sendOk)
  {
  }

  /** What an event or a flush leaves alone. */
  lemma StreamingStep(s: State, stimulus: Stimulus)
    requires stimulus.Event? || stimulus.Flush?
    ensures var t := Step(s, stimulus);
            && AnswersSent(t.sent) == AnswersSent(s.sent) && PingsSent(t.sent) == PingsSent(s.sent)
            && t.awaitingPong == s.awaitingPong && t.connectedAt == s.connectedAt
            && (t.exit == Detached ==> s.exit == Detached)
  {
    if s.exit == Running {
      if stimulus.Flush? {
        FlushStreams(s, stimulus.now, stimulus.order, stimulus.sends);
      } else {
        EventStreams(s, stimulus.session, stimulus.event, stimulus.now, stimulus.sendOk);
        EventStep(s, stimulus);
      }
      StreamsAnswerNothing(s.sent, Step(s, stimulus).sent);
    }
  }

  lemma {:induction false} ResyncStreams(at: nat, answers: seq<ResyncAnswer>)
    ensures var s := RunResync(Start(at), answers);
            && AnswersSent(s.sent) == [] && PingsSent(s.sent) == 0
            && !s.awaitingPong && s.connectedAt == at && s.exit != Detached
  {
    if answers != [] {
      ResyncStreams(at, Front(answers));
      var s := RunResync(Start(at), Front(answers));
      StreamsAnswerNothing(s.sent, RunResync(Start(at), answers).sent);
    }
  }

  // ---------------------------------------------------------------------
  // Requests
  // ---------------------------------------------------------------------

  /** While the connection is up every request so far has its answer; once it
      has ended, those sent are the first of them. */
  ghost predicate AnsweredSoFar(s: State, due: seq<Answered>) {
    if s.exit == Running then AnswersSent(s.sent) == due else AnswersSent(s.sent) <= due
  }

  lemma SendAnswers(s: State, frame: Frame, sendOk: bool)
    ensures AnswersSent(Send(s, frame, sendOk).sent) == AnswersSent(s.sent) + if sendOk then AnswerIn(frame) else []
    ensures Send(s, frame, sendOk).exit == if sendOk then s.exit else Dropped
  {
    SnocParts(s.sent, frame);
    ConcatAssociates(AnswersSent(s.sent), [], []);
  }

  lemma OutcomeAnswers(id: string, delivery: Delivery, answering: bool)
    ensures AnswerIn(if delivery == Delivered then Ack(id) else RefusalFrame(id, delivery, answering))
            == [Answered(id, VerdictOn(delivery, answering))]
  {
  }

  lemma PromptAnswered(s: State, id: string, session: string, delivery: Delivery, sendOk: bool)
    requires s.exit == Running
    ensures var stimulus := InPrompt(id, session, delivery, sendOk);
            var t := Step(s, stimulus);
            AnswersSent(t.sent) == AnswersSent(s.sent) + if t.exit == Running then AnswerDue(stimulus) else []
  {
    if delivery == Delivered {
      ConcatAssociates(AnswersSent(s.sent), [], []);
    } else {
      OutcomeAnswers(id, delivery, false);
      SendAnswers(s, RefusalFrame(id, delivery, false), sendOk);
    }
  }

  /** An interrupt or an answer, acknowledged or turned down. */
  lemma OutcomeAnswered(s: State, stimulus: Stimulus)
    requires s.exit == Running && (stimulus.InInterrupt? || stimulus.InAnswer?)
    ensures var t := Step(s, stimulus);
            AnswersSent(t.sent) == AnswersSent(s.sent) + if t.exit == Running then AnswerDue(stimulus) else []
  {
    var id, delivery, answering := stimulus.id, stimulus.delivery, stimulus.InAnswer?;
    OutcomeAnswers(id, delivery, answering);
    SendAnswers(s, if delivery == Delivered then Ack(id) else RefusalFrame(id, delivery, answering), stimulus.sendOk);
  }

  lemma PingAnswered(s: State, id: string, sendOk: bool)
    requires s.exit == Running
    ensures var t := Step(s, InPing(id, sendOk));
            AnswersSent(t.sent) == AnswersSent(s.sent) + if t.exit == Running then [Answered(id, Served)] else []
  {
    SendAnswers(s, Pong(id), sendOk);
  }

  lemma QueryAnswered(s: State, id: string, refusal: Option<string>, sendOk: bool)
    requires s.exit == Running
    ensures var stimulus := InQuery(id, refusal, sendOk);
            var t := Step(s, stimulus);
            AnswersSent(t.sent) == AnswersSent(s.sent) + if t.exit == Running then AnswerDue(stimulus) else []
  {
    SendAnswers(s, QueryFrame(id, refusal), sendOk);
  }

  /** What no peer asked for goes out unanswered: a `ping`, a protocol-level pong. */
  lemma UnaskedStep(s: State, stimulus: Stimulus)
    requires s.exit == Running
    requires stimulus.InPong? || stimulus.InError? || stimulus.Ignored? || stimulus.WsPing? || stimulus.Closed?
             || stimulus.Heartbeat? || stimulus.DetachPoll?
    ensures AnswersSent(Step(s, stimulus).sent) == AnswersSent(s.sent)
    ensures AnswerDue(stimulus) == []
  {
    if stimulus.WsPing? {
      SendAnswers(s, WsPong, stimulus.sendOk);
    } else if stimulus.Heartbeat? {
      SendAnswers(s, Ping, true);
    }
  }

  /** One step answers what it was asked, unless it ends the connection. */
  lemma RequestAnswered(s: State, stimulus: Stimulus)
    requires s.exit == Running && !stimulus.Event? && !stimulus.Flush?
    ensures var t := Step(s, stimulus);
            AnswersSent(t.sent) == AnswersSent(s.sent) + if t.exit == Running then AnswerDue(stimulus) else []
  {
    if stimulus.InPing? {
      PingAnswered(s, stimulus.id, stimulus.sendOk);
    } else if stimulus.InQuery? {
      QueryAnswered(s, stimulus.id, stimulus.refusal, stimulus.sendOk);
    } else if stimulus.InPrompt? {
      PromptAnswered(s, stimulus.id, stimulus.session, stimulus.delivery, stimulus.sendOk);
    } else if stimulus.InInterrupt? || stimulus.InAnswer? {
      OutcomeAnswered(s, stimulus);
    } else {
      UnaskedStep(s, stimulus);
      ConcatAssociates(AnswersSent(s.sent), [], []);
    }
  }

  lemma StepAnswers(s: State, stimulus: Stimulus, due: seq<Answered>)
    requires AnsweredSoFar(s, due)
    ensures AnsweredSoFar(Step(s, stimulus), due + AnswerDue(stimulus))
  {
    ConcatAssociates(due, [], []);
    if s.exit == Running {
      if stimulus.Event? || stimulus.Flush? {
        StreamingStep(s, stimulus);
      } else {
        RequestAnswered(s, stimulus);
      }
    }
  }

  /** Every ping, query, interrupt, answer and refused prompt is answered exactly
      once, with its own id and verdict, in the order they came, however many
      sessions stream in between. */
  lemma {:induction false} EveryRequestIsAnswered(at: nat, answers: seq<ResyncAnswer>, script: seq<Stimulus>)
    ensures AnsweredSoFar(Connection(at, answers, script), AnswersDue(script))
  {
    if script == [] {
      ResyncStreams(at, answers);
    } else {
      EveryRequestIsAnswered(at, answers, Front(script));
      StepAnswers(Connection(at, answers, Front(script)), Last(script), AnswersDue(Front(script)));
    }
  }

  // ---------------------------------------------------------------------
  // Heartbeats
  // ---------------------------------------------------------------------

  function Ticks(script: seq<Stimulus>): nat {
    if script == [] then 0 else Ticks(Front(script)) + if Last(script).Heartbeat? then 1 else 0
  }

  /** When the live-state file was last stamped: at connecting, then every tick. */
  function LatestTick(at: nat, script: seq<Stimulus>): nat {
    if script == [] then at else if Last(script).Heartbeat? then Last(script).at else LatestTick(at, Front(script))
  }

  /** A tick has gone by since the last `pong`, if there was one. */
  predicate TickUnanswered(script: seq<Stimulus>) {
    script != [] && !Last(script).InPong? && (Last(script).Heartbeat? || TickUnanswered(Front(script)))
  }

  /** Two ticks went by with no `pong` between them. */
  predicate SilentTicks(script: seq<Stimulus>) {
    script != [] && (SilentTicks(Front(script)) || (Last(script).Heartbeat? && TickUnanswered(Front(script))))
  }

  lemma PlainPulse(s: State, stimulus: Stimulus)
    requires s.exit == Running && !stimulus.Event? && !stimulus.Flush? && !stimulus.Heartbeat?
    ensures var t := Step(s, stimulus);
            && PingsSent(t.sent) == PingsSent(s.sent) && t.connectedAt == s.connectedAt
            && t.awaitingPong == (s.awaitingPong && !stimulus.InPong?)
  {
    var t := Step(s, stimulus);
    WireTheorems.PlainStep(s, stimulus);
    if t.sent != s.sent {
      SnocParts(s.sent, Last(t.sent));
      assert !Last(t.sent).Ping?;
    }
  }

  lemma HeartbeatStep(s: State, stimulus: Stimulus)
    requires s.exit == Running && Step(s, stimulus).exit == Running
    ensures var t := Step(s, stimulus);
            if stimulus.Heartbeat?
            then !s.awaitingPong && t.awaitingPong && t.connectedAt == stimulus.at
                 && PingsSent(t.sent) == PingsSent(s.sent) + 1
            else t.connectedAt == s.connectedAt && PingsSent(t.sent) == PingsSent(s.sent)
                 && t.awaitingPong == (s.awaitingPong && !stimulus.InPong?)
  {
    if stimulus.Event? || stimulus.Flush? {
      StreamingStep(s, stimulus);
    } else if stimulus.Heartbeat? {
      SnocParts(s.sent, Ping);
    } else {
      PlainPulse(s, stimulus);
    }
  }

  /** While the connection is up: one `ping` per tick, the live-state file
      stamped at the latest one, and no two ticks without a `pong` between. */
  lemma {:induction false} HeartbeatsKeepTheStampFresh(at: nat, answers: seq<ResyncAnswer>, script: seq<Stimulus>)
    requires Connection(at, answers, script).exit == Running
    ensures var s := Connection(at, answers, script);
            && PingsSent(s.sent) == Ticks(script)
            && s.connectedAt == LatestTick(at, script)
            && (s.awaitingPong <==> TickUnanswered(script))
            && !SilentTicks(script)
  {
    if script == [] {
      ResyncStreams(at, answers);
    } else {
      var s := Connection(at, answers, Front(script));
      HeartbeatsKeepTheStampFresh(at, answers, Front(script));
      HeartbeatStep(s, Last(script));
    }
  }

  /** A connection that is up and ticking on time reads as connected to any
      other process, for every heartbeat interval of at least 667 ms. */
  lemma LiveConnectionReadsConnected(at: nat, answers: seq<ResyncAnswer>, script: seq<Stimulus>, now: nat,
                                     heartbeat: nat)
    requires Connection(at, answers, script).exit == Running && heartbeat >= 667
    requires LatestTick(at, script) <= now <= LatestTick(at, script) + heartbeat
    ensures Reconnect.CurrentState("connected", Connection(at, answers, script).connectedAt, now, heartbeat)
            == Reconnect.IsConnected
  {
    HeartbeatsKeepTheStampFresh(at, answers, script);
    Reconnect.FreshStampIsLive(LatestTick(at, script), now, heartbeat);
  }

  // ---------------------------------------------------------------------
  // Detaching
  // ---------------------------------------------------------------------

  /** The loop was still up when a poll found the detach marker. */
  predicate DetachSeen(at: nat, answers: seq<ResyncAnswer>, script: seq<Stimulus>) {
    && script != []
    && (DetachSeen(at, answers, Front(script))
        || (Connection(at, answers, Front(script)).exit == Running && Last(script) == DetachPoll(true)))
  }

  /** A connection ends as detached exactly when a poll saw the marker; every
      other end is a drop, and is retried. */
  lemma {:induction false} DetachesIffAsked(at: nat, answers: seq<ResyncAnswer>, script: seq<Stimulus>)
    ensures Connection(at, answers, script).exit == Detached <==> DetachSeen(at, answers, script)
  {
    if script == [] {
      ResyncStreams(at, answers);
    } else {
      DetachesIffAsked(at, answers, Front(script));
      var s := Connection(at, answers, Front(script));
      if Last(script).Event? || Last(script).Flush? {
        StreamingStep(s, Last(script));
      }
    }
  }

  /** How the reconnect loop sees the end of a connection. */
  function EndOf(exit: Exit): Reconnect.SessionEnd {
    if exit == Detached then Reconnect.EndedDetached else Reconnect.EndedDropped
  }

  /** The end of a connection ends the client exactly when one of its polls saw the
      detach marker, or a marker dropped too late for that is found by the wait
      that follows; after any other end the client goes on to reconnect. */
  lemma ConnectionEndsClientIff(at: nat, answers: seq<ResyncAnswer>, script: seq<Stimulus>,
                                s: Reconnect.State, pass: Reconnect.Pass)
    requires Connection(at, answers, script).exit != Running
    requires s.outcome == Reconnect.Looping && !s.marker && !pass.markerAtTop && pass.connect == Reconnect.Accepted
    requires pass.end == EndOf(Connection(at, answers, script).exit)
    ensures var t := Reconnect.Step(s, pass);
            var foundLate := (pass.markerWhileUp || pass.markerInWait) && t.streak != [] && Last(t.streak) > 0;
            && (t.outcome == Reconnect.ReturnedOk <==> DetachSeen(at, answers, script) || foundLate)
            && t.outcome != Reconnect.ReturnedRejected
  {
    DetachesIffAsked(at, answers, script);
  }
}
