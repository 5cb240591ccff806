/** One live connection's `session_loop` as a step machine (src/connection.rs). */
module WireLoop {
  import opened Common
  import opened DriverEvents
  import Coalescing

  /** Frame ids: one taken from an inbound request, or one made by `new_id`. */
  datatype Id = Wire(id: string) | Minted(serial: nat)

  datatype Frame =
    | Reply(id: Id, session: string, text: Option<string>, chunks: seq<string>, done: bool)
    | SessionBlocked(session: string, blocked: bool)
    | Pong(of: string)
    | Ping
    | WsPong
    | QueryAnswer(of: string)
    | Ack(of: string)
    | ErrorReply(of: string, code: string)

  const CODE_UNKNOWN_SESSION := "unknown_session"
  const CODE_SESSION_UNAVAILABLE := "session_unavailable"
  const CODE_NO_PENDING_ANSWER := "no_pending_answer"

  /** What the session manager said to a prompt, interrupt or answer. */
  datatype Delivery = Delivered | UnknownSession | Unavailable | NothingPending

  datatype Exit = Running | Detached | Dropped

  /** One firing of the `select!`, with everything the outside decided. A query's
      `refusal` is the error code its dispatcher fails it with, if it does. */
  datatype Stimulus =
    | InPing(id: string, sendOk: bool)
    | InPong
    | InError
    | InQuery(id: string, refusal: Option<string>, sendOk: bool)
    | InPrompt(id: string, session: string, delivery: Delivery, sendOk: bool)
    | InInterrupt(id: string, session: string, delivery: Delivery, sendOk: bool)
    | InAnswer(id: string, session: string, delivery: Delivery, sendOk: bool)
    | Ignored
    | WsPing(sendOk: bool)
    | Closed
    | Heartbeat(at: nat, sendOk: bool)
    | DetachPoll(requested: bool)
    | Event(session: string, event: DriverEvent, now: nat, sendOk: bool)
    | Flush(now: nat, order: seq<string>, sends: nat)

  datatype State = State(
    pending: Coalescing.Buffer,
    lastPromptId: map<string, string>,
    blocked: set<string>,
    awaitingPong: bool,
    sent: seq<Frame>,
    minted: nat,
    connectedAt: nat,
    exit: Exit)

  const MAX_BYTES := Coalescing.DEFAULT_MAX_BYTES
  const WINDOW := Coalescing.DEFAULT_WINDOW

  function Start(at: nat): State {
    State(map[], map[], {}, false, [], 0, at, Running)
  }

  function Send(s: State, frame: Frame, sendOk: bool): State {
    if sendOk then s.(sent := s.sent + [frame]) else s.(exit := Dropped)
  }

  /** `send_reply_chunks`: a batch of one travels as `text`, a larger one as
      `chunks`, and an empty batch only if it ends the turn. */
  function SendReply(s: State, id: Id, session: string, chunks: seq<string>, done: bool, sendOk: bool): State {
    if chunks == [] && !done then s
    else if |chunks| == 1 then Send(s, Reply(id, session, Some(chunks[0]), [], done), sendOk)
    else Send(s, Reply(id, session, None, chunks, done), sendOk)
  }

  function ReplyId(s: State, session: string): Id {
    if session in s.lastPromptId then Wire(s.lastPromptId[session]) else Minted(s.minted)
  }

  /** Taking a reply id uses up a serial number when there is none to reuse. */
  function Mint(s: State, session: string): State {
    if session in s.lastPromptId then s else s.(minted := s.minted + 1)
  }

  function SendAll(s: State, batches: seq<Coalescing.Batch>, sends: nat): State
    decreases |batches|
  {
    if batches == [] || s.exit != Running then s
    else
      var b := batches[0];
      var next := SendReply(Mint(s, b.session), ReplyId(s, b.session), b.session, b.chunks, false, sends > 0);
      SendAll(next, batches[1..], if sends > 0 then sends - 1 else 0)
  }

  /** The error frame for a request the manager turned down; only an `answer`
      distinguishes "nothing is pending". */
  function RefusalFrame(id: string, delivery: Delivery, answering: bool): Frame {
    if delivery == UnknownSession then ErrorReply(id, CODE_UNKNOWN_SESSION)
    else if delivery == NothingPending && answering then ErrorReply(id, CODE_NO_PENDING_ANSWER)
    else ErrorReply(id, CODE_SESSION_UNAVAILABLE)
  }

  function QueryFrame(id: string, refusal: Option<string>): Frame {
    if refusal.Some? then ErrorReply(id, refusal.value) else QueryAnswer(id)
  }

  /** The resync pushed once per known session before the loop starts. */
  function Resync(s: State, session: string, isBlocked: bool, sendOk: bool): State {
    if s.exit != Running || !isBlocked then s
    else Send(s.(blocked := s.blocked + {session}), SessionBlocked(session, true), sendOk)
  }

  function OnEvent(s: State, session: string, event: DriverEvent, now: nat, sendOk: bool): State {
    var id := ReplyId(s, session);
    var t := Mint(s, session);
    match event
    case Update(text) =>
      var (pending, batch) := Coalescing.Push(t.pending, MAX_BYTES, session, text, now);
      var u := t.(pending := pending);
      if batch.Some? then SendReply(u, id, session, batch.value, false, sendOk) else u
    case StopReason(_) =>
      var tail := Coalescing.Buffered(t.pending, session);
      var u := t.(pending := t.pending - {session}, lastPromptId := t.lastPromptId - {session});
      SendReply(u, id, session, tail, true, sendOk)
    case Status(Blocked) =>
      if session in t.blocked then t
      else Send(t.(blocked := t.blocked + {session}), SessionBlocked(session, true), sendOk)
    case Status(_) =>
      if session in t.blocked
      then Send(t.(blocked := t.blocked - {session}), SessionBlocked(session, false), sendOk)
      else t
  }

  function Step(s: State, stimulus: Stimulus): State {
    if s.exit != Running then s
    else match stimulus
      case InPing(id, sendOk) => Send(s, Pong(id), sendOk)
      case InPong => s.(awaitingPong := false)
      case InError => s.(exit := Dropped)
      case InQuery(id, refusal, sendOk) => Send(s, QueryFrame(id, refusal), sendOk)
      case InPrompt(id, session, delivery, sendOk) =>
        if delivery == Delivered then s.(lastPromptId := s.lastPromptId[session := id])
        else Send(s, RefusalFrame(id, delivery, false), sendOk)
      case InInterrupt(id, _, delivery, sendOk) =>
        Send(s, if delivery == Delivered then Ack(id) else RefusalFrame(id, delivery, false), sendOk)
      case InAnswer(id, _, delivery, sendOk) =>
        Send(s, if delivery == Delivered then Ack(id) else RefusalFrame(id, delivery, true), sendOk)
      case Ignored => s
      case WsPing(sendOk) => Send(s, WsPong, sendOk)
      case Closed => s.(exit := Dropped)
      case Heartbeat(at, sendOk) =>
        if s.awaitingPong || !sendOk then s.(exit := Dropped)
        else Send(s, Ping, true).(awaitingPong := true, connectedAt := at)
      case DetachPoll(requested) => if requested then s.(exit := Detached) else s
      case Event(session, event, now, sendOk) => OnEvent(s, session, event, now, sendOk)
      case Flush(now, order, sends) =>
        var (rest, out) := Coalescing.Due(s.pending, WINDOW, now, order);
        SendAll(s.(pending := rest), out, sends)
  }

  function Run(s: State, script: seq<Stimulus>): State {
    if script == [] then s else Step(Run(s, Front(script)), Last(script))
  }

  datatype ResyncAnswer = ResyncAnswer(session: string, isBlocked: bool, sendOk: bool)

  function RunResync(s: State, answers: seq<ResyncAnswer>): State {
    if answers == [] then s
    else var a := Last(answers); Resync(RunResync(s, Front(answers)), a.session, a.isBlocked, a.sendOk)
  }

  /** A whole connection: resync, then the loop. */
  function Connection(at: nat, answers: seq<ResyncAnswer>, script: seq<Stimulus>): State {
    Run(RunResync(Start(at), answers), script)
  }
}
