/** The session loop as it runs: local state updated in place, one `select!`
    arm at a time (src/connection.rs). */
module ConnectionRuntime {
  import opened Common
  import opened DriverEvents
  import opened WireLoop
  import Coalescing

  class SessionLoop {
    const coalescer: Coalescing.ReplyCoalescer
    var lastPromptId: map<string, string>
    var blockedSessions: set<string>
    var awaitingPong: bool
    var sent: seq<Frame>
    var minted: nat
    var connectedAt: nat
    var exit: Exit

    ghost predicate Valid() {
      coalescer.window == WINDOW && coalescer.maxBytes == MAX_BYTES
    }

    ghost function View(): State
      reads this, coalescer
    {
      State(coalescer.pending, lastPromptId, blockedSessions, awaitingPong, sent, minted, connectedAt, exit)
    }

    constructor (at: nat)
      ensures Valid() && fresh(coalescer)
      ensures View() == Start(at)
    {
      coalescer := new Coalescing.ReplyCoalescer(WINDOW, MAX_BYTES);
      lastPromptId := map[];
      blockedSessions := {};
      awaitingPong := false;
      sent := [];
      minted := 0;
      connectedAt := at;
      exit := Running;
    }

    method SendFrame(frame: Frame, sendOk: bool)
      modifies this`sent, this`exit
      ensures View() == Send(old(View()), frame, sendOk)
    {
      if sendOk {
        sent := sent + [frame];
      } else {
        exit := Dropped;
      }
    }

    method SendReplyChunks(id: Id, session: string, chunks: seq<string>, done: bool, sendOk: bool)
      modifies this`sent, this`exit
      ensures View() == SendReply(old(View()), id, session, chunks, done, sendOk)
    {
      if chunks == [] && !done {
        return;
      }
      var text: Option<string> := None;
      var rest := chunks;
      if |chunks| == 1 {
        text := Some(chunks[0]);
        rest := [];
      }
      SendFrame(Reply(id, session, text, rest, done), sendOk);
    }

    method TakeReplyId(session: string) returns (id: Id)
      modifies this`minted
      ensures id == ReplyId(old(View()), session)
      ensures View() == Mint(old(View()), session)
    {
      if session in lastPromptId {
        id := Wire(lastPromptId[session]);
      } else {
        id := Minted(minted);
        minted := minted + 1;
      }
    }

    method HandleEvent(session: string, event: DriverEvent, now: nat, sendOk: bool)
      requires Valid()
      modifies this, coalescer
      ensures View() == OnEvent(old(View()), session, event, now, sendOk)
    {
      var id := TakeReplyId(session);
      match event
      case Update(text) =>
        var batch := coalescer.Add(session, text, now);
        if batch.Some? {
          SendReplyChunks(id, session, batch.value, false, sendOk);
        }
      case StopReason(_) =>
        var tail := coalescer.Take(session);
        lastPromptId := lastPromptId - {session};
        SendReplyChunks(id, session, tail, true, sendOk);
      case Status(Blocked) =>
        if session !in blockedSessions {
          blockedSessions := blockedSessions + {session};
          SendFrame(SessionBlocked(session, true), sendOk);
        }
      case Status(_) =>
        if session in blockedSessions {
          blockedSessions := blockedSessions - {session};
          SendFrame(SessionBlocked(session, false), sendOk);
        }
    }

    /** The debounce arm: everything due leaves the buffer first, then is sent
        batch by batch until the socket gives out. */
    method FlushDue(now: nat, order: seq<string>, sends: nat)
      requires Valid() && exit == Running
      modifies this, coalescer
      ensures View() == Step(old(View()), Flush(now, order, sends))
    {
      var batches := coalescer.ReleaseDue(now, order);
      ghost var goal := SendAll(View(), batches, sends);
      var budget := sends;
      var i := 0;
      while i < |batches| && exit == Running
        invariant 0 <= i <= |batches|
        invariant coalescer.pending == Coalescing.Due(old(View()).pending, WINDOW, now, order).0
        invariant SendAll(View(), batches[i..], budget) == goal
      {
        var id := TakeReplyId(batches[i].session);
        SendReplyChunks(id, batches[i].session, batches[i].chunks, false, budget > 0);
        budget := if budget > 0 then budget - 1 else 0;
        assert batches[i..][1..] == batches[i + 1..];
        i := i + 1;
      }
    }

    method Answered(id: string, delivery: Delivery, answering: bool, sendOk: bool)
      modifies this`sent, this`exit
      ensures View() == Send(old(View()),
                             if delivery == Delivered then Ack(id) else RefusalFrame(id, delivery, answering), sendOk)
    {
      if delivery == Delivered {
        SendFrame(Ack(id), sendOk);
      } else {
        SendFrame(RefusalFrame(id, delivery, answering), sendOk);
      }
    }

    method HandleFrame(stimulus: Stimulus)
      requires exit == Running && !stimulus.Event? && !stimulus.Flush?
      modifies this
      ensures View() == Step(old(View()), stimulus)
    {
      match stimulus
      case InPing(id, sendOk) => SendFrame(Pong(id), sendOk);
      case InPong => awaitingPong := false;
      case InError => exit := Dropped;
      case InQuery(id, refusal, sendOk) =>
        if refusal.Some? {
          SendFrame(ErrorReply(id, refusal.value), sendOk);
        } else {
          SendFrame(QueryAnswer(id), sendOk);
        }
      case InPrompt(id, session, delivery, sendOk) =>
        if delivery == Delivered {
          lastPromptId := lastPromptId[session := id];
        } else {
          SendFrame(RefusalFrame(id, delivery, false), sendOk);
        }
      case InInterrupt(id, _, delivery, sendOk) => Answered(id, delivery, false, sendOk);
      case InAnswer(id, _, delivery, sendOk) => Answered(id, delivery, true, sendOk);
      case Ignored =>
      case WsPing(sendOk) => SendFrame(WsPong, sendOk);
      case Closed => exit := Dropped;
      case Heartbeat(at, sendOk) =>
        if awaitingPong {
          exit := Dropped;
        } else if sendOk {
          SendFrame(Ping, true);
          awaitingPong := true;
          connectedAt := at;
        } else {
          exit := Dropped;
        }
      case DetachPoll(requested) =>
        if requested {
          exit := Detached;
        }
    }

    /** One firing of the `select!`. */
    method Handle(stimulus: Stimulus)
      requires Valid() && exit == Running
      modifies this, coalescer
      ensures View() == Step(old(View()), stimulus)
    {
      match stimulus
      case Event(session, event, now, sendOk) => HandleEvent(session, event, now, sendOk);
      case Flush(now, order, sends) => FlushDue(now, order, sends);
      case _ => HandleFrame(stimulus);
    }

    /** Push `session_blocked` for every session already blocked. */
    method ResyncBlocked(answers: seq<ResyncAnswer>)
      modifies this
      ensures View() == RunResync(old(View()), answers)
    {
      for i := 0 to |answers|
        invariant View() == RunResync(old(View()), answers[..i])
      {
        SnocParts(answers[..i], answers[i]);
        assert answers[..i + 1] == answers[..i] + [answers[i]];
        if exit == Running && answers[i].isBlocked {
          blockedSessions := blockedSessions + {answers[i].session};
          SendFrame(SessionBlocked(answers[i].session, true), answers[i].sendOk);
        }
      }
      assert answers[..|answers|] == answers;
    }

    /** The whole of `session_loop`: resync, then serve the `select!` until the
        connection ends or the script does. */
    method Serve(answers: seq<ResyncAnswer>, script: seq<Stimulus>)
      requires Valid()
      modifies this, coalescer
      ensures View() == Run(RunResync(old(View()), answers), script)
    {
      ResyncBlocked(answers);
      ghost var live := View();
      for i := 0 to |script|
        invariant View() == Run(live, script[..i])
      {
        SnocParts(script[..i], script[i]);
        assert script[..i + 1] == script[..i] + [script[i]];
        if exit == Running {
          Handle(script[i]);
        }
      }
      assert script[..|script|] == script;
    }
  }
}
