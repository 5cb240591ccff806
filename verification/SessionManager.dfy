/** One session's background task: busy-turn queue, interrupts and the stall
    timeout (src/session_manager.rs, `run_session`). */
module Manager {
  import opened Common
  import opened DriverEvents

  const INTERRUPT_STALL_TIMEOUT: nat := 5000   // milliseconds

  datatype Reply =
    | NoTurnInFlight
    | CancelSent
    | CancelFailed
    | AnswerResult(ok: bool)
    | BusyIs(busy: bool)
    | BlockedIs(blocked: bool)

  /** One firing of the session's `select!`. `sendOk` is what `driver.prompt` would
      return and `cancelOk` what `attempt_cancel` would, if they are reached. */
  datatype Stimulus =
    | Prompt(text: string, sendOk: bool)
    | Interrupt(now: nat, cancelOk: bool)
    | Answer(ok: bool)
    | IsBusy
    | IsBlocked
    | HandlesDropped
    | Event(event: DriverEvent, sendOk: bool)
    | DriverGone
    | Expire(now: nat, sendOk: bool)

  datatype State = State(
    queue: seq<string>,
    busy: bool,
    blocked: bool,
    driverAlive: bool,
    deadline: Option<nat>,
    stopped: bool,
    handed: seq<string>,
    forwarded: seq<DriverEvent>,
    replies: seq<Reply>)

  const START := State([], false, false, true, None, false, [], [], [])

  function HandOver(s: State, text: string, sendOk: bool): State {
    if sendOk then s.(busy := true, handed := s.handed + [text]) else s.(driverAlive := false)
  }

  /** The turn is over: disarm, and start the next queued prompt if any. */
  function AfterTurn(s: State, sendOk: bool): State {
    var idle := s.(deadline := None, busy := false);
    if s.queue == [] then idle
    else HandOver(idle.(queue := s.queue[1..]), s.queue[0], sendOk)
  }

  function Tell(s: State, reply: Reply): State {
    s.(replies := s.replies + [reply])
  }

  function OnInterrupt(s: State, now: nat, cancelOk: bool): State {
    if !s.busy then Tell(s, NoTurnInFlight)
    else if !cancelOk then Tell(s, CancelFailed)
    else if s.driverAlive then Tell(s.(deadline := Some(now + INTERRUPT_STALL_TIMEOUT)), CancelSent)
    else Tell(s, CancelSent)
  }

  predicate Fires(s: State, now: nat) {
    s.driverAlive && !s.stopped && s.deadline.Some? && s.deadline.value <= now
  }

  function Step(s: State, stimulus: Stimulus): State {
    if s.stopped then s
    else match stimulus
      case HandlesDropped => s.(stopped := true)
      case Interrupt(now, cancelOk) => OnInterrupt(s, now, cancelOk)
      case Answer(ok) => Tell(s, AnswerResult(ok))
      case IsBusy => Tell(s, BusyIs(s.busy))
      case IsBlocked => Tell(s, BlockedIs(s.blocked))
      case Prompt(text, sendOk) =>
        if !s.driverAlive then s
        else if s.busy then s.(queue := s.queue + [text])
        else HandOver(s, text, sendOk)
      case Event(event, sendOk) =>
        if !s.driverAlive then s
        else
          var seen := s.(blocked := BlockedAfter(event, s.blocked), forwarded := s.forwarded + [event]);
          if event.StopReason? then AfterTurn(seen, sendOk) else seen
      case DriverGone => if s.driverAlive then s.(driverAlive := false) else s
      case Expire(now, sendOk) => if Fires(s, now) then AfterTurn(s, sendOk) else s
  }

  function Run(s: State, script: seq<Stimulus>): State {
    if script == [] then s else Step(Run(s, Front(script)), Last(script))
  }

  /** A step that ends a turn, by its stop reason or by the stall timeout. */
  predicate EndsTurn(s: State, stimulus: Stimulus) {
    && s.driverAlive && !s.stopped
    && ((stimulus.Event? && stimulus.event.StopReason?) || (stimulus.Expire? && Fires(s, stimulus.now)))
  }

  // ---------------------------------------------------------------------
  // A session as it runs
  // ---------------------------------------------------------------------

  /** `run_session`: a session's local state, updated in place one `select!` arm
      at a time, with what reached the driver, the event channel and callers. */
  class SessionTask {
    var queue: seq<string>
    var busy: bool
    var blocked: bool
    var driverAlive: bool
    var deadline: Option<nat>
    var stopped: bool
    var handed: seq<string>
    var forwarded: seq<DriverEvent>
    var replies: seq<Reply>

    ghost function View(): State
      reads this
    {
      State(queue, busy, blocked, driverAlive, deadline, stopped, handed, forwarded, replies)
    }

    constructor ()
      ensures View() == START
    {
      queue, busy, blocked, driverAlive, deadline, stopped := [], false, false, true, None, false;
      handed, forwarded, replies := [], [], [];
    }

    method PromptDriver(text: string, sendOk: bool)
      modifies this
      ensures View() == HandOver(old(View()), text, sendOk)
    {
      if sendOk {
        handed := handed + [text];
        busy := true;
      } else {
        driverAlive := false;
      }
    }

    method FinishTurn(sendOk: bool)
      modifies this
      ensures View() == AfterTurn(old(View()), sendOk)
    {
      deadline := None;
      busy := false;
      if queue != [] {
        var next := queue[0];
        queue := queue[1..];
        PromptDriver(next, sendOk);
      }
    }

    method AcceptPrompt(text: string, sendOk: bool)
      requires driverAlive && !stopped
      modifies this
      ensures View() == Step(old(View()), Prompt(text, sendOk))
    {
      if busy {
        queue := queue + [text];
      } else {
        PromptDriver(text, sendOk);
      }
    }

    method CancelTurn(now: nat, cancelOk: bool)
      modifies this
      ensures View() == OnInterrupt(old(View()), now, cancelOk)
    {
      var result := NoTurnInFlight;
      if busy {
        result := if cancelOk then CancelSent else CancelFailed;
        if cancelOk && driverAlive {
          deadline := Some(now + INTERRUPT_STALL_TIMEOUT);
        }
      }
      replies := replies + [result];
    }

    method ForwardEvent(event: DriverEvent, sendOk: bool)
      requires driverAlive && !stopped
      modifies this
      ensures View() == Step(old(View()), Event(event, sendOk))
    {
      match event {
        case Status(Blocked) => blocked := true;
        case Status(_) => blocked := false;
        case _ =>
      }
      forwarded := forwarded + [event];
      if event.StopReason? {
        FinishTurn(sendOk);
      }
    }

    /** One firing of the `select!`. */
    method Handle(stimulus: Stimulus)
      requires !stopped
      modifies this
      ensures View() == Step(old(View()), stimulus)
    {
      match stimulus
      case HandlesDropped => stopped := true;
      case Interrupt(now, cancelOk) => CancelTurn(now, cancelOk);
      case Answer(ok) => replies := replies + [AnswerResult(ok)];
      case IsBusy => replies := replies + [BusyIs(busy)];
      case IsBlocked => replies := replies + [BlockedIs(blocked)];
      case Prompt(text, sendOk) => if driverAlive { AcceptPrompt(text, sendOk); }
      case Event(event, sendOk) => if driverAlive { ForwardEvent(event, sendOk); }
      case DriverGone => driverAlive := false;
      case Expire(now, sendOk) =>
        if driverAlive && deadline.Some? && deadline.value <= now { FinishTurn(sendOk); }
    }

    method Serve(script: seq<Stimulus>)
      modifies this
      ensures View() == Run(old(View()), script)
    {
      for i := 0 to |script|
        invariant View() == Run(old(View()), script[..i])
      {
        SnocParts(script[..i], script[i]);
        assert script[..i + 1] == script[..i] + [script[i]];
        if !stopped {
          Handle(script[i]);
        }
      }
      assert script[..|script|] == script;
    }
  }

  // ---------------------------------------------------------------------
  // FIFO, with no loss
  // ---------------------------------------------------------------------

  /** A live session with work queued has a turn in flight, and the stall
      deadline is only ever armed for a turn in flight. */
  ghost predicate Coherent(s: State) {
    && (s.driverAlive && s.queue != [] ==> s.busy)
    && (s.deadline.Some? ==> s.busy)
  }

  lemma StepCoherent(s: State, stimulus: Stimulus)
    requires Coherent(s)
    ensures Coherent(Step(s, stimulus))
  {
  }

  lemma {:induction false} AlwaysCoherent(script: seq<Stimulus>)
    ensures Coherent(Run(START, script))
  {
    if script != [] {
      AlwaysCoherent(Front(script));
      StepCoherent(Run(START, Front(script)), Last(script));
    }
  }

  function ReceivedBy(s: State, stimulus: Stimulus): seq<string> {
    if stimulus.Prompt? && s.driverAlive && !s.stopped then [stimulus.text] else []
  }

  /** The prompts that arrived while the driver was alive. */
  function Received(s: State, script: seq<Stimulus>): seq<string> {
    if script == [] then [] else Received(s, Front(script)) + ReceivedBy(Run(s, Front(script)), Last(script))
  }

  function RefusedBy(s: State, stimulus: Stimulus): seq<string> {
    if s.stopped || !s.driverAlive then []
    else match stimulus
      case Prompt(text, false) => if s.busy then [] else [text]
      case Event(StopReason(_), false) => if s.queue == [] then [] else [s.queue[0]]
      case Expire(now, false) => if Fires(s, now) && s.queue != [] then [s.queue[0]] else []
      case _ => []
  }

  /** The prompts whose hand-over to the driver failed. */
  function Refused(s: State, script: seq<Stimulus>): seq<string> {
    if script == [] then [] else Refused(s, Front(script)) + RefusedBy(Run(s, Front(script)), Last(script))
  }

  ghost predicate InOrder(s: State, refused: seq<string>, received: seq<string>) {
    && s.handed + refused + s.queue == received
    && |refused| <= 1
    && (s.driverAlive ==> refused == [])
  }

  lemma LiveInOrder(s: State, refused: seq<string>, received: seq<string>)
    requires InOrder(s, refused, received) && s.driverAlive
    ensures s.handed + s.queue == received
  {
    ConcatAssociates(s.handed, [], []);
  }

  lemma HandOverInOrder(s: State, text: string, sendOk: bool, received: seq<string>)
    requires s.driverAlive && s.handed + [text] + s.queue == received
    ensures InOrder(HandOver(s, text, sendOk), if sendOk then [] else [text], received)
  {
    ConcatAssociates(s.handed + [text], [], []);
    ConcatAssociates(s.handed, [], []);
  }

  lemma PromptInOrder(s: State, text: string, sendOk: bool, received: seq<string>)
    requires s.driverAlive && !s.stopped && Coherent(s) && InOrder(s, [], received)
    ensures InOrder(Step(s, Prompt(text, sendOk)), if s.busy || sendOk then [] else [text], received + [text])
  {
    if s.busy {
      ConcatAssociates(s.handed + [], s.queue, [text]);
    } else {
      ConcatAssociates(s.handed, [], []);
      ConcatAssociates(s.handed + [text], [], []);
      HandOverInOrder(s, text, sendOk, received + [text]);
    }
  }

  lemma AfterTurnInOrder(s: State, sendOk: bool, received: seq<string>)
    requires s.driverAlive && InOrder(s, [], received)
    ensures InOrder(AfterTurn(s, sendOk), if sendOk || s.queue == [] then [] else [s.queue[0]], received)
  {
    if s.queue != [] {
      assert s.queue == [s.queue[0]] + s.queue[1..];
      ConcatAssociates(s.handed, [s.queue[0]], s.queue[1..]);
      ConcatAssociates(s.handed, [], []);
      HandOverInOrder(s.(deadline := None, busy := false, queue := s.queue[1..]), s.queue[0], sendOk, received);
    }
  }

  /** Every other step leaves the hand-overs and the queue alone. */
  lemma OthersInOrder(s: State, stimulus: Stimulus, refused: seq<string>, received: seq<string>)
    requires InOrder(s, refused, received)
    requires s.stopped || !s.driverAlive || (!stimulus.Prompt? && !EndsTurn(s, stimulus))
    ensures InOrder(Step(s, stimulus), refused, received)
    ensures RefusedBy(s, stimulus) == [] && ReceivedBy(s, stimulus) == []
  {
  }

  lemma TurnEndInOrder(s: State, stimulus: Stimulus, received: seq<string>)
    requires EndsTurn(s, stimulus) && InOrder(s, [], received)
    ensures InOrder(Step(s, stimulus), RefusedBy(s, stimulus), received)
    ensures ReceivedBy(s, stimulus) == []
  {
    if stimulus.Event? {
      var seen := s.(blocked := BlockedAfter(stimulus.event, s.blocked), forwarded := s.forwarded + [stimulus.event]);
      AfterTurnInOrder(seen, stimulus.sendOk, received);
    } else {
      AfterTurnInOrder(s, stimulus.sendOk, received);
    }
  }

  lemma StepInOrder(s: State, stimulus: Stimulus, refused: seq<string>, received: seq<string>)
    requires Coherent(s) && InOrder(s, refused, received)
    ensures InOrder(Step(s, stimulus), refused + RefusedBy(s, stimulus), received + ReceivedBy(s, stimulus))
  {
    ConcatAssociates(refused, [], []);
    ConcatAssociates(received, [], []);
    ConcatAssociates([], [], RefusedBy(s, stimulus));
    if s.stopped || !s.driverAlive || (!stimulus.Prompt? && !EndsTurn(s, stimulus)) {
      OthersInOrder(s, stimulus, refused, received);
    } else if stimulus.Prompt? {
      PromptInOrder(s, stimulus.text, stimulus.sendOk, received);
    } else {
      TurnEndInOrder(s, stimulus, received);
    }
  }

  lemma {:induction false} AlwaysInOrder(script: seq<Stimulus>)
    ensures InOrder(Run(START, script), Refused(START, script), Received(START, script))
  {
    if script != [] {
      var front, last := Front(script), Last(script);
      AlwaysInOrder(front);
      AlwaysCoherent(front);
      StepInOrder(Run(START, front), last, Refused(START, front), Received(START, front));
    }
  }

  /** Over every run, what was handed to the driver, then the at most one
      prompt whose hand-over failed, then the queue, is exactly what was
      received while the driver was alive, in order. */
  lemma {:induction false} FifoNoLoss(script: seq<Stimulus>)
    ensures var s := Run(START, script);
            && s.handed + Refused(START, script) + s.queue == Received(START, script)
            && |Refused(START, script)| <= 1
            && (s.driverAlive ==> s.handed + s.queue == Received(START, script))
  {
    AlwaysInOrder(script);
    if Run(START, script).driverAlive {
      LiveInOrder(Run(START, script), Refused(START, script), Received(START, script));
    }
  }

  /** Interrupts, answers and queries touch neither the queue nor the hand-overs. */
  lemma {:induction false} QueriesLeaveOrderAlone(s: State, script: seq<Stimulus>)
    requires forall i :: 0 <= i < |script| ==>
               script[i].Interrupt? || script[i].Answer? || script[i].IsBusy? || script[i].IsBlocked?
    ensures var t := Run(s, script);
            t.queue == s.queue && t.handed == s.handed && t.busy == s.busy
            && t.blocked == s.blocked && t.driverAlive == s.driverAlive && t.forwarded == s.forwarded
  {
    if script != [] {
      QueriesLeaveOrderAlone(s, Front(script));
    }
  }

  /** A step forwards at most one event, and `blocked` follows it. */
  lemma StepForwards(s: State, stimulus: Stimulus)
    ensures var t := Step(s, stimulus);
            if stimulus.Event? && s.driverAlive && !s.stopped
            then t.forwarded == s.forwarded + [stimulus.event] && t.blocked == BlockedAfter(stimulus.event, s.blocked)
            else t.forwarded == s.forwarded && t.blocked == s.blocked
  {
  }

  /** The `blocked` flag is the fold of every status forwarded so far. */
  lemma {:induction false} BlockedFollowsForwarded(script: seq<Stimulus>)
    ensures Run(START, script).blocked == FoldBlocked(Run(START, script).forwarded, false)
  {
    if script != [] {
      BlockedFollowsForwarded(Front(script));
      var before := Run(START, Front(script));
      StepForwards(before, Last(script));
      if Last(script).Event? {
        FoldBlockedSnoc(before.forwarded, Last(script).event, false);
      }
    }
  }

  // ---------------------------------------------------------------------
  // What callers are told
  // ---------------------------------------------------------------------

  /** A prompt is outstanding: handed over by some step, and no turn has ended
      since, by a stop reason or by force. Told from the hand-overs and the turn
      ends alone. */
  predicate Outstanding(script: seq<Stimulus>) {
    script != [] && (
      var before, after := Run(START, Front(script)), Run(START, script);
      if after.handed != before.handed then true
      else if EndsTurn(before, Last(script)) then false
      else Outstanding(Front(script)))
  }

  /** Turn ends that found a prompt outstanding. */
  function Finished(script: seq<Stimulus>): nat {
    if script == [] then 0
    else
      Finished(Front(script))
      + if Outstanding(Front(script)) && EndsTurn(Run(START, Front(script)), Last(script)) then 1 else 0
  }

  lemma StepOutstanding(s: State, stimulus: Stimulus)
    requires Coherent(s)
    ensures var t := Step(s, stimulus);
            && (t.handed == s.handed || |t.handed| == |s.handed| + 1)
            && t.busy == (if t.handed != s.handed then true else if EndsTurn(s, stimulus) then false else s.busy)
            && (t.handed != s.handed ==> !s.busy || EndsTurn(s, stimulus))
  {
  }

  /** `busy` is exactly a prompt outstanding. There are never two: a hand-over
      happens only when none is, or in the very step that ends its turn. */
  lemma {:induction false} BusyIsOneOutstanding(script: seq<Stimulus>)
    ensures Run(START, script).busy == Outstanding(script)
    ensures |Run(START, script).handed| == Finished(script) + if Outstanding(script) then 1 else 0
    ensures script != [] && Run(START, script).handed != Run(START, Front(script)).handed ==>
              !Outstanding(Front(script)) || EndsTurn(Run(START, Front(script)), Last(script))
  {
    if script != [] {
      BusyIsOneOutstanding(Front(script));
      AlwaysCoherent(Front(script));
      StepOutstanding(Run(START, Front(script)), Last(script));
    }
  }

  predicate Calls(stimulus: Stimulus) {
    stimulus.Interrupt? || stimulus.Answer? || stimulus.IsBusy? || stimulus.IsBlocked?
  }

  /** What a call made now deserves to hear, judged by what was handed over,
      finished and forwarded rather than by the session's own flags. */
  function Deserved(outstanding: bool, forwarded: seq<DriverEvent>, stimulus: Stimulus): Reply
    requires Calls(stimulus)
  {
    match stimulus
    case Interrupt(_, cancelOk) =>
      if !outstanding then NoTurnInFlight else if cancelOk then CancelSent else CancelFailed
    case Answer(ok) => AnswerResult(ok)
    case IsBusy => BusyIs(outstanding)
    case IsBlocked => BlockedIs(FoldBlocked(forwarded, false))
  }

  lemma StepTells(s: State, stimulus: Stimulus)
    requires !s.stopped && s.blocked == FoldBlocked(s.forwarded, false)
    ensures Step(s, stimulus).replies
            == s.replies + if Calls(stimulus) then [Deserved(s.busy, s.forwarded, stimulus)] else []
  {
    ConcatAssociates(s.replies, [], []);
  }

  /** Every call is answered at once, truthfully, even after the driver died:
      busy iff a prompt is outstanding, blocked iff the statuses forwarded say so,
      and an interrupt only reaches a turn that is in flight. */
  lemma {:induction false} CallsAreAnsweredTruthfully(script: seq<Stimulus>, next: Stimulus)
    requires !Run(START, script).stopped
    ensures var s := Run(START, script);
            Run(START, script + [next]).replies
            == s.replies
               + if Calls(next) then [Deserved(Outstanding(script), s.forwarded, next)] else []
  {
    BusyIsOneOutstanding(script);
    BlockedFollowsForwarded(script);
    SnocParts(script, next);
    StepTells(Run(START, script), next);
  }

  // ---------------------------------------------------------------------
  // Unwedging after an interrupt
  // ---------------------------------------------------------------------

  /** The time of the latest acknowledged interrupt, the one at `ack` included. */
  function LatestAck(ack: nat, script: seq<Stimulus>): nat {
    if script == [] then ack
    else if Last(script).Interrupt? && Last(script).cancelOk then Last(script).now
    else LatestAck(ack, Front(script))
  }

  /** Nothing in `script` ends a turn interrupted at `ack`: no stop reason, and no
      timer going off within five seconds of the latest acknowledgement. */
  predicate Undisturbed(ack: nat, script: seq<Stimulus>) {
    || script == []
    || (&& Undisturbed(ack, Front(script))
        && match Last(script)
           case HandlesDropped => false
           case DriverGone => false
           case Event(event, _) => !event.StopReason?
           case Expire(now, _) => now < LatestAck(ack, Front(script)) + 5000
           case _ => true)
  }

  lemma StepKeepsDeadline(s: State, ack: nat, script: seq<Stimulus>, stimulus: Stimulus)
    requires s.busy && s.driverAlive && !s.stopped && s.deadline == Some(LatestAck(ack, script) + 5000)
    requires Undisturbed(ack, script + [stimulus])
    ensures var t := Step(s, stimulus);
            && t.busy && t.driverAlive && !t.stopped
            && t.deadline == Some(LatestAck(ack, script + [stimulus]) + 5000)
  {
    SnocParts(script, stimulus);
  }

  /** After an acknowledged interrupt, and until the turn ends or stalls out,
      the deadline stays armed five seconds after the latest acknowledgement,
      whatever else arrives. */
  lemma {:induction false} DeadlineStaysArmed(s: State, ack: nat, script: seq<Stimulus>)
    requires s.busy && s.driverAlive && !s.stopped
    requires Undisturbed(ack, script)
    ensures var t := Run(Step(s, Interrupt(ack, true)), script);
            && t.busy && t.driverAlive && !t.stopped
            && t.deadline == Some(LatestAck(ack, script) + 5000)
  {
    if script != [] {
      DeadlineStaysArmed(s, ack, Front(script));
      assert script == Front(script) + [Last(script)];
      StepKeepsDeadline(Run(Step(s, Interrupt(ack, true)), Front(script)), ack, Front(script), Last(script));
    }
  }

  /** A timer going off before the deadline changes nothing; at or after it, it
      frees the session. */
  lemma ExpiryUnwedges(s: State, now: nat, sendOk: bool)
    requires s.driverAlive && !s.stopped && s.deadline.Some?
    ensures var t := Step(s, Expire(now, sendOk));
            if now < s.deadline.value then t == s
            else
              && t.deadline == None
              && (if s.queue == [] then !t.busy && t.driverAlive && t.handed == s.handed && t.queue == []
                  else t.busy == sendOk && t.driverAlive == sendOk && t.queue == s.queue[1..]
                       && t.handed == s.handed + if sendOk then [s.queue[0]] else [])
  {
    ConcatAssociates(s.handed, [], []);
  }

  /** An acknowledged interrupt never wedges a session: whatever arrives, if the
      turn has not ended five seconds after the latest acknowledgement, the
      timeout then starts the head of whatever has queued by then, or leaves the
      session idle. A moment earlier it leaves the turn running. */
  lemma InterruptedTurnEndsInTime(s: State, ack: nat, script: seq<Stimulus>, now: nat)
    requires s.busy && s.driverAlive && !s.stopped
    requires Undisturbed(ack, script)
    ensures var acked := Step(s, Interrupt(ack, true));
            var t := Run(acked, script);
            var u := Run(acked, script + [Expire(now, true)]);
            if now < LatestAck(ack, script) + 5000 then u == t && u.busy
            else
              && u.driverAlive && u.deadline == None
              && (if t.queue == [] then !u.busy && u.handed == t.handed && u.queue == []
                  else u.busy && u.handed == t.handed + [t.queue[0]] && u.queue == t.queue[1..])
  {
    DeadlineStaysArmed(s, ack, script);
    SnocParts(script, Expire(now, true));
    ExpiryUnwedges(Run(Step(s, Interrupt(ack, true)), script), now, true);
  }

  function TurnEnds(s: State, script: seq<Stimulus>): nat {
    if script == [] then 0
    else TurnEnds(s, Front(script)) + if EndsTurn(Run(s, Front(script)), Last(script)) then 1 else 0
  }

  /** No new prompts, and every hand-over to the driver succeeds. */
  predicate Draining(script: seq<Stimulus>) {
    forall i :: 0 <= i < |script| ==>
      && !script[i].Prompt? && !script[i].HandlesDropped? && !script[i].DriverGone?
      && (script[i].Event? ==> script[i].sendOk) && (script[i].Expire? ==> script[i].sendOk)
  }

  /** One step of draining: a turn end moves the queue's head to the driver. */
  lemma StepDrains(s: State, stimulus: Stimulus)
    requires s.driverAlive && !s.stopped && Draining([stimulus])
    ensures var t := Step(s, stimulus);
            && t.driverAlive && !t.stopped
            && (if EndsTurn(s, stimulus) && s.queue != []
                then t.queue == s.queue[1..] && t.handed == s.handed + [s.queue[0]]
                else t.queue == s.queue && t.handed == s.handed)
  {
    assert [stimulus][0] == stimulus;
  }

  function Least(a: nat, b: nat): nat {
    if a < b then a else b
  }

  /** One more of the queue handed over. */
  lemma DrainOne(handed: seq<string>, queue: seq<string>, n: nat)
    requires n < |queue|
    ensures handed + queue[..n] + [queue[n..][0]] == handed + queue[..n + 1]
    ensures queue[n..][1..] == queue[n + 1..]
  {
    assert queue[..n + 1] == queue[..n] + [queue[n]];
    ConcatAssociates(handed, queue[..n], [queue[n]]);
  }

  /** Each turn end starts exactly the next queued prompt, so a queue of length
      n has drained, in order, after n of them. */
  lemma {:induction false} QueueDrains(s: State, script: seq<Stimulus>)
    requires s.driverAlive && !s.stopped && Draining(script)
    ensures var t := Run(s, script);
            var n := Least(TurnEnds(s, script), |s.queue|);
            && t.driverAlive && !t.stopped
            && t.queue == s.queue[n..]
            && t.handed == s.handed + s.queue[..n]
  {
    if script == [] {
      ConcatAssociates(s.handed, [], []);
    } else {
      assert Draining(Front(script)) && Draining([Last(script)]);
      QueueDrains(s, Front(script));
      StepDrains(Run(s, Front(script)), Last(script));
      var n := Least(TurnEnds(s, Front(script)), |s.queue|);
      if n < |s.queue| {
        DrainOne(s.handed, s.queue, n);
      }
    }
  }

  /** A stop reason that arrives after a forced clear is taken for the next
      turn's: `busy` drops while that turn is still running in the driver. */
  lemma LateStopReasonClearsNextTurn(first: string, second: string, reason: DriverStopReason)
    ensures var script := [Prompt(first, true), Interrupt(0, true), Expire(5000, true), Prompt(second, true),
                           Event(StopReason(reason), true)];
            var s := Run(START, script);
            !s.busy && s.handed == [first, second] && StopReasons(s.forwarded) == 1
  {
    var p1, p2, p3, p4 := Prompt(first, true), Interrupt(0, true), Expire(5000, true), Prompt(second, true);
    var p5 := Event(StopReason(reason), true);
    assert Front([p1, p2, p3, p4, p5]) == [p1, p2, p3, p4];
    assert Front([p1, p2, p3, p4]) == [p1, p2, p3];
    assert Front([p1, p2, p3]) == [p1, p2];
    assert Front([p1, p2]) == [p1];
    assert Front([p1]) == [];
    var s1 := Step(START, p1);
    var s2 := Step(s1, p2);
    var s3 := Step(s2, p3);
    var s4 := Step(s3, p4);
    assert Run(START, []) == START && Run(START, [p1]) == s1 && Run(START, [p1, p2]) == s2;
    assert Run(START, [p1, p2, p3]) == s3 && Run(START, [p1, p2, p3, p4]) == s4;
    assert Front([StopReason(reason)]) == [];
  }
}
