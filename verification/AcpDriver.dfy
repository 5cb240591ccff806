/** The spawn-mode driver's command loop (src/acp_driver.rs, `run_command_loop`). */
module Acp {
  import opened Common
  import opened DriverEvents

  datatype Command = PromptCommand(text: string) | CancelCommand

  /** One thing the loop can take next. Agent messages are only read while a
      prompt is in flight. `HandleDropped` is the end of the loop from outside. */
  datatype Stimulus =
    | Receive(command: Command, sendOk: bool)
    | HandleDropped
    | AgentText(text: string)
    | AgentOther
    | AgentStopped(reason: DriverStopReason)
    | AgentFailed

  /** What became of a prompt taken from the channel: sent to the agent,
      silently discarded because a turn was in flight, or lost with the
      connection when sending it failed. */
  datatype Fate = Started | Discarded | SendFailed

  datatype Taken = Taken(text: string, fate: Fate)

  datatype State = State(
    inFlight: bool,
    running: bool,
    taken: seq<Taken>,
    cancels: nat,
    emitted: seq<DriverEvent>)

  const START := State(false, true, [], 0, [])

  function Emit(s: State, event: DriverEvent): State {
    s.(emitted := s.emitted + [event])
  }

  function Step(s: State, stimulus: Stimulus): State {
    if !s.running then s
    else match stimulus
      case Receive(PromptCommand(text), sendOk) =>
        if s.inFlight then s.(taken := s.taken + [Taken(text, Discarded)])
        else if sendOk then Emit(s.(inFlight := true, taken := s.taken + [Taken(text, Started)]), Status(Working))
        else s.(running := false, taken := s.taken + [Taken(text, SendFailed)])
      case Receive(CancelCommand, sendOk) => if sendOk then s.(cancels := s.cancels + 1) else s.(running := false)
      case HandleDropped => s.(running := false)
      case AgentText(text) => if s.inFlight then Emit(s, Update(text)) else s
      case AgentOther => s
      case AgentStopped(reason) =>
        if s.inFlight then Emit(Emit(s.(inFlight := false), Status(Idle)), StopReason(reason)) else s
      case AgentFailed => if s.inFlight then s.(running := false) else s
  }

  function Run(s: State, script: seq<Stimulus>): State {
    if script == [] then s else Step(Run(s, Front(script)), Last(script))
  }

  /** `run_command_loop` as it runs. */
  method RunCommandLoop(script: seq<Stimulus>)
    returns (taken: seq<Taken>, cancels: nat, emitted: seq<DriverEvent>, inFlight: bool, returned: bool)
    ensures State(inFlight, !returned, taken, cancels, emitted) == Run(START, script)
  {
    inFlight, returned, taken, cancels, emitted := false, false, [], 0, [];
    for i := 0 to |script|
      invariant State(inFlight, !returned, taken, cancels, emitted) == Run(START, script[..i])
    {
      SnocParts(script[..i], script[i]);
      assert script[..i + 1] == script[..i] + [script[i]];
      if !returned {
        match script[i]
        case Receive(PromptCommand(text), sendOk) =>
          if inFlight {
            taken := taken + [Taken(text, Discarded)];
          } else {
            taken := taken + [Taken(text, if sendOk then Started else SendFailed)];
            if sendOk {
              inFlight := true;
              emitted := emitted + [Status(Working)];
            } else {
              returned := true;
            }
          }
        case Receive(CancelCommand, sendOk) =>
          if sendOk { cancels := cancels + 1; } else { returned := true; }
        case HandleDropped => returned := true;
        case AgentText(text) => if inFlight { emitted := emitted + [Update(text)]; }
        case AgentOther =>
        case AgentStopped(reason) =>
          if inFlight {
            inFlight := false;
            emitted := emitted + [Status(Idle)];
            emitted := emitted + [StopReason(reason)];
          }
        case AgentFailed => if inFlight { returned := true; }
      }
    }
    assert script[..|script|] == script;
  }

  // ---------------------------------------------------------------------
  // The shape of the event stream
  // ---------------------------------------------------------------------

  datatype Phase = Between | InTurn | Ending | Broken

  /** The grammar (Working Update* Idle StopReason)*, as an automaton. */
  function PhaseAfter(event: DriverEvent, phase: Phase): Phase {
    match (phase, event)
    case (Between, Status(Working)) => InTurn
    case (InTurn, Update(_)) => InTurn
    case (InTurn, Status(Idle)) => Ending
    case (Ending, StopReason(_)) => Between
    case _ => Broken
  }

  function PhaseOf(events: seq<DriverEvent>): Phase {
    if events == [] then Between else PhaseAfter(Last(events), PhaseOf(Front(events)))
  }

  lemma PhaseSnoc(events: seq<DriverEvent>, event: DriverEvent)
    ensures PhaseOf(events + [event]) == PhaseAfter(event, PhaseOf(events))
  {
    SnocParts(events, event);
  }

  function Count(taken: seq<Taken>, fate: Fate): nat {
    if taken == [] then 0 else Count(Front(taken), fate) + if Last(taken).fate == fate then 1 else 0
  }

  ghost predicate WholeTurns(s: State) {
    && PhaseOf(s.emitted) == (if s.inFlight then InTurn else Between)
    && StopReasons(s.emitted) + (if s.inFlight then 1 else 0) == Count(s.taken, Started)
  }

  lemma StepKeepsTurns(s: State, stimulus: Stimulus)
    requires WholeTurns(s)
    ensures WholeTurns(Step(s, stimulus))
  {
    if s.running {
      match stimulus
      case Receive(PromptCommand(text), sendOk) =>
        SnocParts(s.taken, Taken(text, if s.inFlight then Discarded else if sendOk then Started else SendFailed));
        PhaseSnoc(s.emitted, Status(Working));
        StopReasonsConcat(s.emitted, [Status(Working)]);
      case AgentText(text) =>
        PhaseSnoc(s.emitted, Update(text));
        StopReasonsConcat(s.emitted, [Update(text)]);
      case AgentStopped(reason) =>
        PhaseSnoc(s.emitted, Status(Idle));
        PhaseSnoc(s.emitted + [Status(Idle)], StopReason(reason));
        SnocParts(s.emitted, Status(Idle));
        SnocParts(s.emitted + [Status(Idle)], StopReason(reason));
      case _ =>
    }
  }

  /** Every run emits well-bracketed turns, one per prompt sent to the agent;
      only the last one can be unfinished, exactly while a prompt is in flight. */
  lemma {:induction false} EmitsWholeTurns(script: seq<Stimulus>)
    ensures var s := Run(START, script);
            && PhaseOf(s.emitted) == (if s.inFlight then InTurn else Between)
            && StopReasons(s.emitted) + (if s.inFlight then 1 else 0) == Count(s.taken, Started)
  {
    if script != [] {
      EmitsWholeTurns(Front(script));
      StepKeepsTurns(Run(START, Front(script)), Last(script));
    }
  }

  // ---------------------------------------------------------------------
  // What the agent said to which prompt
  // ---------------------------------------------------------------------

  /** A prompt sent to the agent, and the agent's texts while it was in flight. */
  datatype Exchange = Exchange(prompt: string, texts: seq<string>)

  /** The exchanges so far, told from the commands taken and the agent's
      messages, not from the events emitted. */
  function ExchangesAfter(s: State, stimulus: Stimulus, exchanges: seq<Exchange>): seq<Exchange> {
    if !s.running then exchanges
    else match stimulus
      case Receive(PromptCommand(text), true) => if s.inFlight then exchanges else exchanges + [Exchange(text, [])]
      case AgentText(text) =>
        if !s.inFlight || exchanges == [] then exchanges
        else
          var last := Last(exchanges);
          Front(exchanges) + [last.(texts := last.texts + [text])]
      case _ => exchanges
  }

  /** The prompts sent to the agent, oldest first. */
  function StartedTexts(taken: seq<Taken>): seq<string> {
    if taken == [] then []
    else StartedTexts(Front(taken)) + if Last(taken).fate == Started then [Last(taken).text] else []
  }

  /** The turns of the event stream are the exchanges, in order. */
  ghost predicate Tells(s: State, exchanges: seq<Exchange>) {
    var turns := TurnsOf(s.emitted);
    && |exchanges| == |turns.closed| + (if s.inFlight then 1 else 0)
    && (forall k :: 0 <= k < |turns.closed| ==> exchanges[k].texts == turns.closed[k])
    && turns.open == (if s.inFlight then Last(exchanges).texts else [])
    && |StartedTexts(s.taken)| == |exchanges|
    && (forall k :: 0 <= k < |exchanges| ==> exchanges[k].prompt == StartedTexts(s.taken)[k])
  }

  lemma TurnsSnoc(events: seq<DriverEvent>, event: DriverEvent)
    ensures TurnsOf(events + [event]) == TurnsAfter(event, TurnsOf(events))
  {
    SnocParts(events, event);
  }

  lemma TakesPromptTells(s: State, text: string, sendOk: bool, exchanges: seq<Exchange>)
    requires s.running && Tells(s, exchanges)
    ensures var stimulus := Receive(PromptCommand(text), sendOk);
            Tells(Step(s, stimulus), ExchangesAfter(s, stimulus, exchanges))
  {
    hide TurnsOf;
    SnocParts(s.taken, Taken(text, if s.inFlight then Discarded else if sendOk then Started else SendFailed));
    TurnsSnoc(s.emitted, Status(Working));
    ConcatAssociates(StartedTexts(s.taken), [], []);
  }

  lemma AgentStopTells(s: State, reason: DriverStopReason, exchanges: seq<Exchange>)
    requires s.running && Tells(s, exchanges)
    ensures Tells(Step(s, AgentStopped(reason)), exchanges)
  {
    hide TurnsOf, StartedTexts;
    TurnsSnoc(s.emitted, Status(Idle));
    TurnsSnoc(s.emitted + [Status(Idle)], StopReason(reason));
  }

  lemma AgentTextTells(s: State, text: string, exchanges: seq<Exchange>)
    requires s.running && Tells(s, exchanges)
    ensures Tells(Step(s, AgentText(text)), ExchangesAfter(s, AgentText(text), exchanges))
  {
    hide TurnsOf, StartedTexts;
    TurnsSnoc(s.emitted, Update(text));
  }

  lemma QuietTells(s: State, stimulus: Stimulus, exchanges: seq<Exchange>)
    requires s.running && Tells(s, exchanges)
    requires !stimulus.AgentText? && !stimulus.AgentStopped? && !(stimulus.Receive? && stimulus.command.PromptCommand?)
    ensures Tells(Step(s, stimulus), exchanges) && ExchangesAfter(s, stimulus, exchanges) == exchanges
  {
    hide TurnsOf, StartedTexts;
  }

  /** Every step keeps the exchanges told: each closed turn is what the agent said
      to one prompt sent to it, in order, and the open one is the turn in flight. */
  lemma StepTells(s: State, stimulus: Stimulus, exchanges: seq<Exchange>)
    requires Tells(s, exchanges)
    ensures Tells(Step(s, stimulus), ExchangesAfter(s, stimulus, exchanges))
  {
    hide Tells;
    if s.running {
      match stimulus
      case Receive(PromptCommand(text), sendOk) => TakesPromptTells(s, text, sendOk, exchanges);
      case AgentText(text) => AgentTextTells(s, text, exchanges);
      case AgentStopped(reason) => AgentStopTells(s, reason, exchanges);
      case _ => QuietTells(s, stimulus, exchanges);
    }
  }

  // ---------------------------------------------------------------------
  // When the loop returns, and what it did until then
  // ---------------------------------------------------------------------

  /** The loop has a reason to return: its handle was dropped, a prompt it took
      while idle or a cancel could not be sent, or the agent failed while a
      prompt was unanswered. Told from the stimuli alone. */
  predicate Ended(script: seq<Stimulus>)
    decreases |script|, 0
  {
    && script != []
    && (|| Ended(Front(script))
        || match Last(script)
           case HandleDropped => true
           case Receive(PromptCommand(_), sendOk) => !sendOk && !Unanswered(Front(script))
           case Receive(CancelCommand, sendOk) => !sendOk
           case AgentFailed => Unanswered(Front(script))
           case _ => false)
  }

  /** A prompt was sent to the agent and no stop reason has been read since. */
  predicate Unanswered(script: seq<Stimulus>)
    decreases |script|, 1
  {
    && script != []
    && (if Ended(Front(script)) then Unanswered(Front(script))
        else match Last(script)
          case Receive(PromptCommand(_), sendOk) => sendOk || Unanswered(Front(script))
          case AgentStopped(_) => false
          case _ => Unanswered(Front(script)))
  }

  /** The cancels passed on to the agent before the loop ended. */
  function CancelsSent(script: seq<Stimulus>): nat {
    if script == [] then 0
    else
      CancelsSent(Front(script))
      + if !Ended(Front(script)) && Last(script) == Receive(CancelCommand, true) then 1 else 0
  }

  /** What became of a prompt: discarded if an earlier one was unanswered. */
  function FateDue(unanswered: bool, last: Stimulus): seq<Taken> {
    match last
    case Receive(PromptCommand(text), sendOk) =>
      [Taken(text, if unanswered then Discarded else if sendOk then Started else SendFailed)]
    case _ => []
  }

  function FatesDue(script: seq<Stimulus>): seq<Taken> {
    if script == [] then []
    else
      FatesDue(Front(script))
      + if Ended(Front(script)) then [] else FateDue(Unanswered(Front(script)), Last(script))
  }

  /** `Working` when a prompt is started, its texts while it is unanswered, and
      `Idle` with the agent's own stop reason when it is answered. */
  function EventDue(unanswered: bool, last: Stimulus): seq<DriverEvent> {
    match last
    case Receive(PromptCommand(_), sendOk) => if sendOk && !unanswered then [Status(Working)] else []
    case AgentText(text) => if unanswered then [Update(text)] else []
    case AgentStopped(reason) => if unanswered then [Status(Idle)] + [StopReason(reason)] else []
    case _ => []
  }

  function EventsDue(script: seq<Stimulus>): seq<DriverEvent> {
    if script == [] then []
    else
      EventsDue(Front(script))
      + if Ended(Front(script)) then [] else EventDue(Unanswered(Front(script)), Last(script))
  }

  /** What one step adds. */
  lemma StepAdds(s: State, last: Stimulus)
    requires s.running
    ensures var t := Step(s, last);
            t.taken == s.taken + FateDue(s.inFlight, last) && t.emitted == s.emitted + EventDue(s.inFlight, last)
  {
    ConcatAssociates(s.taken, [], []);
    ConcatAssociates(s.emitted, [], []);
    if last.AgentStopped? {
      ConcatAssociates(s.emitted, [Status(Idle)], [StopReason(last.reason)]);
    }
  }

  lemma ReturnedStays(s: State, last: Stimulus)
    ensures !s.running ==> Step(s, last) == s
  {
  }

  lemma {:induction false} LoopEnds(script: seq<Stimulus>)
    ensures var s := Run(START, script);
            && (s.running <==> !Ended(script)) && (s.inFlight <==> Unanswered(script))
            && s.cancels == CancelsSent(script)
  {
    if script != [] {
      LoopEnds(Front(script));
    }
  }

  /** Over every run: the loop is still there exactly until it has a reason to
      return, a prompt is in flight exactly while one is unanswered, and the
      cancels, the fates and the events are those the stimuli call for. */
  lemma {:induction false} LoopFollowsHistory(script: seq<Stimulus>)
    ensures var s := Run(START, script);
            && (s.running <==> !Ended(script))
            && (s.inFlight <==> Unanswered(script))
            && s.cancels == CancelsSent(script)
            && s.taken == FatesDue(script)
            && s.emitted == EventsDue(script)
  {
    hide FateDue, EventDue, Ended, Unanswered, CancelsSent, Step;
    LoopEnds(script);
    if script != [] {
      var s := Run(START, Front(script));
      LoopFollowsHistory(Front(script));
      ConcatAssociates(s.taken, [], []);
      ConcatAssociates(s.emitted, [], []);
      if s.running {
        StepAdds(s, Last(script));
      } else {
        ReturnedStays(s, Last(script));
      }
    }
  }
}
