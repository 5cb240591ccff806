/** One session from the prompts that arrive to the frames that leave: the manager
    and the ACP command loop on one side, the event channel and the connections
    on the other, sharing the manager. */
module EndToEnd {
  import opened Common
  import opened DriverEvents
  import Acp
  import AgentSpeech
  import Coalescing
  import DeliveryPipeline
  import Manager
  import TurnIds
  import TurnPipeline
  import WireLoop
  import WireTheorems

  /** Either side taking a step, or a prompt coming in over the connection: its id
      is noted there as its text reaches the manager. */
  datatype Action =
    | TurnSide(turn: TurnPipeline.Action)
    | WireSide(wire: DeliveryPipeline.Action)
    | PromptComes(id: string, text: string)

  /** What each side of the manager has been through. */
  datatype Histories = Histories(turns: seq<TurnPipeline.Action>, wires: seq<DeliveryPipeline.Action>)

  /** Accepting a prompt is the one thing the two sides do together. */
  predicate AcceptsPrompt(name: string, wire: DeliveryPipeline.Action) {
    && wire.WireActs? && wire.traffic.InPrompt?
    && wire.traffic.session == name && wire.traffic.delivery == WireLoop.Delivered
  }

  /** What the wire side sees of a prompt: the manager takes it, the id is kept. */
  function PromptSteps(name: string, h: Histories, id: string, text: string): seq<DeliveryPipeline.Action> {
    [DeliveryPipeline.ManagerActs(Manager.Prompt(text, TurnPipeline.Run(h.turns).acp.running))]
    + [DeliveryPipeline.WireActs(WireLoop.InPrompt(id, name, WireLoop.Delivered, true))]
  }

  /** A step of the turn side is seen by the wire side as what its manager did,
      and a connection's question is put to the manager both sides share. */
  function Step(name: string, h: Histories, action: Action): Histories {
    match action
    case TurnSide(turn) =>
      if turn.PromptArrives? then h
      else
        var input := TurnPipeline.ManagerInput(TurnPipeline.Run(h.turns), turn);
        Histories(h.turns + [turn], h.wires + if input.Some? then [DeliveryPipeline.ManagerActs(input.value)] else [])
    case WireSide(wire) =>
      if wire.ManagerActs? || AcceptsPrompt(name, wire) then h
      else
        var asks := wire.AskBlocked? && DeliveryPipeline.Asks(DeliveryPipeline.Run(name, h.wires));
        Histories(h.turns + if asks then [TurnPipeline.QueryArrives(Manager.IsBlocked)] else [], h.wires + [wire])
    case PromptComes(id, text) =>
      if !DeliveryPipeline.Live(DeliveryPipeline.Run(name, h.wires)) then h
      else Histories(h.turns + [TurnPipeline.PromptArrives(text)], h.wires + PromptSteps(name, h, id, text))
  }

  function Run(name: string, actions: seq<Action>): Histories {
    if actions == [] then Histories([], []) else Step(name, Run(name, Front(actions)), Last(actions))
  }

  ghost predicate Agree(name: string, h: Histories) {
    TurnPipeline.Run(h.turns).manager == DeliveryPipeline.Run(name, h.wires).manager
  }

  lemma TurnSideAgrees(name: string, h: Histories, turn: TurnPipeline.Action)
    requires Agree(name, h) && !turn.PromptArrives?
    ensures Agree(name, Step(name, h, TurnSide(turn)))
  {
    hide TurnPipeline.Step, TurnPipeline.Run, DeliveryPipeline.Step, DeliveryPipeline.Run, Manager.Step;
    ConcatAssociates(h.wires, [], []);
    var p, d := TurnPipeline.Run(h.turns), DeliveryPipeline.Run(name, h.wires);
    TurnPipeline.RunSnoc(h.turns, turn);
    TurnPipeline.StepMovesManager(p, turn);
    var input := TurnPipeline.ManagerInput(p, turn);
    if input.Some? {
      DeliveryPipeline.RunSnoc(name, h.wires, DeliveryPipeline.ManagerActs(input.value));
      DeliveryPipeline.StepMovesManager(name, d, DeliveryPipeline.ManagerActs(input.value));
    }
  }

  lemma WireSideAgrees(name: string, h: Histories, wire: DeliveryPipeline.Action)
    requires Agree(name, h) && !wire.ManagerActs?
    ensures Agree(name, Step(name, h, WireSide(wire)))
  {
    hide TurnPipeline.Step, TurnPipeline.Run, DeliveryPipeline.Step, DeliveryPipeline.Run, Manager.Step;
    ConcatAssociates(h.turns, [], []);
    DeliveryPipeline.RunSnoc(name, h.wires, wire);
    DeliveryPipeline.StepMovesManager(name, DeliveryPipeline.Run(name, h.wires), wire);
    TurnPipeline.RunSnoc(h.turns, TurnPipeline.QueryArrives(Manager.IsBlocked));
    TurnPipeline.StepMovesManager(TurnPipeline.Run(h.turns), TurnPipeline.QueryArrives(Manager.IsBlocked));
  }

  /** The wire side after a prompt has come. */
  lemma PromptMoves(name: string, h: Histories, id: string, text: string)
    requires DeliveryPipeline.Live(DeliveryPipeline.Run(name, h.wires))
    ensures var d := DeliveryPipeline.Run(name, h.wires);
            var told := DeliveryPipeline.ManagerActs(Manager.Prompt(text, TurnPipeline.Run(h.turns).acp.running));
            var noted := DeliveryPipeline.WireActs(WireLoop.InPrompt(id, name, WireLoop.Delivered, true));
            DeliveryPipeline.Run(name, Step(name, h, PromptComes(id, text)).wires)
            == DeliveryPipeline.Step(name, DeliveryPipeline.Step(name, d, told), noted)
  {
    hide DeliveryPipeline.Step, DeliveryPipeline.Run, TurnPipeline.Run;
    var told := DeliveryPipeline.ManagerActs(Manager.Prompt(text, TurnPipeline.Run(h.turns).acp.running));
    var noted := DeliveryPipeline.WireActs(WireLoop.InPrompt(id, name, WireLoop.Delivered, true));
    ConcatAssociates(h.wires, [told], [noted]);
    DeliveryPipeline.RunSnoc(name, h.wires, told);
    DeliveryPipeline.RunSnoc(name, h.wires + [told], noted);
  }

  lemma PromptAgrees(name: string, h: Histories, id: string, text: string)
    requires Agree(name, h)
    ensures Agree(name, Step(name, h, PromptComes(id, text)))
  {
    hide TurnPipeline.Step, TurnPipeline.Run, DeliveryPipeline.Step, DeliveryPipeline.Run, Manager.Step;
    var p, d := TurnPipeline.Run(h.turns), DeliveryPipeline.Run(name, h.wires);
    if DeliveryPipeline.Live(d) {
      var told := DeliveryPipeline.ManagerActs(Manager.Prompt(text, p.acp.running));
      var noted := DeliveryPipeline.WireActs(WireLoop.InPrompt(id, name, WireLoop.Delivered, true));
      PromptMoves(name, h, id, text);
      TurnPipeline.RunSnoc(h.turns, TurnPipeline.PromptArrives(text));
      TurnPipeline.StepMovesManager(p, TurnPipeline.PromptArrives(text));
      DeliveryPipeline.StepMovesManager(name, d, told);
      DeliveryPipeline.StepMovesManager(name, DeliveryPipeline.Step(name, d, told), noted);
    }
  }

  lemma StepAgrees(name: string, h: Histories, action: Action)
    requires Agree(name, h)
    ensures Agree(name, Step(name, h, action))
  {
    hide Agree;
    match action
    case TurnSide(turn) => if !turn.PromptArrives? { TurnSideAgrees(name, h, turn); }
    case WireSide(wire) => if !wire.ManagerActs? { WireSideAgrees(name, h, wire); }
    case PromptComes(id, text) => PromptAgrees(name, h, id, text);
  }

  /** Both sides see the same manager, at every step of every run. */
  lemma {:induction false} ManagersAgree(name: string, actions: seq<Action>)
    ensures Agree(name, Run(name, actions))
  {
    if actions != [] {
      hide Agree, Step;
      ManagersAgree(name, Front(actions));
      StepAgrees(name, Run(name, Front(actions)), Last(actions));
    } else {
      assert TurnPipeline.Run([]) == TurnPipeline.START && DeliveryPipeline.Run(name, []) == DeliveryPipeline.START;
    }
  }

  // ---------------------------------------------------------------------
  // Turns of a stream and of its parts
  // ---------------------------------------------------------------------

  /** Reading on where `first` left off. */
  function Continue(first: Turns, second: Turns): Turns {
    if second.closed == [] then Turns(first.closed, first.open + second.open)
    else Turns(first.closed + [first.open + second.closed[0]] + second.closed[1..], second.open)
  }

  lemma ContinueAfter(first: Turns, second: Turns, event: DriverEvent)
    ensures Continue(first, TurnsAfter(event, second)) == TurnsAfter(event, Continue(first, second))
  {
    match event
    case Update(text) => ConcatAssociates(first.open, second.open, [text]);
    case StopReason(_) =>
      if second.closed == [] {
        assert ([second.open])[1..] == [];
        ConcatAssociates(first.closed + [first.open + second.open], [], []);
      } else {
        assert (second.closed + [second.open])[1..] == second.closed[1..] + [second.open];
        ConcatAssociates(first.closed + [first.open + second.closed[0]], second.closed[1..], [second.open]);
      }
    case Status(_) =>
  }

  lemma ContinueNothing(turns: Turns)
    ensures TurnsOf([]) == NO_TURNS && Continue(turns, NO_TURNS) == turns
  {
    ConcatAssociates(turns.open, [], []);
  }

  lemma {:induction false} TurnsConcat(first: seq<DriverEvent>, second: seq<DriverEvent>)
    ensures TurnsOf(first + second) == Continue(TurnsOf(first), TurnsOf(second))
  {
    hide Continue, TurnsOf;
    if second == [] {
      ConcatAssociates(first, [], []);
      ContinueNothing(TurnsOf(first));
    } else {
      var front, last := Front(second), Last(second);
      TurnsConcat(first, front);
      ConcatAssociates(first, front, [last]);
      assert second == front + [last];
      Acp.TurnsSnoc(first + front, last);
      Acp.TurnsSnoc(front, last);
      ContinueAfter(TurnsOf(first), TurnsOf(front), last);
    }
  }

  lemma PrecedesItself(turns: Turns)
    ensures WireTheorems.Precedes(turns, turns)
  {
  }

  lemma {:induction false} PrefixPrecedes(first: seq<DriverEvent>, second: seq<DriverEvent>)
    ensures WireTheorems.Precedes(TurnsOf(first), TurnsOf(first + second))
  {
    hide TurnsOf, TurnsAfter, WireTheorems.Precedes;
    if second == [] {
      ConcatAssociates(first, [], []);
      PrecedesItself(TurnsOf(first));
    } else {
      var front, last := Front(second), Last(second);
      PrefixPrecedes(first, front);
      ConcatAssociates(first, front, [last]);
      assert second == front + [last];
      Acp.TurnsSnoc(first + front, last);
      WireTheorems.CutStaysCut(TurnsOf(first), TurnsOf(first + front), last);
    }
  }

  /** Whatever the connection's fate, what it sent is a cut of what it took. */
  lemma SentPrecedes(s: WireLoop.State, name: string, turns: Turns)
    requires WireTheorems.Refines(s, name, turns)
    ensures WireTheorems.Precedes(WireTheorems.TurnsSent(s.sent, name), turns)
  {
    hide WireTheorems.TurnsSent;
  }

  /** The closed turns of a cut, and how far its open one goes. */
  lemma CutMeans(cut: Turns, whole: Turns, k: nat)
    requires WireTheorems.Precedes(cut, whole)
    ensures |cut.closed| <= |whole.closed|
    ensures k < |cut.closed| ==> cut.closed[k] == whole.closed[k]
    ensures cut.open <= if |cut.closed| < |whole.closed| then whole.closed[|cut.closed|] else whole.open
  {
  }

  // ---------------------------------------------------------------------
  // The theorem
  // ---------------------------------------------------------------------

  /** All a connection took, read on from what earlier ones took, is a cut of what
      the agent's side emitted. */
  lemma TakenPrecedesEmitted(name: string, actions: seq<Action>)
    requires DeliveryPipeline.Run(name, Run(name, actions).wires).link.Some?
    ensures var h := Run(name, actions);
            var p, d := TurnPipeline.Run(h.turns), DeliveryPipeline.Run(name, h.wires);
            var took := TurnsOf(d.link.value.handled);
            && WireTheorems.Precedes(Continue(TurnsOf(d.earlier), took), TurnsOf(p.acp.emitted))
            && WireTheorems.Precedes(WireTheorems.TurnsSent(d.link.value.wire.sent, name), took)
  {
    var h := Run(name, actions);
    hide Continue, TurnsOf, WireTheorems.Precedes, WireTheorems.Refines, WireTheorems.TurnsSent, WireTheorems.Announced;
    hide TurnPipeline.Run, DeliveryPipeline.Run, Run;
    var p, d := TurnPipeline.Run(h.turns), DeliveryPipeline.Run(name, h.wires);
    ManagersAgree(name, actions);
    TurnPipeline.PromptsKeepTheirOrder(h.turns);
    DeliveryPipeline.EventsReachConnectionsInOrder(name, h.wires);
    var took := d.earlier + d.link.value.handled;
    ConcatAssociates(took, d.channel, p.events);
    PrefixPrecedes(took, d.channel + p.events);
    TurnsConcat(d.earlier, d.link.value.handled);
    SentPrecedes(d.link.value.wire, name, TurnsOf(d.link.value.handled));
  }

  /** What the turns of one connection mean: what the agent sent for each. */
  ghost predicate Delivers(sent: Turns, earlier: Turns, speeches: seq<AgentSpeech.Speech>) {
    && |earlier.closed| + |sent.closed| <= |speeches|
    && (forall k :: 0 <= k < |sent.closed| ==>
          (if k == 0 then earlier.open else []) + sent.closed[k]
          == AgentSpeech.Whole(speeches[|earlier.closed| + k]))
  }

  lemma CutDelivers(sent: Turns, taken: Turns, earlier: Turns, emitted: Turns, speeches: seq<AgentSpeech.Speech>)
    requires WireTheorems.Precedes(sent, taken) && WireTheorems.Precedes(Continue(earlier, taken), emitted)
    requires |emitted.closed| <= |speeches|
    requires forall k :: 0 <= k < |emitted.closed| ==> AgentSpeech.Whole(speeches[k]) == emitted.closed[k]
    ensures Delivers(sent, earlier, speeches)
  {
    hide WireTheorems.Precedes, AgentSpeech.Whole;
    var whole := Continue(earlier, taken);
    CutMeans(sent, taken, 0);
    CutMeans(whole, emitted, 0);
    forall k | 0 <= k < |sent.closed|
      ensures (if k == 0 then earlier.open else []) + sent.closed[k]
              == AgentSpeech.Whole(speeches[|earlier.closed| + k])
    {
      CutMeans(sent, taken, k);
      CutMeans(whole, emitted, |earlier.closed| + k);
      ConcatAssociates([], [], sent.closed[k]);
    }
  }

  /** The turns the loop closed are what the agent sent, turn by turn. */
  lemma EmittedIsSpoken(turns: seq<TurnPipeline.Action>)
    ensures var emitted, speeches := TurnsOf(TurnPipeline.Run(turns).acp.emitted), AgentSpeech.Spoken(turns).speeches;
            && |emitted.closed| <= |speeches| == |TurnPipeline.Exchanges(turns)|
            && (forall k :: 0 <= k < |emitted.closed| ==> AgentSpeech.Whole(speeches[k]) == emitted.closed[k])
            && (forall k :: 0 <= k < |speeches| ==> speeches[k].prompt == TurnPipeline.Exchanges(turns)[k].prompt)
  {
    hide TurnsOf, TurnPipeline.Run, TurnPipeline.Exchanges, AgentSpeech.Spoken, AgentSpeech.Waits;
    TurnPipeline.ExchangesAreTurns(turns);
    AgentSpeech.AlwaysMatches(turns);
  }

  /** From prompt to frame. On any connection, live or broken off, each turn that a
      `done` frame closes is exactly what the agent sent for one prompt, in order,
      starting where the connections before it left off: the first one closed may
      have begun on an earlier connection. Until a turn is first cleared by force,
      those prompts are the ones that arrived, in order, with none skipped. */
  lemma PromptsAreAnsweredInOrder(name: string, actions: seq<Action>)
    requires DeliveryPipeline.Run(name, Run(name, actions).wires).link.Some?
    ensures var h := Run(name, actions);
            var d := DeliveryPipeline.Run(name, h.wires);
            var speeches, arrived := AgentSpeech.Spoken(h.turns).speeches, TurnPipeline.Arrivals(h.turns);
            && Delivers(WireTheorems.TurnsSent(d.link.value.wire.sent, name), TurnsOf(d.earlier), speeches)
            && (TurnPipeline.Run(h.turns).forcedClears == 0 ==>
                  |speeches| <= |arrived| && forall k :: 0 <= k < |speeches| ==> speeches[k].prompt == arrived[k])
  {
    var h := Run(name, actions);
    hide Run, Delivers, Continue, TurnsOf, WireTheorems.Precedes, WireTheorems.TurnsSent, AgentSpeech.Whole;
    hide TurnPipeline.Run, TurnPipeline.Exchanges, DeliveryPipeline.Run, AgentSpeech.Spoken;
    var p, d := TurnPipeline.Run(h.turns), DeliveryPipeline.Run(name, h.wires);
    TakenPrecedesEmitted(name, actions);
    EmittedIsSpoken(h.turns);
    CutDelivers(WireTheorems.TurnsSent(d.link.value.wire.sent, name), TurnsOf(d.link.value.handled),
                TurnsOf(d.earlier), TurnsOf(p.acp.emitted), AgentSpeech.Spoken(h.turns).speeches);
    if p.forcedClears == 0 {
      TurnPipeline.ExchangesFollowArrivals(h.turns);
    }
  }

  /** On the first connection, before any forced clear: the k-th turn closed on the
      wire is what the agent sent for the k-th prompt that arrived, which is its
      answer alone iff it had sent nothing unasked before that prompt. */
  lemma KthTurnAnswersKthPrompt(name: string, actions: seq<Action>, k: nat)
    requires DeliveryPipeline.Run(name, Run(name, actions).wires).link.Some?
    requires DeliveryPipeline.Run(name, Run(name, actions).wires).earlier == []
    requires TurnPipeline.Run(Run(name, actions).turns).forcedClears == 0
    ensures var h := Run(name, actions);
            var sent := WireTheorems.TurnsSent(DeliveryPipeline.Run(name, h.wires).link.value.wire.sent, name);
            var speeches, arrived := AgentSpeech.Spoken(h.turns).speeches, TurnPipeline.Arrivals(h.turns);
            k < |sent.closed| ==>
              && k < |speeches| <= |arrived| && speeches[k].prompt == arrived[k]
              && sent.closed[k] == speeches[k].before + speeches[k].during
              && (sent.closed[k] == speeches[k].during <==> speeches[k].before == [])
  {
    hide Run, WireTheorems.TurnsSent, TurnPipeline.Run, AgentSpeech.Spoken, DeliveryPipeline.Run, TurnPipeline.Arrivals;
    PromptsAreAnsweredInOrder(name, actions);
    ContinueNothing(NO_TURNS);
    var h := Run(name, actions);
    var sent := WireTheorems.TurnsSent(DeliveryPipeline.Run(name, h.wires).link.value.wire.sent, name);
    if k < |sent.closed| {
      var speech := AgentSpeech.Spoken(h.turns).speeches[k];
      ConcatAssociates([], [], sent.closed[k]);
      ConcatAssociates([], [], speech.during);
      assert |speech.before + speech.during| == |speech.before| + |speech.during|;
    }
  }

  // ---------------------------------------------------------------------
  // Ids
  // ---------------------------------------------------------------------

  predicate Accepts(name: string, before: seq<Action>, action: Action) {
    action.PromptComes? && DeliveryPipeline.Live(DeliveryPipeline.Run(name, Run(name, before).wires))
  }

  /** The ids and the texts of the prompts accepted over the connections. */
  function PromptIds(name: string, actions: seq<Action>): seq<string> {
    if actions == [] then []
    else
      PromptIds(name, Front(actions)) + if Accepts(name, Front(actions), Last(actions)) then [Last(actions).id] else []
  }

  /** Every prompt was sent after the stop reason of the turn before was taken. */
  predicate OneAtATime(name: string, actions: seq<Action>) {
    actions == []
    || (&& OneAtATime(name, Front(actions))
        && (Accepts(name, Front(actions), Last(actions)) ==>
              StopReasons(DeliveryPipeline.Handled(DeliveryPipeline.Run(name, Run(name, Front(actions)).wires)))
              == |PromptIds(name, Front(actions))|))
  }

  /** The run so far has at most one connection. */
  predicate NoReconnect(actions: seq<Action>) {
    forall i :: 0 <= i < |actions| ==> actions[i] != WireSide(DeliveryPipeline.Disconnect)
  }

  lemma ArrivesOnce(name: string, h: Histories, action: Action)
    ensures |TurnPipeline.Arrivals(Step(name, h, action).turns)|
            == |TurnPipeline.Arrivals(h.turns)|
               + if action.PromptComes? && DeliveryPipeline.Live(DeliveryPipeline.Run(name, h.wires)) then 1 else 0
  {
    hide TurnPipeline.Run, DeliveryPipeline.Run;
    ConcatAssociates(h.turns, [], []);
    var t := Step(name, h, action);
    if t.turns != h.turns {
      SnocParts(h.turns, Last(t.turns));
    }
  }

  /** Prompts come in over connections alone, each with its id. */
  lemma {:induction false} OneIdPerArrival(name: string, actions: seq<Action>)
    ensures |PromptIds(name, actions)| == |TurnPipeline.Arrivals(Run(name, actions).turns)|
  {
    if actions != [] {
      OneIdPerArrival(name, Front(actions));
      ArrivesOnce(name, Run(name, Front(actions)), Last(actions));
    }
  }

  lemma ClearsGrow(p: TurnPipeline.State, turn: TurnPipeline.Action)
    ensures p.forcedClears <= TurnPipeline.Step(p, turn).forcedClears
  {
    hide Manager.Step, Acp.Step;
  }

  lemma TurnsGrowByOne(name: string, h: Histories, action: Action)
    ensures var turns := Step(name, h, action).turns;
            turns == h.turns || (turns != [] && turns == h.turns + [Last(turns)])
  {
    hide DeliveryPipeline.Run, TurnPipeline.Run, TurnPipeline.ManagerInput, PromptSteps, DeliveryPipeline.Live;
    ConcatAssociates(h.turns, [], []);
  }

  lemma ForcedClearsStay(name: string, h: Histories, action: Action)
    ensures TurnPipeline.Run(h.turns).forcedClears <= TurnPipeline.Run(Step(name, h, action).turns).forcedClears
  {
    hide Step, TurnPipeline.Run, TurnPipeline.Step;
    TurnsGrowByOne(name, h, action);
    var turns := Step(name, h, action).turns;
    if turns != h.turns {
      TurnPipeline.RunSnoc(h.turns, Last(turns));
      ClearsGrow(TurnPipeline.Run(h.turns), Last(turns));
    }
  }

  /** Before a forced clear, nothing reaches a connection that no prompt accounts
      for: as many prompts have come as turns were begun in what it may take. */
  lemma EventsNeedPrompts(name: string, actions: seq<Action>, events: seq<DriverEvent>, rest: seq<DriverEvent>)
    requires TurnPipeline.Run(Run(name, actions).turns).forcedClears == 0
    requires TurnPipeline.Run(Run(name, actions).turns).acp.emitted == events + rest
    ensures |TurnsOf(events).closed| + (if TurnsOf(events).open != [] then 1 else 0) <= |PromptIds(name, actions)|
  {
    hide TurnsOf, TurnPipeline.Run, Run, TurnPipeline.Exchanges, PromptIds;
    var turns := Run(name, actions).turns;
    OneIdPerArrival(name, actions);
    PrefixPrecedes(events, rest);
    TurnPipeline.ExchangesAreTurns(turns);
    TurnPipeline.ExchangesFollowArrivals(turns);
  }

  /** What a first connection's frames, and its memory, have to do with the
      prompts that came. */
  ghost predicate Numbered(name: string, d: DeliveryPipeline.State, ids: seq<string>) {
    && d.earlier == []
    && (d.link.None? ==> ids == [])
    && (d.link.Some? ==>
          && Coalescing.WellFormed(d.link.value.wire.pending, WireLoop.MAX_BYTES)
          && TurnIds.Indexed(d.link.value.wire.sent, name, ids)
          && (d.link.value.wire.exit == WireLoop.Running ==>
                && |ids| <= WireTheorems.DoneFrames(d.link.value.wire.sent, name) + 1
                && WireTheorems.Remembers(d.link.value.wire, name,
                     TurnIds.Current(ids, WireTheorems.DoneFrames(d.link.value.wire.sent, name)))))
  }

  /** While the connection is up, its `done` frames count the stop reasons taken,
      and what it buffers belongs to the turn it has begun to take. */
  lemma DoneFramesCountStops(name: string, wires: seq<DeliveryPipeline.Action>)
    requires DeliveryPipeline.Run(name, wires).link.Some?
    requires DeliveryPipeline.Run(name, wires).link.value.wire.exit == WireLoop.Running
    ensures var link := DeliveryPipeline.Run(name, wires).link.value;
            && WireTheorems.DoneFrames(link.wire.sent, name) == StopReasons(link.handled)
            && WireTheorems.DoneFrames(link.wire.sent, name) == |TurnsOf(link.handled).closed|
            && (Coalescing.Buffered(link.wire.pending, name) != [] ==> TurnsOf(link.handled).open != [])
  {
    hide DeliveryPipeline.Run, TurnsOf, WireTheorems.TurnsSent, WireTheorems.DoneFrames, Coalescing.Buffered;
    var link := DeliveryPipeline.Run(name, wires).link.value;
    DeliveryPipeline.EventsReachConnectionsInOrder(name, wires);
    WireTheorems.DoneFramesCloseTurns(link.wire.sent, name);
    ClosedTurnsCountStopReasons(link.handled);
  }

  /** A step of the loop keeps the frames numbered, when it says nothing that no
      prompt accounts for and accepts no prompt of this session. */
  lemma WireStepNumbered(name: string, d: DeliveryPipeline.State, stimulus: WireLoop.Stimulus, ids: seq<string>,
                         e: DeliveryPipeline.State)
    requires Numbered(name, d, ids) && DeliveryPipeline.Live(d)
    requires e.earlier == d.earlier && e.link.Some? && e.link.value.wire == WireLoop.Step(d.link.value.wire, stimulus)
    requires var done := WireTheorems.DoneFrames(d.link.value.wire.sent, name);
             && (TurnIds.Speaks(d.link.value.wire, stimulus, name) ==> done < |ids|)
             && (e.link.value.wire.exit == WireLoop.Running ==>
                   WireTheorems.DoneFrames(e.link.value.wire.sent, name)
                   == done + if stimulus.Event? && stimulus.session == name && stimulus.event.StopReason? then 1 else 0)
    requires !AcceptsPrompt(name, DeliveryPipeline.WireActs(stimulus))
    ensures Numbered(name, e, ids)
  {
    hide WireLoop.Step, WireTheorems.DoneFrames;
    var s := d.link.value.wire;
    TurnIds.StepIndexed(s, stimulus, name, ids);
    WireTheorems.StepKeepsWellFormed(s, stimulus);
    WireTheorems.StepRemembers(s, stimulus, name, TurnIds.Current(ids, WireTheorems.DoneFrames(s.sent, name)));
  }

  /** The next event in the channel is accounted for by a prompt, unless it is a
      status; and so is whatever was taken already. */
  lemma NextEventNeedsPrompts(name: string, actions: seq<Action>)
    requires var d := DeliveryPipeline.Run(name, Run(name, actions).wires);
             d.link.Some? && d.earlier == []
    requires TurnPipeline.Run(Run(name, actions).turns).forcedClears == 0
    ensures var d := DeliveryPipeline.Run(name, Run(name, actions).wires);
            var taken := TurnsOf(d.link.value.handled);
            && |taken.closed| + (if taken.open != [] then 1 else 0) <= |PromptIds(name, actions)|
            && (d.channel != [] && !d.channel[0].Status? ==> |taken.closed| < |PromptIds(name, actions)|)
  {
    hide TurnPipeline.Run, DeliveryPipeline.Run, TurnsOf, PromptIds, Run, WireTheorems.Refines;
    var h := Run(name, actions);
    var p, d := TurnPipeline.Run(h.turns), DeliveryPipeline.Run(name, h.wires);
    ManagersAgree(name, actions);
    TurnPipeline.PromptsKeepTheirOrder(h.turns);
    DeliveryPipeline.EventsReachConnectionsInOrder(name, h.wires);
    var handled := d.link.value.handled;
    ConcatAssociates([], handled, d.channel);
    ConcatAssociates(handled, d.channel, p.events);
    assert [] + handled == handled;
    EventsNeedPrompts(name, actions, handled, d.channel + p.events);
    if d.channel != [] {
      DeliveryPipeline.HandOn([], handled, d.channel);
      assert [] + (handled + [d.channel[0]]) == handled + [d.channel[0]];
      ConcatAssociates(handled + [d.channel[0]], d.channel[1..], p.events);
      EventsNeedPrompts(name, actions, handled + [d.channel[0]], d.channel[1..] + p.events);
      Acp.TurnsSnoc(handled, d.channel[0]);
    }
  }

  lemma FirstConnection(name: string, d: DeliveryPipeline.State, ids: seq<string>)
    requires Numbered(name, d, ids)
    ensures d.earlier == [] && (d.link.None? ==> ids == [])
  {
  }

  lemma StopsSnoc(events: seq<DriverEvent>, event: DriverEvent)
    ensures StopReasons(events + [event]) == StopReasons(events) + if event.StopReason? then 1 else 0
  {
    SnocParts(events, event);
  }

  /** Taking one of the session's own events. */
  lemma TakeEventNumbered(name: string, actions: seq<Action>, now: nat, sendOk: bool, ids: seq<string>)
    requires var d := DeliveryPipeline.Run(name, Run(name, actions).wires);
             Numbered(name, d, ids) && DeliveryPipeline.Live(d) && d.channel != []
    requires TurnPipeline.Run(Run(name, actions).turns).forcedClears == 0 && ids == PromptIds(name, actions)
    ensures var take := DeliveryPipeline.TakeEvent(now, sendOk);
            Numbered(name, DeliveryPipeline.Run(name, Run(name, actions).wires + [take]), ids)
  {
    hide Numbered, TurnPipeline.Run, DeliveryPipeline.Run, TurnsOf, PromptIds, Run, WireLoop.Step, TurnIds.Current;
    hide WireTheorems.DoneFrames, WireTheorems.Refines, WireTheorems.TurnsSent, StopReasons;
    var h := Run(name, actions);
    var p, d := TurnPipeline.Run(h.turns), DeliveryPipeline.Run(name, h.wires);
    var take := DeliveryPipeline.TakeEvent(now, sendOk);
    var e := DeliveryPipeline.Run(name, h.wires + [take]);
    DeliveryPipeline.RunSnoc(name, h.wires, take);
    FirstConnection(name, d, ids);
    NextEventNeedsPrompts(name, actions);
    DoneFramesCountStops(name, h.wires);
    if e.link.value.wire.exit == WireLoop.Running {
      DoneFramesCountStops(name, h.wires + [take]);
      StopsSnoc(d.link.value.handled, d.channel[0]);
    }
    WireStepNumbered(name, d, WireLoop.Event(name, d.channel[0], now, sendOk), ids, e);
  }

  /** Other traffic on the connection. */
  lemma TrafficNumbered(name: string, actions: seq<Action>, traffic: WireLoop.Stimulus, ids: seq<string>)
    requires var d := DeliveryPipeline.Run(name, Run(name, actions).wires);
             Numbered(name, d, ids) && DeliveryPipeline.Live(d)
    requires !(traffic.Event? && traffic.session == name) && !AcceptsPrompt(name, DeliveryPipeline.WireActs(traffic))
    requires TurnPipeline.Run(Run(name, actions).turns).forcedClears == 0 && ids == PromptIds(name, actions)
    ensures var acts := DeliveryPipeline.WireActs(traffic);
            Numbered(name, DeliveryPipeline.Run(name, Run(name, actions).wires + [acts]), ids)
  {
    hide Numbered, TurnPipeline.Run, DeliveryPipeline.Run, TurnsOf, PromptIds, Run, WireLoop.Step, TurnIds.Current;
    hide WireTheorems.DoneFrames, WireTheorems.Refines, WireTheorems.TurnsSent, StopReasons, Coalescing.Buffered;
    var h := Run(name, actions);
    var d := DeliveryPipeline.Run(name, h.wires);
    var acts := DeliveryPipeline.WireActs(traffic);
    var e := DeliveryPipeline.Run(name, h.wires + [acts]);
    DeliveryPipeline.RunSnoc(name, h.wires, acts);
    FirstConnection(name, d, ids);
    NextEventNeedsPrompts(name, actions);
    DoneFramesCountStops(name, h.wires);
    if e.link.value.wire.exit == WireLoop.Running {
      DoneFramesCountStops(name, h.wires + [acts]);
    }
    WireStepNumbered(name, d, traffic, ids, e);
  }

  /** A prompt accepted between turns. */
  lemma PromptNumbered(name: string, d: DeliveryPipeline.State, id: string, e: DeliveryPipeline.State, ids: seq<string>)
    requires Numbered(name, d, ids) && DeliveryPipeline.Live(d)
    requires WireTheorems.DoneFrames(d.link.value.wire.sent, name) == |ids|
    requires e.earlier == d.earlier && e.link.Some?
    requires e.link.value.wire == d.link.value.wire.(lastPromptId := d.link.value.wire.lastPromptId[name := id])
    ensures Numbered(name, e, ids + [id])
  {
    hide WireTheorems.DoneFrames;
    TurnIds.MoreIdsKeepIndexed(d.link.value.wire.sent, name, ids, id);
  }

  /** Connecting and resyncing send nothing but `session_blocked`. */
  lemma ResyncNumbered(name: string, d: DeliveryPipeline.State, other: string, isBlocked: bool, sendOk: bool,
                       e: DeliveryPipeline.State, ids: seq<string>)
    requires Numbered(name, d, ids) && d.link.Some? && e.earlier == d.earlier && e.link.Some?
    requires e.link.value.wire == WireLoop.Resync(d.link.value.wire, other, isBlocked, sendOk)
    ensures Numbered(name, e, ids)
  {
    hide WireTheorems.DoneFrames;
    var s := d.link.value.wire;
    TurnIds.OthersKeepIndexed(s.sent, WireLoop.SessionBlocked(other, true), name, ids);
  }

  lemma StartNumbered(name: string, at: nat)
    ensures TurnIds.Indexed(WireLoop.Start(at).sent, name, [])
    ensures WireTheorems.DoneFrames(WireLoop.Start(at).sent, name) == 0
    ensures WireTheorems.Remembers(WireLoop.Start(at), name, TurnIds.Current([], 0))
  {
  }

  /** Steps that leave the connection's loop alone. */
  lemma QuietNumbered(name: string, d: DeliveryPipeline.State, e: DeliveryPipeline.State, ids: seq<string>)
    requires Numbered(name, d, ids) && e.earlier == d.earlier
    requires d.link.None? ==> e.link.None?
    requires d.link.Some? ==> e.link.Some? && e.link.value.wire == d.link.value.wire
    ensures Numbered(name, e, ids)
  {
  }

  lemma AskLeavesWire(name: string, d: DeliveryPipeline.State)
    ensures var e := DeliveryPipeline.Step(name, d, DeliveryPipeline.AskBlocked);
            && e.earlier == d.earlier && (d.link.None? ==> e.link.None?)
            && (d.link.Some? ==> e.link.Some? && e.link.value.wire == d.link.value.wire)
  {
    hide Manager.Step;
  }

  lemma ConnectNumbered(name: string, d: DeliveryPipeline.State, at: nat, e: DeliveryPipeline.State)
    requires Numbered(name, d, []) && e.earlier == d.earlier && e.link.Some? && e.link.value.wire == WireLoop.Start(at)
    ensures Numbered(name, e, [])
  {
    StartNumbered(name, at);
  }

  lemma WireSideNumbered(name: string, actions: seq<Action>, wire: DeliveryPipeline.Action, ids: seq<string>)
    requires Numbered(name, DeliveryPipeline.Run(name, Run(name, actions).wires), ids)
    requires !wire.ManagerActs? && !wire.Disconnect? && !AcceptsPrompt(name, wire)
    requires TurnPipeline.Run(Run(name, actions).turns).forcedClears == 0 && ids == PromptIds(name, actions)
    ensures Numbered(name, DeliveryPipeline.Run(name, Run(name, actions).wires + [wire]), ids)
  {
    hide Numbered, TurnPipeline.Run, DeliveryPipeline.Run, PromptIds, Run, WireLoop.Step, WireLoop.Resync;
    hide DeliveryPipeline.ManagerMove;
    var h := Run(name, actions);
    var d := DeliveryPipeline.Run(name, h.wires);
    var e := DeliveryPipeline.Run(name, h.wires + [wire]);
    DeliveryPipeline.RunSnoc(name, h.wires, wire);
    FirstConnection(name, d, ids);
    match wire
    case TakeEvent(now, sendOk) =>
      if DeliveryPipeline.Live(d) && d.channel != [] {
        TakeEventNumbered(name, actions, now, sendOk, ids);
      } else {
        QuietNumbered(name, d, e, ids);
      }
    case WireActs(traffic) =>
      if DeliveryPipeline.Live(d) && !(traffic.Event? && traffic.session == name) {
        TrafficNumbered(name, actions, traffic, ids);
      } else {
        QuietNumbered(name, d, e, ids);
      }
    case ReceiveBlocked(sendOk) =>
      if d.link.Some? && !d.link.value.synced && d.link.value.answer.Some? {
        ResyncNumbered(name, d, name, d.link.value.answer.value, sendOk, e, ids);
      } else {
        QuietNumbered(name, d, e, ids);
      }
    case ResyncOther(other, isBlocked, sendOk) =>
      if d.link.Some? && other != name {
        ResyncNumbered(name, d, other, isBlocked, sendOk, e, ids);
      } else {
        QuietNumbered(name, d, e, ids);
      }
    case Connect(at) =>
      if d.link.None? {
        ConnectNumbered(name, d, at, e);
      } else {
        QuietNumbered(name, d, e, ids);
      }
    case AskBlocked =>
      AskLeavesWire(name, d);
      QuietNumbered(name, d, e, ids);
  }

  lemma ManagerLeavesWire(name: string, d: DeliveryPipeline.State, stimulus: Manager.Stimulus)
    ensures var e := DeliveryPipeline.Step(name, d, DeliveryPipeline.ManagerActs(stimulus));
            e.earlier == d.earlier && e.link == d.link
  {
    hide Manager.Step;
  }

  lemma TurnSideNumbered(name: string, h: Histories, turn: TurnPipeline.Action, ids: seq<string>)
    requires Numbered(name, DeliveryPipeline.Run(name, h.wires), ids)
    ensures Numbered(name, DeliveryPipeline.Run(name, Step(name, h, TurnSide(turn)).wires), ids)
  {
    hide Numbered, DeliveryPipeline.Run, DeliveryPipeline.Step, TurnPipeline.Run;
    ConcatAssociates(h.wires, [], []);
    var d, input := DeliveryPipeline.Run(name, h.wires), TurnPipeline.ManagerInput(TurnPipeline.Run(h.turns), turn);
    if !turn.PromptArrives? && input.Some? {
      var acts := DeliveryPipeline.ManagerActs(input.value);
      DeliveryPipeline.RunSnoc(name, h.wires, acts);
      ManagerLeavesWire(name, d, input.value);
      QuietNumbered(name, d, DeliveryPipeline.Step(name, d, acts), ids);
    }
  }

  /** What noting the id does to the connection. */
  lemma NotedOnWire(name: string, d: DeliveryPipeline.State, id: string)
    requires DeliveryPipeline.Live(d)
    ensures var noted := DeliveryPipeline.WireActs(WireLoop.InPrompt(id, name, WireLoop.Delivered, true));
            var e := DeliveryPipeline.Step(name, d, noted);
            && e.earlier == d.earlier && e.link.Some?
            && e.link.value.wire == d.link.value.wire.(lastPromptId := d.link.value.wire.lastPromptId[name := id])
  {
  }

  lemma PromptComesNumbered(name: string, h: Histories, id: string, text: string, ids: seq<string>)
    requires Numbered(name, DeliveryPipeline.Run(name, h.wires), ids)
    requires DeliveryPipeline.Live(DeliveryPipeline.Run(name, h.wires))
    requires StopReasons(DeliveryPipeline.Handled(DeliveryPipeline.Run(name, h.wires))) == |ids|
    ensures Numbered(name, DeliveryPipeline.Run(name, Step(name, h, PromptComes(id, text)).wires), ids + [id])
  {
    hide Numbered, DeliveryPipeline.Run, DeliveryPipeline.Step, TurnPipeline.Run, TurnsOf, StopReasons;
    hide WireTheorems.DoneFrames;
    var d := DeliveryPipeline.Run(name, h.wires);
    var prompt := Manager.Prompt(text, TurnPipeline.Run(h.turns).acp.running);
    var told := DeliveryPipeline.Step(name, d, DeliveryPipeline.ManagerActs(prompt));
    PromptMoves(name, h, id, text);
    ManagerLeavesWire(name, d, prompt);
    DoneFramesCountStops(name, h.wires);
    NotedOnWire(name, told, id);
    PromptNumbered(name, d, id, DeliveryPipeline.Run(name, Step(name, h, PromptComes(id, text)).wires), ids);
  }

  lemma StepNumbered(name: string, before: seq<Action>, action: Action)
    requires Numbered(name, DeliveryPipeline.Run(name, Run(name, before).wires), PromptIds(name, before))
    requires TurnPipeline.Run(Run(name, before).turns).forcedClears == 0
    requires action != WireSide(DeliveryPipeline.Disconnect) && OneAtATime(name, before + [action])
    ensures Numbered(name, DeliveryPipeline.Run(name, Run(name, before + [action]).wires),
                     PromptIds(name, before + [action]))
  {
    hide Numbered, DeliveryPipeline.Run, TurnPipeline.Run, StopReasons, DeliveryPipeline.Handled, DeliveryPipeline.Live;
    SnocParts(before, action);
    var h, ids := Run(name, before), PromptIds(name, before);
    ConcatAssociates(ids, [], []);
    match action
    case TurnSide(turn) => TurnSideNumbered(name, h, turn, ids);
    case WireSide(wire) =>
      if !wire.ManagerActs? && !AcceptsPrompt(name, wire) {
        WireSideNumbered(name, before, wire, ids);
      }
    case PromptComes(id, text) =>
      if Accepts(name, before, action) {
        PromptComesNumbered(name, h, id, text, ids);
      }
  }

  lemma NothingYet(name: string)
    ensures Numbered(name, DeliveryPipeline.Run(name, Run(name, []).wires), PromptIds(name, []))
  {
    assert DeliveryPipeline.Run(name, []) == DeliveryPipeline.START;
  }

  lemma FrontIsOrderly(name: string, actions: seq<Action>)
    requires actions != [] && NoReconnect(actions) && OneAtATime(name, actions)
    ensures NoReconnect(Front(actions)) && OneAtATime(name, Front(actions))
    ensures Last(actions) != WireSide(DeliveryPipeline.Disconnect)
  {
    hide Run, Accepts, PromptIds, StopReasons, DeliveryPipeline.Run;
    assert actions[|actions| - 1] == Last(actions);
  }

  lemma {:induction false} AlwaysNumbered(name: string, actions: seq<Action>)
    requires NoReconnect(actions) && OneAtATime(name, actions)
    requires TurnPipeline.Run(Run(name, actions).turns).forcedClears == 0
    ensures Numbered(name, DeliveryPipeline.Run(name, Run(name, actions).wires), PromptIds(name, actions))
  {
    if actions == [] {
      NothingYet(name);
    } else {
      hide Numbered, DeliveryPipeline.Run, TurnPipeline.Run, Step, OneAtATime, PromptIds, NoReconnect;
      var front := Front(actions);
      assert front + [Last(actions)] == actions;
      FrontIsOrderly(name, actions);
      ForcedClearsStay(name, Run(name, front), Last(actions));
      AlwaysNumbered(name, front);
      StepNumbered(name, front, Last(actions));
    }
  }

  /** The k-th turn is what the agent sent for the k-th prompt that arrived. */
  ghost predicate AnswersInOrder(sent: Turns, speeches: seq<AgentSpeech.Speech>, arrived: seq<string>) {
    && |sent.closed| <= |speeches| <= |arrived|
    && forall k :: 0 <= k < |sent.closed| ==>
         speeches[k].prompt == arrived[k] && sent.closed[k] == AgentSpeech.Whole(speeches[k])
  }

  lemma DeliversInOrder(sent: Turns, speeches: seq<AgentSpeech.Speech>, arrived: seq<string>)
    requires Delivers(sent, NO_TURNS, speeches) && |speeches| <= |arrived|
    requires forall k :: 0 <= k < |speeches| ==> speeches[k].prompt == arrived[k]
    ensures AnswersInOrder(sent, speeches, arrived)
  {
    hide AgentSpeech.Whole;
    forall k | 0 <= k < |sent.closed| ensures sent.closed[k] == AgentSpeech.Whole(speeches[k]) {
      ConcatAssociates([], [], sent.closed[k]);
    }
  }

  /** On a first connection, before any forced clear, with each prompt sent after
      the stop reason of the turn before was taken: every reply frame of the k-th
      turn, streamed, debounced or terminal, carries the id of the k-th prompt,
      and the turn answers that prompt's text. */
  lemma FramesCarryTheirPromptsId(name: string, actions: seq<Action>)
    requires DeliveryPipeline.Run(name, Run(name, actions).wires).link.Some?
    requires NoReconnect(actions) && OneAtATime(name, actions)
    requires TurnPipeline.Run(Run(name, actions).turns).forcedClears == 0
    ensures var h := Run(name, actions);
            var ids, arrived := PromptIds(name, actions), TurnPipeline.Arrivals(h.turns);
            var speeches := AgentSpeech.Spoken(h.turns).speeches;
            var frames := DeliveryPipeline.Run(name, h.wires).link.value.wire.sent;
            var turns := WireTheorems.TurnsSent(frames, name);
            && |ids| == |arrived|
            && (forall i :: 0 <= i < |frames| && TurnIds.ReplyOf(frames[i], name) ==>
                  && WireTheorems.DoneFrames(frames[..i], name) < |ids|
                  && frames[i].id == WireLoop.Wire(ids[WireTheorems.DoneFrames(frames[..i], name)]))
            && AnswersInOrder(turns, speeches, arrived)
  {
    hide AgentSpeech.Whole;
    hide Run, WireTheorems.TurnsSent, WireTheorems.DoneFrames, TurnPipeline.Run, AgentSpeech.Spoken;
    hide DeliveryPipeline.Run, TurnPipeline.Arrivals, PromptIds;
    OneIdPerArrival(name, actions);
    AlwaysNumbered(name, actions);
    PromptsAreAnsweredInOrder(name, actions);
    ContinueNothing(NO_TURNS);
    var h := Run(name, actions);
    DeliversInOrder(WireTheorems.TurnsSent(DeliveryPipeline.Run(name, h.wires).link.value.wire.sent, name),
                    AgentSpeech.Spoken(h.turns).speeches, TurnPipeline.Arrivals(h.turns));
  }
}
