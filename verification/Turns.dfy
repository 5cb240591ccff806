/** The session manager composed with the ACP command loop, two tasks joined by an
    unbounded command channel one way and an event channel the other, and with
    the agent, whose messages wait unread until the loop next looks. */
module TurnPipeline {
  import opened Common
  import opened DriverEvents
  import Manager
  import Acp

  datatype State = State(
    manager: Manager.State,
    acp: Acp.State,
    commands: seq<Acp.Command>,
    events: seq<DriverEvent>,
    inbox: seq<Acp.Stimulus>,
    forcedClears: nat)

  const START := State(Manager.START, Acp.START, [], [], [], 0)

  /** Either task taking one step; the agent and the clock choose freely, and
      the command loop may be torn down from outside at any time. */
  datatype Action =
    | PromptArrives(text: string)
    | InterruptArrives(now: nat, httpOk: bool)
    | QueryArrives(query: Manager.Stimulus)
    | ManagerTakesEvent
    | ManagerSeesEnd
    | StallExpires(now: nat)
    | AcpTakesCommand(sendOk: bool)
    | AgentSends(message: Acp.Stimulus)
    | LoopReads
    | TornDown

  function PromptCommands(texts: seq<string>): seq<Acp.Command> {
    if texts == [] then [] else PromptCommands(Front(texts)) + [Acp.PromptCommand(Last(texts))]
  }

  /** A manager step. Channel sends succeed exactly while the loop runs. */
  function ManagerMove(p: State, stimulus: Manager.Stimulus): State {
    var next := Manager.Step(p.manager, stimulus);
    var handed := if |p.manager.handed| <= |next.handed| then next.handed[|p.manager.handed|..] else [];
    p.(manager := next, commands := p.commands + PromptCommands(handed))
  }

  /** A loop step. When the loop returns, its channel ends are dropped. */
  function AcpMove(p: State, stimulus: Acp.Stimulus): State {
    var next := Acp.Step(p.acp, stimulus);
    var emitted := if |p.acp.emitted| <= |next.emitted| then next.emitted[|p.acp.emitted|..] else [];
    p.(acp := next, events := p.events + emitted, commands := if next.running then p.commands else [])
  }

  predicate IsAgentMessage(message: Acp.Stimulus) {
    message.AgentText? || message.AgentOther? || message.AgentStopped? || message.AgentFailed?
  }

  /** The agent has been sent a prompt that it has not reported the end of. */
  predicate Answering(p: State) {
    p.acp.inFlight && forall i :: 0 <= i < |p.inbox| ==> !p.inbox[i].AgentStopped?
  }

  /** A stop reason is the response to a prompt, so there is one for each; text
      the agent may send whenever it likes. */
  predicate MaySend(p: State, message: Acp.Stimulus) {
    p.acp.running && IsAgentMessage(message) && (message.AgentStopped? ==> Answering(p))
  }

  /** Agent messages are only read while a prompt is in flight. */
  predicate MayRead(p: State) {
    p.inbox != [] && p.acp.running && p.acp.inFlight
  }

  function Step(p: State, action: Action): State {
    match action
    case PromptArrives(text) => ManagerMove(p, Manager.Prompt(text, p.acp.running))
    case InterruptArrives(now, httpOk) =>
      var q := if p.manager.busy && p.acp.running then p.(commands := p.commands + [Acp.CancelCommand]) else p;
      ManagerMove(q, Manager.Interrupt(now, p.acp.running || httpOk))
    case QueryArrives(query) =>
      if query.Answer? || query.IsBusy? || query.IsBlocked? then ManagerMove(p, query) else p
    case ManagerTakesEvent =>
      if p.events == [] || !p.manager.driverAlive then p
      else ManagerMove(p.(events := p.events[1..]), Manager.Event(p.events[0], p.acp.running))
    case ManagerSeesEnd =>
      if p.events == [] && !p.acp.running then ManagerMove(p, Manager.DriverGone) else p
    case StallExpires(now) =>
      if Manager.Fires(p.manager, now)
      then ManagerMove(p.(forcedClears := p.forcedClears + 1), Manager.Expire(now, p.acp.running))
      else p
    case AcpTakesCommand(sendOk) =>
      if p.commands == [] || !p.acp.running then p
      else AcpMove(p.(commands := p.commands[1..]), Acp.Receive(p.commands[0], sendOk))
    case AgentSends(message) => if MaySend(p, message) then p.(inbox := p.inbox + [message]) else p
    case LoopReads => if MayRead(p) then AcpMove(p.(inbox := p.inbox[1..]), p.inbox[0]) else p
    case TornDown => AcpMove(p, Acp.HandleDropped)
  }

  function Run(actions: seq<Action>): State {
    if actions == [] then START else Step(Run(Front(actions)), Last(actions))
  }

  lemma RunSnoc(actions: seq<Action>, action: Action)
    ensures Run(actions + [action]) == Step(Run(actions), action)
  {
    SnocParts(actions, action);
  }

  /** The step an action has the manager take, if any. */
  function ManagerInput(p: State, action: Action): Option<Manager.Stimulus> {
    match action
    case PromptArrives(text) => Some(Manager.Prompt(text, p.acp.running))
    case InterruptArrives(now, httpOk) => Some(Manager.Interrupt(now, p.acp.running || httpOk))
    case QueryArrives(query) => if query.Answer? || query.IsBusy? || query.IsBlocked? then Some(query) else None
    case ManagerTakesEvent =>
      if p.events == [] || !p.manager.driverAlive then None else Some(Manager.Event(p.events[0], p.acp.running))
    case ManagerSeesEnd => if p.events == [] && !p.acp.running then Some(Manager.DriverGone) else None
    case StallExpires(now) => if Manager.Fires(p.manager, now) then Some(Manager.Expire(now, p.acp.running)) else None
    case _ => None
  }

  lemma StepMovesManager(p: State, action: Action)
    ensures var input := ManagerInput(p, action);
            && Step(p, action).manager == (if input.Some? then Manager.Step(p.manager, input.value) else p.manager)
            && (input.Some? ==> !input.value.HandlesDropped?)
  {
    hide Manager.Step;
  }

  /** The step an action has the command loop take, if any. */
  function AcpInput(p: State, action: Action): Option<Acp.Stimulus> {
    match action
    case AcpTakesCommand(sendOk) =>
      if p.commands == [] || !p.acp.running then None else Some(Acp.Receive(p.commands[0], sendOk))
    case LoopReads => if MayRead(p) then Some(p.inbox[0]) else None
    case TornDown => Some(Acp.HandleDropped)
    case _ => None
  }

  lemma StepMovesLoop(p: State, action: Action)
    ensures var input := AcpInput(p, action);
            Step(p, action).acp == if input.Some? then Acp.Step(p.acp, input.value) else p.acp
  {
    hide Manager.Step, Acp.Step;
  }

  // ---------------------------------------------------------------------
  // Counting
  // ---------------------------------------------------------------------

  function PromptTexts(commands: seq<Acp.Command>): seq<string> {
    if commands == [] then []
    else (if commands[0].PromptCommand? then [commands[0].text] else []) + PromptTexts(commands[1..])
  }

  lemma {:induction false} PromptTextsConcat(first: seq<Acp.Command>, second: seq<Acp.Command>)
    ensures PromptTexts(first + second) == PromptTexts(first) + PromptTexts(second)
  {
    if first == [] {
      assert first + second == second;
    } else {
      assert (first + second)[1..] == first[1..] + second;
      PromptTextsConcat(first[1..], second);
    }
  }

  function TakenTexts(taken: seq<Acp.Taken>): seq<string> {
    if taken == [] then [] else TakenTexts(Front(taken)) + [Last(taken).text]
  }

  function One(b: bool): nat {
    if b then 1 else 0
  }

  /** Turns the driver side still owes, or has silently lost: prompts in the
      channel, the turn in flight, unread stop reasons, and discards. */
  function Load(p: State): nat {
    |PromptTexts(p.commands)| + One(p.acp.inFlight) + StopReasons(p.events) + Acp.Count(p.acp.taken, Acp.Discarded)
  }

  /** Prompts that went down with the command loop: still in the channel when it
      returned, or taken by the send that failed. */
  function Lost(p: State): int {
    |p.manager.handed| - |TakenTexts(p.acp.taken)| - |PromptTexts(p.commands)| + Acp.Count(p.acp.taken, Acp.SendFailed)
  }

  /** The manager is about to read a stop reason with no turn of its own in
      flight: the late one of a turn that was cleared by force. */
  predicate TakesIdleStop(p: State, action: Action) {
    && action.ManagerTakesEvent? && p.manager.driverAlive && !p.manager.busy
    && p.events != [] && p.events[0].StopReason?
  }

  /** How many stop reasons the manager has read while idle. */
  function IdleStops(actions: seq<Action>): nat {
    if actions == [] then 0
    else IdleStops(Front(actions)) + One(TakesIdleStop(Run(Front(actions)), Last(actions)))
  }

  /** The balance both tasks keep, exactly. */
  ghost predicate Balanced(p: State, idle: nat) {
    && Load(p) + idle + Lost(p) == One(p.manager.busy) + p.forcedClears
    && Acp.Count(p.acp.taken, Acp.Discarded) + idle <= p.forcedClears
    && Lost(p) >= 0 && (p.acp.running ==> Lost(p) == 0)
  }

  ghost predicate Linked(p: State) {
    && !p.manager.stopped && Manager.Coherent(p.manager)
    && (p.acp.running ==> p.manager.driverAlive)
    && (!p.acp.running ==> p.commands == [])
    && (forall i :: 0 <= i < |p.inbox| ==> IsAgentMessage(p.inbox[i]))
    && p.manager.forwarded + p.events == p.acp.emitted
    && (p.acp.running ==> TakenTexts(p.acp.taken) + PromptTexts(p.commands) == p.manager.handed)
    && TakenTexts(p.acp.taken) <= p.manager.handed
  }

  lemma SingletonCommands(text: string)
    ensures PromptCommands([]) == [] && PromptCommands([text]) == [Acp.PromptCommand(text)]
    ensures PromptTexts([Acp.PromptCommand(text)]) == [text]
  {
    assert Front([text]) == [] && [Acp.PromptCommand(text)][1..] == [];
  }

  /** A manager step hands over at most one prompt, only while the send works,
      and the change of `busy` accounts for it. */
  lemma ManagerBalance(s: Manager.State, stimulus: Manager.Stimulus)
    requires !s.stopped && Manager.Coherent(s) && !stimulus.HandlesDropped?
    ensures var t := Manager.Step(s, stimulus);
            && !t.stopped && Manager.Coherent(t)
            && (t.handed == s.handed || exists text: string :: t.handed == s.handed + [text])
            && |t.handed| + One(s.busy) == |s.handed| + One(t.busy) + One(s.busy && Manager.EndsTurn(s, stimulus))
            && (stimulus.Event? && s.driverAlive ==> t.forwarded == s.forwarded + [stimulus.event])
            && (!stimulus.Event? ==> t.forwarded == s.forwarded)
  {
  }

  /** What one manager step does to the joint state. */
  lemma ManagerMoveEffect(p: State, stimulus: Manager.Stimulus)
    requires !p.manager.stopped && Manager.Coherent(p.manager) && !stimulus.HandlesDropped?
    ensures var q := ManagerMove(p, stimulus);
            && q.acp == p.acp && q.events == p.events && q.forcedClears == p.forcedClears
            && q.manager == Manager.Step(p.manager, stimulus)
            && q.manager.handed == p.manager.handed + q.manager.handed[|p.manager.handed|..]
            && PromptTexts(q.commands) == PromptTexts(p.commands) + q.manager.handed[|p.manager.handed|..]
            && (q.manager.handed == p.manager.handed ==> q.commands == p.commands)
  {
    ManagerBalance(p.manager, stimulus);
    var t := Manager.Step(p.manager, stimulus);
    if t.handed == p.manager.handed {
      assert t.handed[|p.manager.handed|..] == [];
      assert p.commands + [] == p.commands;
    } else {
      var text: string :| t.handed == p.manager.handed + [text];
      assert t.handed[|p.manager.handed|..] == [text];
      SingletonCommands(text);
      PromptTextsConcat(p.commands, [Acp.PromptCommand(text)]);
    }
  }

  /** No prompt is handed over, and the driver stays alive, unless sends work. */
  lemma SendsFollowTheLoop(s: Manager.State, stimulus: Manager.Stimulus, up: bool)
    requires !s.stopped && Manager.Coherent(s)
    requires stimulus.Prompt? || stimulus.Event? || stimulus.Expire? ==> stimulus.sendOk == up
    requires !stimulus.HandlesDropped? && (stimulus.DriverGone? ==> !up)
    ensures up && s.driverAlive ==> Manager.Step(s, stimulus).driverAlive
    ensures !up ==> Manager.Step(s, stimulus).handed == s.handed
  {
  }

  lemma ManagerMoveLinked(p: State, stimulus: Manager.Stimulus)
    requires Linked(p) && !stimulus.HandlesDropped? && !stimulus.Event?
    requires stimulus.Prompt? || stimulus.Expire? ==> stimulus.sendOk == p.acp.running
    requires stimulus.DriverGone? ==> !p.acp.running
    ensures Linked(ManagerMove(p, stimulus))
  {
    ManagerMoveEffect(p, stimulus);
    ManagerBalance(p.manager, stimulus);
    SendsFollowTheLoop(p.manager, stimulus, p.acp.running);
  }

  lemma HeadEvent(events: seq<DriverEvent>)
    requires events != []
    ensures StopReasons(events) == One(events[0].StopReason?) + StopReasons(events[1..])
  {
    assert events == [events[0]] + events[1..];
    StopReasonsConcat([events[0]], events[1..]);
    assert Front([events[0]]) == [];
  }

  lemma ReadsInOrder(forwarded: seq<DriverEvent>, events: seq<DriverEvent>)
    requires events != []
    ensures forwarded + [events[0]] + events[1..] == forwarded + events
  {
    ConcatAssociates(forwarded, [events[0]], events[1..]);
    assert events == [events[0]] + events[1..];
  }

  lemma TakesEventLinked(p: State)
    requires Linked(p) && p.events != [] && p.manager.driverAlive
    ensures Linked(Step(p, ManagerTakesEvent))
  {
    var stimulus := Manager.Event(p.events[0], p.acp.running);
    ManagerMoveEffect(p.(events := p.events[1..]), stimulus);
    ManagerBalance(p.manager, stimulus);
    SendsFollowTheLoop(p.manager, stimulus, p.acp.running);
    ReadsInOrder(p.manager.forwarded, p.events);
  }

  lemma TakesEventBalanced(p: State, idle: nat)
    requires Linked(p) && Balanced(p, idle) && p.events != [] && p.manager.driverAlive
    ensures Balanced(Step(p, ManagerTakesEvent), idle + One(TakesIdleStop(p, ManagerTakesEvent)))
  {
    var stimulus := Manager.Event(p.events[0], p.acp.running);
    HeadEvent(p.events);
    ManagerMoveEffect(p.(events := p.events[1..]), stimulus);
    ManagerBalance(p.manager, stimulus);
  }

  lemma TakesEventKeeps(p: State, idle: nat)
    requires Linked(p) && Balanced(p, idle) && p.events != [] && p.manager.driverAlive
    ensures var q := Step(p, ManagerTakesEvent);
            Linked(q) && Balanced(q, idle + One(TakesIdleStop(p, ManagerTakesEvent)))
  {
    TakesEventLinked(p);
    TakesEventBalanced(p, idle);
  }

  lemma StallKeeps(p: State, now: nat, idle: nat)
    requires Linked(p) && Balanced(p, idle) && Manager.Fires(p.manager, now)
    ensures Linked(Step(p, StallExpires(now))) && Balanced(Step(p, StallExpires(now)), idle)
  {
    var r := p.(forcedClears := p.forcedClears + 1);
    ManagerMoveLinked(r, Manager.Expire(now, p.acp.running));
    ManagerMoveEffect(r, Manager.Expire(now, p.acp.running));
    ManagerBalance(p.manager, Manager.Expire(now, p.acp.running));
  }

  lemma CommandKeeps(p: State, stimulus: Manager.Stimulus, idle: nat)
    requires Linked(p) && Balanced(p, idle)
    requires stimulus.Prompt? || stimulus.Interrupt? || stimulus.Answer?
             || stimulus.IsBusy? || stimulus.IsBlocked? || stimulus.DriverGone?
    requires stimulus.Prompt? ==> stimulus.sendOk == p.acp.running
    requires stimulus.DriverGone? ==> !p.acp.running
    ensures Linked(ManagerMove(p, stimulus)) && Balanced(ManagerMove(p, stimulus), idle)
  {
    ManagerMoveLinked(p, stimulus);
    ManagerMoveEffect(p, stimulus);
    ManagerBalance(p.manager, stimulus);
  }

  lemma CancelKeeps(p: State, idle: nat)
    requires Linked(p) && Balanced(p, idle) && p.acp.running
    ensures var q := p.(commands := p.commands + [Acp.CancelCommand]);
            Linked(q) && Balanced(q, idle)
  {
    PromptTextsConcat(p.commands, [Acp.CancelCommand]);
    assert PromptTexts([Acp.CancelCommand]) == [];
    assert PromptTexts(p.commands) + [] == PromptTexts(p.commands);
  }

  lemma TakenSnoc(taken: seq<Acp.Taken>, t: Acp.Taken)
    ensures TakenTexts(taken + [t]) == TakenTexts(taken) + [t.text]
    ensures Acp.Count(taken + [t], Acp.Discarded) == Acp.Count(taken, Acp.Discarded) + One(t.fate == Acp.Discarded)
    ensures Acp.Count(taken + [t], Acp.SendFailed) == Acp.Count(taken, Acp.SendFailed) + One(t.fate == Acp.SendFailed)
  {
    SnocParts(taken, t);
  }

  /** What one loop step does, in terms of what it took and emitted. */
  lemma AcpAdvances(p: State, next: Acp.State, emitted: seq<DriverEvent>)
    requires Linked(p) && next.emitted == p.acp.emitted + emitted
    requires next.running ==> p.acp.running && TakenTexts(next.taken) + PromptTexts(p.commands) == p.manager.handed
    requires TakenTexts(next.taken) <= p.manager.handed
    ensures Linked(p.(acp := next, events := p.events + emitted, commands := if next.running then p.commands else []))
  {
    assert p.manager.forwarded + (p.events + emitted) == p.manager.forwarded + p.events + emitted;
  }

  lemma AcpBalances(p: State, next: Acp.State, emitted: seq<DriverEvent>, idle: nat)
    requires Linked(p) && Balanced(p, idle) && next.taken == p.acp.taken && (next.running ==> p.acp.running)
    requires StopReasons(emitted) + One(next.inFlight) == One(p.acp.inFlight)
    ensures Balanced(p.(acp := next, events := p.events + emitted,
                        commands := if next.running then p.commands else []), idle)
  {
    StopReasonsConcat(p.events, emitted);
  }

  lemma TakesCancelKeeps(p: State, sendOk: bool, idle: nat)
    requires Linked(p) && Balanced(p, idle) && p.acp.running
    requires p.commands != [] && p.commands[0] == Acp.CancelCommand
    ensures Linked(Step(p, AcpTakesCommand(sendOk))) && Balanced(Step(p, AcpTakesCommand(sendOk)), idle)
  {
    var r := p.(commands := p.commands[1..]);
    var next := Acp.Step(p.acp, Acp.Receive(Acp.CancelCommand, sendOk));
    assert [] + PromptTexts(p.commands[1..]) == PromptTexts(p.commands[1..]);
    assert next.emitted[|p.acp.emitted|..] == [] && next.emitted == p.acp.emitted + [];
    AcpAdvances(r, next, []);
    AcpBalances(r, next, [], idle);
  }

  /** The prompt at the head of the channel moves into `taken`. */
  lemma TakePromptLinked(p: State, text: string, next: Acp.State, emitted: seq<DriverEvent>)
    requires Linked(p) && p.acp.running && p.commands != [] && p.commands[0] == Acp.PromptCommand(text)
    requires next.taken != [] && Front(next.taken) == p.acp.taken && Last(next.taken).text == text
    requires next.emitted == p.acp.emitted + emitted
    ensures Linked(p.(acp := next, events := p.events + emitted,
                      commands := if next.running then p.commands[1..] else []))
  {
    var was, rest := TakenTexts(p.acp.taken), PromptTexts(p.commands[1..]);
    assert was + ([text] + rest) == was + [text] + rest;
    assert was + [text] <= p.manager.handed;
    assert p.manager.forwarded + (p.events + emitted) == p.manager.forwarded + p.events + emitted;
  }

  lemma TakePromptBalanced(p: State, text: string, next: Acp.State, emitted: seq<DriverEvent>, idle: nat)
    requires Balanced(p, idle) && p.acp.running && p.commands != [] && p.commands[0] == Acp.PromptCommand(text)
    requires next.taken != [] && next.taken == p.acp.taken + [Last(next.taken)] && StopReasons(emitted) == 0
    requires if p.acp.inFlight then next.inFlight && next.running && Last(next.taken).fate == Acp.Discarded
             else if next.running then next.inFlight && Last(next.taken).fate == Acp.Started
             else !next.inFlight && Last(next.taken).fate == Acp.SendFailed
    ensures Balanced(p.(acp := next, events := p.events + emitted,
                        commands := if next.running then p.commands[1..] else []), idle)
  {
    StopReasonsConcat(p.events, emitted);
    TakenSnoc(p.acp.taken, Last(next.taken));
    assert PromptTexts(p.commands) == [text] + PromptTexts(p.commands[1..]);
  }

  lemma TakesPromptKeeps(p: State, text: string, sendOk: bool, idle: nat)
    requires Linked(p) && Balanced(p, idle) && p.acp.running
    requires p.commands != [] && p.commands[0] == Acp.PromptCommand(text)
    ensures Linked(Step(p, AcpTakesCommand(sendOk))) && Balanced(Step(p, AcpTakesCommand(sendOk)), idle)
  {
    var a := p.acp;
    var next := Acp.Step(a, Acp.Receive(Acp.PromptCommand(text), sendOk));
    var emitted := if !a.inFlight && sendOk then [Status(Working)] else [];
    assert Front([Status(Working)]) == [];
    assert next.emitted == a.emitted + emitted && next.emitted[|a.emitted|..] == emitted;
    assert next.taken == a.taken + [Last(next.taken)] && Front(next.taken) == a.taken;
    TakePromptLinked(p, text, next, emitted);
    TakePromptBalanced(p, text, next, emitted, idle);
  }

  lemma AcpTakesKeeps(p: State, sendOk: bool, idle: nat)
    requires Linked(p) && Balanced(p, idle) && p.commands != [] && p.acp.running
    ensures Linked(Step(p, AcpTakesCommand(sendOk))) && Balanced(Step(p, AcpTakesCommand(sendOk)), idle)
  {
    match p.commands[0]
    case CancelCommand => TakesCancelKeeps(p, sendOk, idle);
    case PromptCommand(text) => TakesPromptKeeps(p, text, sendOk, idle);
  }

  /** What an agent message makes the loop emit. */
  lemma AgentEmits(a: Acp.State, message: Acp.Stimulus)
    requires !message.Receive?
    ensures var next := Acp.Step(a, message);
            var emitted := if |a.emitted| <= |next.emitted| then next.emitted[|a.emitted|..] else [];
            && next.taken == a.taken && (next.running ==> a.running)
            && next.emitted == a.emitted + emitted
            && StopReasons(emitted) + One(next.inFlight) == One(a.inFlight)
  {
    var next := Acp.Step(a, message);
    if a.running && a.inFlight && message.AgentStopped? {
      var emitted := [Status(Idle), StopReason(message.reason)];
      assert next.emitted[|a.emitted|..] == emitted;
      assert Front(emitted) == [Status(Idle)] && Front([Status(Idle)]) == [];
    } else if a.running && a.inFlight && message.AgentText? {
      assert next.emitted[|a.emitted|..] == [Update(message.text)];
      assert Front([Update(message.text)]) == [];
    } else {
      assert next.emitted[|a.emitted|..] == [];
    }
  }

  lemma AgentKeeps(p: State, message: Acp.Stimulus, idle: nat)
    requires Linked(p) && Balanced(p, idle) && !message.Receive?
    ensures Linked(AcpMove(p, message)) && Balanced(AcpMove(p, message), idle)
  {
    AgentEmits(p.acp, message);
    var next := Acp.Step(p.acp, message);
    var emitted := next.emitted[|p.acp.emitted|..];
    AcpAdvances(p, next, emitted);
    AcpBalances(p, next, emitted, idle);
  }

  lemma InterruptKeeps(p: State, now: nat, httpOk: bool, idle: nat)
    requires Linked(p) && Balanced(p, idle)
    ensures var q := Step(p, InterruptArrives(now, httpOk));
            Linked(q) && Balanced(q, idle)
  {
    if p.manager.busy && p.acp.running {
      CancelKeeps(p, idle);
      CommandKeeps(p.(commands := p.commands + [Acp.CancelCommand]), Manager.Interrupt(now, true), idle);
    } else {
      CommandKeeps(p, Manager.Interrupt(now, p.acp.running || httpOk), idle);
    }
  }

  /** What arrives from outside or from the clock. */
  lemma ArrivalKeeps(p: State, action: Action, idle: nat)
    requires Linked(p) && Balanced(p, idle)
    requires action.PromptArrives? || action.InterruptArrives? || action.QueryArrives? || action.StallExpires?
    ensures Linked(Step(p, action)) && Balanced(Step(p, action), idle)
  {
    if action.PromptArrives? {
      CommandKeeps(p, Manager.Prompt(action.text, p.acp.running), idle);
    } else if action.InterruptArrives? {
      InterruptKeeps(p, action.now, action.httpOk, idle);
    } else if action.StallExpires? {
      if Manager.Fires(p.manager, action.now) {
        StallKeeps(p, action.now, idle);
      }
    } else if action.query.Answer? || action.query.IsBusy? || action.query.IsBlocked? {
      CommandKeeps(p, action.query, idle);
    }
  }

  /** What goes through the channels, and what the agent does. */
  lemma TrafficKeeps(p: State, action: Action, idle: nat)
    requires Linked(p) && Balanced(p, idle)
    requires action.ManagerSeesEnd? || action.AcpTakesCommand?
             || action.AgentSends? || action.LoopReads? || action.TornDown?
    ensures Linked(Step(p, action)) && Balanced(Step(p, action), idle)
  {
    if action.ManagerSeesEnd? {
      if p.events == [] && !p.acp.running {
        CommandKeeps(p, Manager.DriverGone, idle);
      }
    } else if action.AcpTakesCommand? {
      if p.commands != [] && p.acp.running {
        AcpTakesKeeps(p, action.sendOk, idle);
      }
    } else if action.TornDown? {
      AgentKeeps(p, Acp.HandleDropped, idle);
    } else if action.LoopReads? && MayRead(p) {
      AgentKeeps(p.(inbox := p.inbox[1..]), p.inbox[0], idle);
    }
  }

  lemma StepKeeps(p: State, action: Action, idle: nat)
    requires Linked(p) && Balanced(p, idle)
    ensures Linked(Step(p, action)) && Balanced(Step(p, action), idle + One(TakesIdleStop(p, action)))
  {
    if action.ManagerTakesEvent? {
      if p.events != [] && p.manager.driverAlive {
        TakesEventKeeps(p, idle);
      }
    } else if action.PromptArrives? || action.InterruptArrives? || action.QueryArrives? || action.StallExpires? {
      ArrivalKeeps(p, action, idle);
    } else {
      TrafficKeeps(p, action, idle);
    }
  }

  lemma {:induction false} AlwaysKept(actions: seq<Action>)
    ensures Linked(Run(actions)) && Balanced(Run(actions), IdleStops(actions))
  {
    if actions == [] {
      assert Load(START) == 0 && Lost(START) == 0;
    } else {
      AlwaysKept(Front(actions));
      StepKeeps(Run(Front(actions)), Last(actions), IdleStops(Front(actions)));
    }
  }

  // ---------------------------------------------------------------------
  // The theorems
  // ---------------------------------------------------------------------

  /** The exact balance, in every reachable state: what the driver side owes or
      dropped, what went down with the loop, and the stop reasons the manager
      read while idle, against `busy` and the forced clears. */
  lemma {:induction false} TurnsBalanceExactly(actions: seq<Action>)
    ensures var p := Run(actions);
            && Load(p) + IdleStops(actions) + Lost(p) == One(p.manager.busy) + p.forcedClears
            && Lost(p) >= 0 && (p.acp.running ==> Lost(p) == 0)
            && Acp.Count(p.acp.taken, Acp.Discarded) + IdleStops(actions) <= p.forcedClears
  {
    AlwaysKept(actions);
  }

  /** What the driver side still has to do, or the manager still has to hear of. */
  function LiveLoad(p: State): nat {
    |PromptTexts(p.commands)| + One(p.acp.inFlight) + StopReasons(p.events)
  }

  /** While the loop is up, what it has outstanding is exactly the turn the
      manager counts plus the forced clears not yet paid for, by a stop reason
      read while idle or by a discarded prompt. So a true `busy` is always right,
      and a false one is right exactly when every forced clear has been paid for.
      That every one was paid by an idle stop reason is enough, and is the
      manager's own to count. */
  lemma BusyIsTrueIff(actions: seq<Action>)
    requires Run(actions).acp.running
    ensures var p := Run(actions);
            var paid := Acp.Count(p.acp.taken, Acp.Discarded) + IdleStops(actions);
            && LiveLoad(p) + paid == One(p.manager.busy) + p.forcedClears && paid <= p.forcedClears
            && (p.manager.busy ==> LiveLoad(p) > 0)
            && ((p.manager.busy <==> LiveLoad(p) > 0) <==> p.manager.busy || paid == p.forcedClears)
            && (IdleStops(actions) == p.forcedClears ==> (p.manager.busy <==> LiveLoad(p) > 0))
  {
    TurnsBalanceExactly(actions);
  }

  /** Conservation of turns. Prompts are discarded only after the stall timeout
      has cleared a turn by force, at most one for each forced clear; before the
      first one nothing is lost and `busy` says exactly whether something is
      outstanding. */
  lemma {:induction false} TurnsAreConserved(actions: seq<Action>)
    ensures var p := Run(actions);
            && Load(p) <= One(p.manager.busy) + p.forcedClears
            && Acp.Count(p.acp.taken, Acp.Discarded) <= p.forcedClears
            && (p.acp.running && p.forcedClears == 0 ==>
                  Load(p) == One(p.manager.busy) && Acp.Count(p.acp.taken, Acp.Discarded) == 0)
  {
    TurnsBalanceExactly(actions);
  }

  /** The prompts sent to this session, oldest first. */
  function Arrivals(actions: seq<Action>): seq<string> {
    if actions == [] then []
    else Arrivals(Front(actions)) + if Last(actions).PromptArrives? then [Last(actions).text] else []
  }

  /** Prompts wait in the order they came; a send to the agent fails at most
      once, on the last prompt the loop ever takes. */
  ghost predicate QueuedInOrder(p: State, arrived: seq<string>) {
    && p.manager.handed <= arrived
    && (p.acp.running ==> p.manager.handed + p.manager.queue == arrived)
    && (forall i :: 0 <= i < |p.acp.taken| && p.acp.taken[i].fate == Acp.SendFailed ==>
          i == |p.acp.taken| - 1 && !p.acp.running)
  }

  lemma ManagerQueues(s: Manager.State, stimulus: Manager.Stimulus, arrived: seq<string>)
    requires !s.stopped && s.driverAlive && Manager.Coherent(s) && s.handed + s.queue == arrived
    requires stimulus.Prompt? || stimulus.Event? || stimulus.Expire? ==> stimulus.sendOk
    ensures var t := Manager.Step(s, stimulus);
            t.handed + t.queue == arrived + if stimulus.Prompt? then [stimulus.text] else []
  {
    assert s.handed + [] + s.queue == s.handed + s.queue;
    Manager.StepInOrder(s, stimulus, [], arrived);
    var t := Manager.Step(s, stimulus);
    assert t.handed + ([] + []) + t.queue == t.handed + t.queue;
    assert arrived + [] == arrived;
  }

  /** With the loop gone no prompt is handed over any more. */
  lemma DeadKeepsHanded(p: State, action: Action)
    requires Linked(p) && !p.acp.running
    ensures Step(p, action).manager.handed == p.manager.handed && Step(p, action).acp == p.acp
  {
    match action
    case PromptArrives(text) => SendsFollowTheLoop(p.manager, Manager.Prompt(text, false), false);
    case InterruptArrives(now, httpOk) => SendsFollowTheLoop(p.manager, Manager.Interrupt(now, httpOk), false);
    case QueryArrives(query) =>
    case ManagerTakesEvent =>
      if p.events != [] {
        SendsFollowTheLoop(p.manager, Manager.Event(p.events[0], false), false);
      }
    case ManagerSeesEnd => SendsFollowTheLoop(p.manager, Manager.DriverGone, false);
    case StallExpires(now) => SendsFollowTheLoop(p.manager, Manager.Expire(now, false), false);
    case _ =>
  }

  lemma LiveQueues(p: State, action: Action, arrived: seq<string>)
    requires Linked(p) && p.acp.running && p.manager.handed + p.manager.queue == arrived
    ensures var t := Step(p, action).manager;
            t.handed + t.queue == arrived + if action.PromptArrives? then [action.text] else []
  {
    ConcatAssociates(arrived, [], []);
    match action
    case PromptArrives(text) => ManagerQueues(p.manager, Manager.Prompt(text, true), arrived);
    case InterruptArrives(now, _) => ManagerQueues(p.manager, Manager.Interrupt(now, true), arrived);
    case QueryArrives(query) =>
      if query.Answer? || query.IsBusy? || query.IsBlocked? {
        ManagerQueues(p.manager, query, arrived);
      }
    case ManagerTakesEvent =>
      if p.events != [] {
        ManagerQueues(p.manager, Manager.Event(p.events[0], true), arrived);
      }
    case ManagerSeesEnd =>
    case StallExpires(now) => ManagerQueues(p.manager, Manager.Expire(now, true), arrived);
    case _ =>
  }

  lemma FailsLast(p: State, action: Action)
    requires p.acp.running && forall i :: 0 <= i < |p.acp.taken| ==> p.acp.taken[i].fate != Acp.SendFailed
    ensures var a := Step(p, action).acp;
            forall i :: 0 <= i < |a.taken| && a.taken[i].fate == Acp.SendFailed ==> i == |a.taken| - 1 && !a.running
  {
  }

  lemma StepQueues(p: State, action: Action, arrived: seq<string>)
    requires Linked(p) && QueuedInOrder(p, arrived)
    ensures QueuedInOrder(Step(p, action), arrived + if action.PromptArrives? then [action.text] else [])
  {
    if p.acp.running {
      LiveQueues(p, action, arrived);
      FailsLast(p, action);
    } else {
      DeadKeepsHanded(p, action);
    }
  }

  lemma {:induction false} AlwaysQueued(actions: seq<Action>)
    ensures QueuedInOrder(Run(actions), Arrivals(actions))
  {
    if actions != [] {
      AlwaysKept(Front(actions));
      AlwaysQueued(Front(actions));
      StepQueues(Run(Front(actions)), Last(actions), Arrivals(Front(actions)));
    }
  }

  lemma {:induction false} NoneDiscarded(taken: seq<Acp.Taken>)
    requires Acp.Count(taken, Acp.Discarded) == 0
    ensures forall i :: 0 <= i < |taken| ==> taken[i].fate != Acp.Discarded
  {
    if taken != [] {
      NoneDiscarded(Front(taken));
      assert forall i :: 0 <= i < |taken| - 1 ==> taken[i] == Front(taken)[i];
    }
  }

  /** From arrival to the agent and back, nothing overtakes: while the driver is
      up, the prompts taken by the loop, then those in the channel, then the
      queue, are the prompts that arrived, in order, and before the first forced
      clear every one taken was really sent to the agent. The manager has
      forwarded what the loop emitted, in order, short of what is in flight. */
  lemma {:induction false} PromptsKeepTheirOrder(actions: seq<Action>)
    ensures var p := Run(actions);
            && p.manager.forwarded + p.events == p.acp.emitted
            && (p.acp.running ==>
                  && TakenTexts(p.acp.taken) + PromptTexts(p.commands) + p.manager.queue == Arrivals(actions)
                  && (p.forcedClears == 0 ==>
                        forall i :: 0 <= i < |p.acp.taken| ==> p.acp.taken[i].fate == Acp.Started))
  {
    AlwaysKept(actions);
    AlwaysQueued(actions);
    var p := Run(actions);
    if p.acp.running && p.forcedClears == 0 {
      NoneDiscarded(p.acp.taken);
      forall i | 0 <= i < |p.acp.taken| ensures p.acp.taken[i].fate == Acp.Started {
        assert p.acp.taken[i].fate != Acp.SendFailed;
      }
    }
  }

  /** What the agent said to which prompt, over a run of the whole. */
  function Exchanges(actions: seq<Action>): seq<Acp.Exchange> {
    if actions == [] then []
    else
      var p := Run(Front(actions));
      match AcpInput(p, Last(actions))
      case Some(stimulus) => Acp.ExchangesAfter(p.acp, stimulus, Exchanges(Front(actions)))
      case None => Exchanges(Front(actions))
  }

  lemma {:induction false} ExchangesAreTurns(actions: seq<Action>)
    ensures Acp.Tells(Run(actions).acp, Exchanges(actions))
  {
    if actions == [] {
      assert Exchanges([]) == [] && Run([]) == START;
      assert Acp.Tells(Acp.START, []);
    } else {
      hide Step, Acp.Tells, Acp.Step, Acp.ExchangesAfter;
      ExchangesAreTurns(Front(actions));
      var p := Run(Front(actions));
      StepMovesLoop(p, Last(actions));
      if AcpInput(p, Last(actions)).Some? {
        Acp.StepTells(p.acp, AcpInput(p, Last(actions)).value, Exchanges(Front(actions)));
      }
    }
  }

  /** With nothing discarded and no send failed before the last, the prompts sent
      to the agent are the first ones taken. */
  lemma {:induction false} StartedAreFirst(taken: seq<Acp.Taken>)
    requires Acp.Count(taken, Acp.Discarded) == 0
    requires forall i :: 0 <= i < |taken| - 1 ==> taken[i].fate != Acp.SendFailed
    ensures Acp.StartedTexts(taken) <= TakenTexts(taken)
    ensures (forall i :: 0 <= i < |taken| ==> taken[i].fate != Acp.SendFailed) ==>
              Acp.StartedTexts(taken) == TakenTexts(taken)
  {
    if taken != [] {
      var front := Front(taken);
      assert forall i :: 0 <= i < |front| ==> front[i] == taken[i];
      StartedAreFirst(front);
      assert Last(taken) == taken[|taken| - 1];
    }
  }

  /** Before the first forced clear the k-th exchange is with the k-th prompt that
      arrived, whether or not the driver is still up. */
  lemma {:induction false} ExchangesFollowArrivals(actions: seq<Action>)
    requires Run(actions).forcedClears == 0
    ensures |Exchanges(actions)| <= |Arrivals(actions)|
    ensures forall k :: 0 <= k < |Exchanges(actions)| ==> Exchanges(actions)[k].prompt == Arrivals(actions)[k]
  {
    var p := Run(actions);
    AlwaysKept(actions);
    AlwaysQueued(actions);
    ExchangesAreTurns(actions);
    StartedAreFirst(p.acp.taken);
    assert Acp.StartedTexts(p.acp.taken) <= Arrivals(actions);
  }

  // ---------------------------------------------------------------------
  // Interrupts
  // ---------------------------------------------------------------------

  function CancelsIn(commands: seq<Acp.Command>): nat {
    if commands == [] then 0 else One(commands[0].CancelCommand?) + CancelsIn(commands[1..])
  }

  function CancelReplies(replies: seq<Manager.Reply>): nat {
    if replies == [] then 0 else CancelReplies(Front(replies)) + One(Last(replies).CancelSent?)
  }

  /** Interrupts that found a turn in flight and the command loop up. */
  function CancelsAsked(actions: seq<Action>): nat {
    if actions == [] then 0
    else
      var p := Run(Front(actions));
      CancelsAsked(Front(actions)) + One(Last(actions).InterruptArrives? && p.manager.busy && p.acp.running)
  }

  /** Interrupts that found a turn in flight and the loop gone, and got through
      over HTTP instead. */
  function Fallbacks(actions: seq<Action>): nat {
    if actions == [] then 0
    else
      var p := Run(Front(actions));
      var last := Last(actions);
      Fallbacks(Front(actions))
      + One(last.InterruptArrives? && p.manager.busy && !p.acp.running && last.httpOk)
  }

  ghost predicate CancelsKept(p: State, asked: nat, fallbacks: nat) {
    && (p.acp.running ==> p.acp.cancels + CancelsIn(p.commands) == asked)
    && CancelReplies(p.manager.replies) == asked + fallbacks
  }

  lemma {:induction false} CancelsInConcat(first: seq<Acp.Command>, second: seq<Acp.Command>)
    ensures CancelsIn(first + second) == CancelsIn(first) + CancelsIn(second)
  {
    if first == [] {
      assert first + second == second;
    } else {
      assert (first + second)[1..] == first[1..] + second;
      CancelsInConcat(first[1..], second);
    }
  }

  lemma {:induction false} PromptsHoldNoCancel(texts: seq<string>)
    ensures CancelsIn(PromptCommands(texts)) == 0
  {
    if texts != [] {
      PromptsHoldNoCancel(Front(texts));
      CancelsInConcat(PromptCommands(Front(texts)), [Acp.PromptCommand(Last(texts))]);
    }
  }

  lemma CancelRepliesSnoc(replies: seq<Manager.Reply>, reply: Manager.Reply)
    ensures CancelReplies(replies + [reply]) == CancelReplies(replies) + One(reply.CancelSent?)
  {
    SnocParts(replies, reply);
  }

  lemma StepReplies(s: Manager.State, stimulus: Manager.Stimulus)
    requires !s.stopped
    ensures CancelReplies(Manager.Step(s, stimulus).replies)
            == CancelReplies(s.replies) + One(stimulus.Interrupt? && s.busy && stimulus.cancelOk)
  {
    hide CancelReplies;
    var t := Manager.Step(s, stimulus);
    match stimulus
    case Interrupt(_, cancelOk) =>
      CancelRepliesSnoc(s.replies, if !s.busy then Manager.NoTurnInFlight
                                   else if cancelOk then Manager.CancelSent else Manager.CancelFailed);
    case Answer(ok) => CancelRepliesSnoc(s.replies, Manager.AnswerResult(ok));
    case IsBusy => CancelRepliesSnoc(s.replies, Manager.BusyIs(s.busy));
    case IsBlocked => CancelRepliesSnoc(s.replies, Manager.BlockedIs(s.blocked));
    case _ => assert t.replies == s.replies;
  }

  /** What one manager step adds to the cancels reported, and to the channel. */
  lemma ManagerMoveCancels(p: State, stimulus: Manager.Stimulus)
    requires !p.manager.stopped
    ensures var q := ManagerMove(p, stimulus);
            && CancelsIn(q.commands) == CancelsIn(p.commands) && q.acp == p.acp
            && CancelReplies(q.manager.replies)
               == CancelReplies(p.manager.replies) + One(stimulus.Interrupt? && p.manager.busy && stimulus.cancelOk)
  {
    hide CancelReplies, CancelsIn, PromptCommands, Manager.Step;
    var q := ManagerMove(p, stimulus);
    var handed := if |p.manager.handed| <= |q.manager.handed| then q.manager.handed[|p.manager.handed|..] else [];
    CancelsInConcat(p.commands, PromptCommands(handed));
    PromptsHoldNoCancel(handed);
    StepReplies(p.manager, stimulus);
  }

  lemma InterruptKeepsCancels(p: State, now: nat, httpOk: bool, asked: nat, fallbacks: nat)
    requires !p.manager.stopped && CancelsKept(p, asked, fallbacks)
    ensures CancelsKept(Step(p, InterruptArrives(now, httpOk)), asked + One(p.manager.busy && p.acp.running),
                        fallbacks + One(p.manager.busy && !p.acp.running && httpOk))
  {
    var q := if p.manager.busy && p.acp.running then p.(commands := p.commands + [Acp.CancelCommand]) else p;
    CancelsInConcat(p.commands, [Acp.CancelCommand]);
    assert [Acp.CancelCommand][1..] == [];
    ManagerMoveCancels(q, Manager.Interrupt(now, p.acp.running || httpOk));
  }

  lemma ManagerSideKeepsCancels(p: State, action: Action, asked: nat, fallbacks: nat)
    requires !p.manager.stopped && CancelsKept(p, asked, fallbacks)
    requires !action.InterruptArrives? && !action.AcpTakesCommand? && !action.LoopReads? && !action.TornDown?
    ensures CancelsKept(Step(p, action), asked, fallbacks)
  {
    hide ManagerMove, CancelsIn, CancelReplies;
    match action
    case PromptArrives(text) => ManagerMoveCancels(p, Manager.Prompt(text, p.acp.running));
    case QueryArrives(query) =>
      if query.Answer? || query.IsBusy? || query.IsBlocked? {
        ManagerMoveCancels(p, query);
      }
    case ManagerTakesEvent =>
      if p.events != [] && p.manager.driverAlive {
        ManagerMoveCancels(p.(events := p.events[1..]), Manager.Event(p.events[0], p.acp.running));
      }
    case ManagerSeesEnd => ManagerMoveCancels(p, Manager.DriverGone);
    case StallExpires(now) =>
      ManagerMoveCancels(p.(forcedClears := p.forcedClears + 1), Manager.Expire(now, p.acp.running));
    case AgentSends(message) =>
  }

  lemma LoopSideKeepsCancels(p: State, action: Action, asked: nat, fallbacks: nat)
    requires CancelsKept(p, asked, fallbacks)
    requires action.AcpTakesCommand? || action.LoopReads? || action.TornDown?
    requires forall i :: 0 <= i < |p.inbox| ==> IsAgentMessage(p.inbox[i])
    ensures CancelsKept(Step(p, action), asked, fallbacks)
  {
  }

  lemma StepKeepsCancels(p: State, action: Action, asked: nat, fallbacks: nat)
    requires Linked(p) && CancelsKept(p, asked, fallbacks)
    ensures CancelsKept(Step(p, action),
                        asked + One(action.InterruptArrives? && p.manager.busy && p.acp.running),
                        fallbacks + One(action.InterruptArrives? && p.manager.busy && !p.acp.running && action.httpOk))
  {
    hide CancelsKept, Step;
    match action
    case InterruptArrives(now, httpOk) => InterruptKeepsCancels(p, now, httpOk, asked, fallbacks);
    case AcpTakesCommand(_) => LoopSideKeepsCancels(p, action, asked, fallbacks);
    case LoopReads => LoopSideKeepsCancels(p, action, asked, fallbacks);
    case TornDown => LoopSideKeepsCancels(p, action, asked, fallbacks);
    case _ => ManagerSideKeepsCancels(p, action, asked, fallbacks);
  }

  /** An interrupt is passed on once, and only if a turn is in flight: while the
      loop is up, the cancels it has passed to the agent and those still in its
      channel are exactly the interrupts that found a turn in flight; and callers
      are told of a cancel for exactly those and for the ones that got through
      over HTTP after the loop was gone. */
  lemma {:induction false} InterruptsAreCancels(actions: seq<Action>)
    ensures var p := Run(actions);
            && (p.acp.running ==> p.acp.cancels + CancelsIn(p.commands) == CancelsAsked(actions))
            && CancelReplies(p.manager.replies) == CancelsAsked(actions) + Fallbacks(actions)
  {
    if actions != [] {
      AlwaysKept(Front(actions));
      InterruptsAreCancels(Front(actions));
      StepKeepsCancels(Run(Front(actions)), Last(actions), CancelsAsked(Front(actions)), Fallbacks(Front(actions)));
    }
  }

  // ---------------------------------------------------------------------
  // The end of the driver
  // ---------------------------------------------------------------------

  /** A hand-over to the driver was refused. */
  predicate HandOverRefused(actions: seq<Action>) {
    && actions != []
    && (|| HandOverRefused(Front(actions))
        || (var p := Run(Front(actions));
            var input := ManagerInput(p, Last(actions));
            input.Some? && Manager.RefusedBy(p.manager, input.value) != []))
  }

  lemma StopsListening(s: Manager.State, stimulus: Manager.Stimulus)
    requires !s.stopped && s.driverAlive && Manager.RefusedBy(s, stimulus) == []
    ensures Manager.Step(s, stimulus).driverAlive <==> !stimulus.DriverGone?
  {
  }

  lemma DeadIsSilent(p: State, action: Action)
    requires Linked(p) && !p.manager.driverAlive && p.events == []
    ensures Step(p, action).events == []
  {
    if action.TornDown? {
      assert p.acp.emitted[|p.acp.emitted|..] == [];
    }
  }

  lemma StepListens(p: State, action: Action)
    requires Linked(p) && (p.manager.driverAlive || p.events == [])
    requires var input := ManagerInput(p, action); input.Some? ==> Manager.RefusedBy(p.manager, input.value) == []
    ensures var q := Step(p, action); q.manager.driverAlive || q.events == []
  {
    hide Manager.Step, Acp.Step, Manager.RefusedBy;
    StepMovesManager(p, action);
    var input := ManagerInput(p, action);
    if p.manager.driverAlive && input.Some? {
      StopsListening(p.manager, input.value);
    }
    if !p.manager.driverAlive {
      DeadIsSilent(p, action);
    }
  }

  /** The manager stops listening only when there is nothing left to hear, unless a
      hand-over was refused: until then every event emitted has been forwarded or
      is still to be. */
  lemma {:induction false} NothingUnheard(actions: seq<Action>)
    ensures var p := Run(actions);
            HandOverRefused(actions) || p.manager.driverAlive
            || (p.events == [] && p.manager.forwarded == p.acp.emitted)
  {
    if actions != [] {
      NothingUnheard(Front(actions));
      AlwaysKept(Front(actions));
      AlwaysKept(actions);
      var p := Run(Front(actions));
      if !HandOverRefused(actions) {
        StepListens(p, Last(actions));
      }
      ConcatAssociates(Run(actions).manager.forwarded, [], []);
    }
  }

  // ---------------------------------------------------------------------
  // Runs that meet the bounds
  // ---------------------------------------------------------------------

  /** A turn is forced clear while the agent is still working on `first`. */
  function Stalled(first: string): State {
    State(
      Manager.State([], false, false, true, None, false, [first], [], [Manager.CancelSent]),
      Acp.State(true, true, [Acp.Taken(first, Acp.Started)], 0, [Status(Working)]),
      [Acp.CancelCommand], [Status(Working)], [], 1)
  }

  /** On the way there: the first turn handed over, taken, and interrupted. */
  function Started(first: string, deadline: Option<nat>, replies: seq<Manager.Reply>, waiting: seq<Acp.Command>)
    : State
  {
    State(
      Manager.State([], true, false, true, deadline, false, [first], [], replies),
      Acp.State(true, true, [Acp.Taken(first, Acp.Started)], 0, [Status(Working)]),
      waiting, [Status(Working)], [], 0)
  }

  lemma FirstTurnStarts(first: string)
    ensures Step(Step(START, PromptArrives(first)), AcpTakesCommand(true)) == Started(first, None, [], [])
  {
    SingletonCommands(first);
    var p := Step(START, PromptArrives(first));
    assert p.manager.handed[0..] == [first];
    assert p.commands == [Acp.PromptCommand(first)] && p.commands[1..] == [];
    assert [Status(Working)][0..] == [Status(Working)];
  }

  lemma FirstTurnIsInterrupted(first: string)
    ensures Step(Started(first, None, [], []), InterruptArrives(0, false))
            == Started(first, Some(5000), [Manager.CancelSent], [Acp.CancelCommand])
  {
    assert [first][1..] == [] && PromptCommands([]) == [];
  }

  lemma FirstTurnStalls(first: string)
    ensures Step(Started(first, Some(5000), [Manager.CancelSent], [Acp.CancelCommand]), StallExpires(5000))
            == Stalled(first)
  {
    assert [first][1..] == [] && PromptCommands([]) == [];
  }

  function ToStalled(first: string): seq<Action> {
    [PromptArrives(first)] + [AcpTakesCommand(true)] + [InterruptArrives(0, false)] + [StallExpires(5000)]
  }

  lemma RunThree(actions: seq<Action>, a: Action, b: Action, c: Action)
    ensures Run(actions + [a] + [b] + [c]) == Step(Step(Step(Run(actions), a), b), c)
  {
    RunSnoc(actions, a);
    RunSnoc(actions + [a], b);
    RunSnoc(actions + [a] + [b], c);
  }

  lemma ReachesStalled(first: string)
    ensures Run(ToStalled(first)) == Stalled(first)
  {
    RunSnoc([], PromptArrives(first));
    assert [] + [PromptArrives(first)] == [PromptArrives(first)];
    RunThree([PromptArrives(first)], AcpTakesCommand(true), InterruptArrives(0, false), StallExpires(5000));
    FirstTurnStarts(first);
    FirstTurnIsInterrupted(first);
    FirstTurnStalls(first);
  }

  /** The operator, seeing the session free again, sends another prompt. */
  function Reprompted(first: string, second: string): State {
    State(
      Manager.State([], true, false, true, None, false, [first, second], [], [Manager.CancelSent]),
      Acp.State(true, true, [Acp.Taken(first, Acp.Started)], 0, [Status(Working)]),
      [Acp.CancelCommand, Acp.PromptCommand(second)], [Status(Working)], [], 1)
  }

  lemma ReachesReprompted(first: string, second: string)
    ensures Run(ToStalled(first) + [PromptArrives(second)]) == Reprompted(first, second)
  {
    ReachesStalled(first);
    SingletonCommands(second);
    RunSnoc(ToStalled(first), PromptArrives(second));
    assert [first, second][1..] == [second];
  }

  /** The loop has passed the cancel on, and the second prompt is next. */
  function CancelPassed(first: string, second: string): State {
    var p := Reprompted(first, second);
    p.(acp := p.acp.(cancels := 1), commands := [Acp.PromptCommand(second)])
  }

  lemma CancelIsTaken(first: string, second: string)
    ensures Step(Reprompted(first, second), AcpTakesCommand(true)) == CancelPassed(first, second)
  {
    var p := Reprompted(first, second);
    assert p.commands[1..] == [Acp.PromptCommand(second)];
    assert p.acp.emitted[1..] == [];
  }

  lemma PromptIsDropped(first: string, second: string)
    ensures var p := Step(CancelPassed(first, second), AcpTakesCommand(true));
            && p.acp.taken == [Acp.Taken(first, Acp.Started), Acp.Taken(second, Acp.Discarded)]
            && p.manager.handed == [first, second] && p.forcedClears == 1 && p.commands == []
  {
    assert CancelPassed(first, second).commands[1..] == [];
  }

  /** The bound is met: a prompt sent after a forced clear, while the agent is
      still on the interrupted turn, is dropped without any event for it. */
  lemma DiscardAfterForcedClear(first: string, second: string)
    ensures var p := Run(ToStalled(first) + [PromptArrives(second)]
                         + [AcpTakesCommand(true)] + [AcpTakesCommand(true)]);
            && p.acp.taken == [Acp.Taken(first, Acp.Started), Acp.Taken(second, Acp.Discarded)]
            && p.manager.handed == [first, second] && p.forcedClears == 1 && p.commands == []
  {
    hide Run, Step, ToStalled, Reprompted, CancelPassed;
    ReachesReprompted(first, second);
    var a5 := ToStalled(first) + [PromptArrives(second)];
    RunSnoc(a5, AcpTakesCommand(true));
    RunSnoc(a5 + [AcpTakesCommand(true)], AcpTakesCommand(true));
    CancelIsTaken(first, second);
    PromptIsDropped(first, second);
  }

  /** The interrupted turn ends after all, and the loop takes what was waiting,
      before the manager has read any of it: the states on the way. */
  function Ended(first: string, second: string, reason: DriverStopReason, cancels: nat, waiting: seq<Acp.Command>)
    : State
  {
    var said := [Status(Working), Status(Idle), StopReason(reason)];
    State(
      Manager.State([], true, false, true, None, false, [first, second], [], [Manager.CancelSent]),
      Acp.State(false, true, [Acp.Taken(first, Acp.Started)], cancels, said),
      waiting, said, [], 1)
  }

  /** The second turn is under way, and the manager has yet to read the first
      one's end, and then all but the last event. */
  function Overtaken(first: string, second: string, reason: DriverStopReason, busy: bool,
                     read: seq<DriverEvent>, unread: seq<DriverEvent>): State {
    State(
      Manager.State([], busy, false, true, None, false, [first, second], read, [Manager.CancelSent]),
      Acp.State(true, true, [Acp.Taken(first, Acp.Started), Acp.Taken(second, Acp.Started)], 1,
                [Status(Working), Status(Idle), StopReason(reason), Status(Working)]),
      [], unread, [], 1)
  }

  lemma TurnEndsLate(first: string, second: string, reason: DriverStopReason)
    ensures Step(Step(Reprompted(first, second), AgentSends(Acp.AgentStopped(reason))), LoopReads)
            == Ended(first, second, reason, 0, [Acp.CancelCommand, Acp.PromptCommand(second)])
  {
    var p := Step(Reprompted(first, second), AgentSends(Acp.AgentStopped(reason)));
    assert p.inbox == [Acp.AgentStopped(reason)] && p.inbox[1..] == [];
    var said := [Status(Working), Status(Idle), StopReason(reason)];
    assert [Status(Working)] + [Status(Idle)] + [StopReason(reason)] == said;
    assert said[1..] == [Status(Idle), StopReason(reason)];
    assert [Status(Working)] + said[1..] == said;
  }

  lemma CancelComesLate(first: string, second: string, reason: DriverStopReason)
    ensures Step(Ended(first, second, reason, 0, [Acp.CancelCommand, Acp.PromptCommand(second)]), AcpTakesCommand(true))
            == Ended(first, second, reason, 1, [Acp.PromptCommand(second)])
  {
    assert [Acp.CancelCommand, Acp.PromptCommand(second)][1..] == [Acp.PromptCommand(second)];
    var said := [Status(Working), Status(Idle), StopReason(reason)];
    assert said[3..] == [] && said + [] == said;
  }

  lemma SecondTurnStarts(first: string, second: string, reason: DriverStopReason)
    ensures Step(Ended(first, second, reason, 1, [Acp.PromptCommand(second)]), AcpTakesCommand(true))
            == Overtaken(first, second, reason, true, [],
                         [Status(Working), Status(Idle), StopReason(reason), Status(Working)])
  {
    assert [Acp.PromptCommand(second)][1..] == [];
    var said := [Status(Working), Status(Idle), StopReason(reason)];
    assert (said + [Status(Working)])[3..] == [Status(Working)];
    assert said + [Status(Working)] == [Status(Working), Status(Idle), StopReason(reason), Status(Working)];
    assert [Acp.Taken(first, Acp.Started)] + [Acp.Taken(second, Acp.Started)]
           == [Acp.Taken(first, Acp.Started), Acp.Taken(second, Acp.Started)];
  }

  /** Reading one event with nothing queued only ends the turn on a stop reason. */
  lemma ManagerReads(first: string, second: string, reason: DriverStopReason, read: seq<DriverEvent>,
                     event: DriverEvent, unread: seq<DriverEvent>)
    requires event != Status(Blocked)
    ensures Step(Overtaken(first, second, reason, true, read, [event] + unread), ManagerTakesEvent)
            == Overtaken(first, second, reason, !event.StopReason?, read + [event], unread)
  {
    var p := Overtaken(first, second, reason, true, read, [event] + unread);
    assert ([event] + unread)[1..] == unread;
    var next := Manager.Step(p.manager, Manager.Event(event, true));
    assert next.handed == p.manager.handed && next.handed[2..] == [];
    assert PromptCommands([]) == [];
  }

  function ToOvertaken(first: string, second: string, reason: DriverStopReason): seq<Action> {
    ToStalled(first) + [PromptArrives(second)] + [AgentSends(Acp.AgentStopped(reason))] + [LoopReads]
    + [AcpTakesCommand(true)] + [AcpTakesCommand(true)]
  }

  lemma ReachesOvertaken(first: string, second: string, reason: DriverStopReason)
    ensures Run(ToOvertaken(first, second, reason))
            == Overtaken(first, second, reason, true, [],
                         [Status(Working), Status(Idle), StopReason(reason), Status(Working)])
  {
    ReachesReprompted(first, second);
    var ends := AgentSends(Acp.AgentStopped(reason));
    RunSnoc(ToStalled(first) + [PromptArrives(second)], ends);
    RunThree(ToStalled(first) + [PromptArrives(second)] + [ends], LoopReads,
             AcpTakesCommand(true), AcpTakesCommand(true));
    TurnEndsLate(first, second, reason);
    CancelComesLate(first, second, reason);
    SecondTurnStarts(first, second, reason);
  }

  /** A late stop reason is taken for the next turn's: `busy` drops while the
      agent is still running that turn. */
  lemma LateStopClearsRunningTurn(first: string, second: string, reason: DriverStopReason)
    ensures var p := Run(ToOvertaken(first, second, reason)
                         + [ManagerTakesEvent] + [ManagerTakesEvent] + [ManagerTakesEvent]);
            && !p.manager.busy && p.acp.inFlight && p.acp.running
            && p.acp.taken == [Acp.Taken(first, Acp.Started), Acp.Taken(second, Acp.Started)]
            && p.events == [Status(Working)]
  {
    ReachesOvertaken(first, second, reason);
    RunThree(ToOvertaken(first, second, reason), ManagerTakesEvent, ManagerTakesEvent, ManagerTakesEvent);
    var w, i, e := Status(Working), Status(Idle), StopReason(reason);
    assert [w, i, e, w] == [w] + [i, e, w] && [i, e, w] == [i] + [e, w] && [e, w] == [e] + [w];
    ManagerReads(first, second, reason, [], w, [i, e, w]);
    ManagerReads(first, second, reason, [] + [w], i, [e, w]);
    ManagerReads(first, second, reason, [] + [w] + [i], e, [w]);
  }
}
