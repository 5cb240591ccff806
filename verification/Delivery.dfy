/** One session seen across reconnects: its manager task, the event channel that
    outlives every connection, and the connection currently up, if any. */
module DeliveryPipeline {
  import opened Common
  import opened DriverEvents
  import Manager
  import WireLoop
  import WireTheorems
  import Coalescing

  /** A connection: its loop, the manager's answer to its resync question while
      that is on its way, whether the answer has come in, and the session's
      events it has taken from the channel. */
  datatype Link = Link(wire: WireLoop.State, answer: Option<bool>, synced: bool, handled: seq<DriverEvent>)

  datatype State = State(
    manager: Manager.State,
    channel: seq<DriverEvent>,
    link: Option<Link>,
    earlier: seq<DriverEvent>)

  const START := State(Manager.START, [], None, [])

  /** Any driver behaviour is allowed on the manager's side, and any traffic for
      other sessions on the connection's. */
  datatype Action =
    | ManagerActs(stimulus: Manager.Stimulus)
    | Connect(at: nat)
    | AskBlocked
    | ReceiveBlocked(sendOk: bool)
    | ResyncOther(other: string, isBlocked: bool, sendOk: bool)
    | TakeEvent(now: nat, sendOk: bool)
    | WireActs(traffic: WireLoop.Stimulus)
    | Disconnect

  function ManagerMove(p: State, stimulus: Manager.Stimulus): State {
    var next := Manager.Step(p.manager, stimulus);
    var sent := if |p.manager.forwarded| <= |next.forwarded| then next.forwarded[|p.manager.forwarded|..] else [];
    p.(manager := next, channel := p.channel + sent)
  }

  predicate Live(p: State) {
    p.link.Some? && p.link.value.synced && p.link.value.wire.exit == WireLoop.Running
  }

  /** The connection still has to ask whether this session is blocked. The
      question and its answer are two messages: the manager may forward more
      before the answer is acted on. */
  predicate Asks(p: State) {
    && p.link.Some? && p.link.value.wire.exit == WireLoop.Running
    && !p.link.value.synced && p.link.value.answer.None?
  }

  function Step(name: string, p: State, action: Action): State {
    match action
    case ManagerActs(stimulus) => if stimulus.HandlesDropped? then p else ManagerMove(p, stimulus)
    case Connect(at) => if p.link.None? then p.(link := Some(Link(WireLoop.Start(at), None, false, []))) else p
    case AskBlocked =>
      if !Asks(p) then p
      else
        var q := ManagerMove(p, Manager.IsBlocked);
        var reply := if q.manager.replies == [] then Manager.BlockedIs(false) else Last(q.manager.replies);
        q.(link := Some(p.link.value.(answer := Some(reply.BlockedIs? && reply.blocked))))
    case ReceiveBlocked(sendOk) =>
      if p.link.None? || p.link.value.synced || p.link.value.answer.None? then p
      else
        var wire := WireLoop.Resync(p.link.value.wire, name, p.link.value.answer.value, sendOk);
        p.(link := Some(p.link.value.(wire := wire, synced := true)))
    case ResyncOther(other, isBlocked, sendOk) =>
      if p.link.None? || other == name then p
      else p.(link := Some(p.link.value.(wire := WireLoop.Resync(p.link.value.wire, other, isBlocked, sendOk))))
    case TakeEvent(now, sendOk) =>
      if !Live(p) || p.channel == [] then p
      else
        var wire := WireLoop.Step(p.link.value.wire, WireLoop.Event(name, p.channel[0], now, sendOk));
        p.(link := Some(p.link.value.(wire := wire, handled := p.link.value.handled + [p.channel[0]])),
           channel := p.channel[1..])
    case WireActs(traffic) =>
      if !Live(p) || (traffic.Event? && traffic.session == name) then p
      else p.(link := Some(p.link.value.(wire := WireLoop.Step(p.link.value.wire, traffic))))
    case Disconnect =>
      if p.link.None? || p.link.value.wire.exit == WireLoop.Running then p
      else p.(link := None, earlier := p.earlier + p.link.value.handled)
  }

  function Run(name: string, actions: seq<Action>): State {
    if actions == [] then START else Step(name, Run(name, Front(actions)), Last(actions))
  }

  lemma RunSnoc(name: string, actions: seq<Action>, action: Action)
    ensures Run(name, actions + [action]) == Step(name, Run(name, actions), action)
  {
    SnocParts(actions, action);
  }

  /** Only its own actions, and a connection's question, move the manager. */
  lemma StepMovesManager(name: string, p: State, action: Action)
    ensures Step(name, p, action).manager
            == match action
               case ManagerActs(stimulus) =>
                 if stimulus.HandlesDropped? then p.manager else Manager.Step(p.manager, stimulus)
               case AskBlocked => if Asks(p) then Manager.Step(p.manager, Manager.IsBlocked) else p.manager
               case _ => p.manager
  {
    hide Manager.Step, WireLoop.Step, WireLoop.Resync;
  }

  /** What each action has the connection's loop do, if it is there to do it. */
  lemma StepMovesWire(name: string, p: State, action: Action)
    requires p.link.Some? && Step(name, p, action).link.Some?
    ensures Step(name, p, action).link.value.wire
            == var wire := p.link.value.wire;
               match action
               case ReceiveBlocked(sendOk) =>
                 if p.link.value.synced || p.link.value.answer.None? then wire
                 else WireLoop.Resync(wire, name, p.link.value.answer.value, sendOk)
               case ResyncOther(other, isBlocked, sendOk) =>
                 if other == name then wire else WireLoop.Resync(wire, other, isBlocked, sendOk)
               case TakeEvent(now, sendOk) =>
                 if !Live(p) || p.channel == [] then wire
                 else WireLoop.Step(wire, WireLoop.Event(name, p.channel[0], now, sendOk))
               case WireActs(traffic) =>
                 if !Live(p) || (traffic.Event? && traffic.session == name) then wire
                 else WireLoop.Step(wire, traffic)
               case _ => wire
  {
    hide Manager.Step, WireLoop.Step, WireLoop.Resync;
  }

  function Handled(p: State): seq<DriverEvent> {
    if p.link.Some? then p.link.value.handled else []
  }

  /** Every event forwarded is in exactly one place, in order. */
  ghost predicate NothingLost(p: State) {
    p.manager.forwarded == p.earlier + Handled(p) + p.channel
  }

  /** Reading the rest of the channel would bring the server up to date, from
      what it was told or from the answer on its way. */
  ghost predicate CatchesUp(name: string, p: State) {
    && (Live(p) ==> FoldBlocked(p.channel, name in p.link.value.wire.blocked) == p.manager.blocked)
    && (p.link.Some? && !p.link.value.synced && p.link.value.answer.Some? ==>
          FoldBlocked(p.channel, p.link.value.answer.value) == p.manager.blocked)
  }

  ghost predicate Faithful(name: string, p: State) {
    p.link.Some? ==>
      && WireTheorems.Refines(p.link.value.wire, name, TurnsOf(p.link.value.handled))
      && WireTheorems.Announced(p.link.value.wire, name)
      && (!p.link.value.synced ==> p.link.value.handled == [] && name !in p.link.value.wire.blocked)
  }

  ghost predicate Holds(name: string, p: State) {
    && !p.manager.stopped
    && p.manager.blocked == FoldBlocked(p.manager.forwarded, false)
    && NothingLost(p) && CatchesUp(name, p) && Faithful(name, p)
  }

  lemma StaysUp(s: Manager.State, stimulus: Manager.Stimulus)
    requires !stimulus.HandlesDropped?
    ensures Manager.Step(s, stimulus).stopped == s.stopped
  {
  }

  lemma ManagerMoveKeeps(name: string, p: State, stimulus: Manager.Stimulus)
    requires Holds(name, p) && !stimulus.HandlesDropped?
    ensures Holds(name, ManagerMove(p, stimulus))
  {
    Manager.StepForwards(p.manager, stimulus);
    StaysUp(p.manager, stimulus);
    var t := Manager.Step(p.manager, stimulus);
    var known := p.manager.forwarded;
    if t.forwarded == known {
      assert t.forwarded[|known|..] == [];
      ConcatAssociates(p.channel, [], []);
    } else {
      assert t.forwarded[|known|..] == [stimulus.event];
      ConcatAssociates(p.earlier + Handled(p), p.channel, [stimulus.event]);
      FoldBlockedSnoc(known, stimulus.event, false);
      if p.link.Some? {
        FoldBlockedSnoc(p.channel, stimulus.event, name in p.link.value.wire.blocked);
        FoldBlockedSnoc(p.channel, stimulus.event, p.link.value.answer == Some(true));
      }
    }
  }

  /** How an event, of whichever session, moves one session's membership. */
  lemma EventMovesMembership(s: WireLoop.State, owner: string, event: DriverEvent, now: nat, sendOk: bool, name: string)
    ensures name in WireLoop.OnEvent(s, owner, event, now, sendOk).blocked
            <==> if owner == name then BlockedAfter(event, name in s.blocked) else name in s.blocked
  {
    var id := WireLoop.ReplyId(s, owner);
    var t := WireLoop.Mint(s, owner);
    if event.Update? {
      var (pending, batch) := Coalescing.Push(t.pending, WireLoop.MAX_BYTES, owner, event.text, now);
      if batch.Some? {
        WireTheorems.SendReplyShape(t.(pending := pending), id, owner, batch.value, false, sendOk);
      }
    } else if event.StopReason? {
      var u := t.(pending := t.pending - {owner}, lastPromptId := t.lastPromptId - {owner});
      WireTheorems.SendReplyShape(u, id, owner, Coalescing.Buffered(t.pending, owner), true, sendOk);
    }
  }

  lemma StepIsOnEvent(s: WireLoop.State, stimulus: WireLoop.Stimulus)
    requires s.exit == WireLoop.Running && stimulus.Event?
    ensures WireLoop.Step(s, stimulus)
            == WireLoop.OnEvent(s, stimulus.session, stimulus.event, stimulus.now, stimulus.sendOk)
  {
  }

  /** Another session's traffic leaves this one's membership alone. */
  lemma OthersLeaveMembership(s: WireLoop.State, stimulus: WireLoop.Stimulus, name: string)
    requires s.exit == WireLoop.Running && !(stimulus.Event? && stimulus.session == name)
    ensures name in WireLoop.Step(s, stimulus).blocked <==> name in s.blocked
  {
    if stimulus.Flush? {
      var (rest, out) := Coalescing.Due(s.pending, WireLoop.WINDOW, stimulus.now, stimulus.order);
      WireTheorems.SendAllBlocked(s.(pending := rest), out, stimulus.sends, name);
    } else if stimulus.Event? {
      StepIsOnEvent(s, stimulus);
      EventMovesMembership(s, stimulus.session, stimulus.event, stimulus.now, stimulus.sendOk, name);
    } else {
      WireTheorems.PlainStep(s, stimulus);
    }
  }

  lemma FoldBlockedHead(events: seq<DriverEvent>, blocked: bool)
    requires events != []
    ensures FoldBlocked(events, blocked) == FoldBlocked(events[1..], BlockedAfter(events[0], blocked))
  {
    assert events == [events[0]] + events[1..];
    FoldBlockedConcat([events[0]], events[1..], blocked);
    assert Front([events[0]]) == [];
  }

  /** What taking one event does to the connection. */
  lemma WireTakes(wire: WireLoop.State, name: string, handled: seq<DriverEvent>, event: DriverEvent, now: nat,
                  sendOk: bool)
    requires wire.exit == WireLoop.Running
    requires WireTheorems.Refines(wire, name, TurnsOf(handled)) && WireTheorems.Announced(wire, name)
    ensures var next := WireLoop.Step(wire, WireLoop.Event(name, event, now, sendOk));
            && WireTheorems.Refines(next, name, TurnsOf(handled + [event])) && WireTheorems.Announced(next, name)
            && (name in next.blocked <==> BlockedAfter(event, name in wire.blocked))
  {
    var stimulus := WireLoop.Event(name, event, now, sendOk);
    WireTheorems.StepRefines(wire, stimulus, name, TurnsOf(handled));
    WireTheorems.StepAnnounces(wire, stimulus, name);
    SnocParts(handled, event);
    EventMovesMembership(wire, name, event, now, sendOk, name);
    StepIsOnEvent(wire, stimulus);
  }

  lemma HandOn(earlier: seq<DriverEvent>, handled: seq<DriverEvent>, channel: seq<DriverEvent>)
    requires channel != []
    ensures earlier + (handled + [channel[0]]) + channel[1..] == earlier + handled + channel
  {
  }

  lemma TakeEventKeeps(name: string, p: State, now: nat, sendOk: bool)
    requires Holds(name, p) && Live(p) && p.channel != []
    ensures Holds(name, Step(name, p, TakeEvent(now, sendOk)))
  {
    var link := p.link.value;
    HandOn(p.earlier, link.handled, p.channel);
    WireTakes(link.wire, name, link.handled, p.channel[0], now, sendOk);
    FoldBlockedHead(p.channel, name in link.wire.blocked);
  }

  /** Replaying a stream of statuses over its own outcome changes nothing. */
  lemma {:induction false} FoldOfFinalValue(events: seq<DriverEvent>, blocked: bool)
    ensures FoldBlocked(events, FoldBlocked(events, blocked)) == FoldBlocked(events, blocked)
  {
    if events != [] {
      var front := Front(events);
      FoldOfFinalValue(front, blocked);
      if Last(events).Status? {
      } else {
        assert FoldBlocked(events, blocked) == FoldBlocked(front, blocked);
      }
    }
  }

  /** What is unread decides the flag, unless it holds no status at all. */
  lemma UnreadDecides(earlier: seq<DriverEvent>, unread: seq<DriverEvent>)
    ensures var flag := FoldBlocked(earlier + unread, false);
            FoldBlocked(unread, flag) == flag
  {
    FoldBlockedConcat(earlier, unread, false);
    FoldOfFinalValue(unread, FoldBlocked(earlier, false));
  }

  lemma WireResyncs(wire: WireLoop.State, name: string, flag: bool, sendOk: bool)
    requires WireTheorems.Refines(wire, name, NO_TURNS) && WireTheorems.Announced(wire, name) && name !in wire.blocked
    ensures var next := WireLoop.Resync(wire, name, flag, sendOk);
            && WireTheorems.Refines(next, name, NO_TURNS) && WireTheorems.Announced(next, name)
            && (next.exit == WireLoop.Running ==> (name in next.blocked <==> flag))
  {
    WireTheorems.SendTurns(wire.(blocked := wire.blocked + {name}), WireLoop.SessionBlocked(name, true), sendOk, name);
    if wire.exit == WireLoop.Running {
      WireTheorems.AnnounceStatus(wire, name, true, sendOk, name);
    }
  }

  lemma QueryMovesNothing(p: State)
    requires !p.manager.stopped
    ensures var q := ManagerMove(p, Manager.IsBlocked);
            && q == p.(manager := p.manager.(replies := p.manager.replies + [Manager.BlockedIs(p.manager.blocked)]))
            && q.manager.replies != [] && Last(q.manager.replies) == Manager.BlockedIs(p.manager.blocked)
  {
    var q := ManagerMove(p, Manager.IsBlocked);
    assert q.manager.forwarded[|p.manager.forwarded|..] == [];
    assert p.channel + [] == p.channel;
  }

  lemma AskKeeps(name: string, p: State)
    requires Holds(name, p) && Asks(p)
    ensures Holds(name, Step(name, p, AskBlocked))
  {
    QueryMovesNothing(p);
    ConcatAssociates(p.earlier, [], p.channel);
    ConcatAssociates([], [], p.channel);
    UnreadDecides(p.earlier, p.channel);
  }

  lemma ReceiveKeeps(name: string, p: State, sendOk: bool)
    requires Holds(name, p) && p.link.Some? && !p.link.value.synced && p.link.value.answer.Some?
    ensures Holds(name, Step(name, p, ReceiveBlocked(sendOk)))
  {
    assert TurnsOf([]) == NO_TURNS;
    WireResyncs(p.link.value.wire, name, p.link.value.answer.value, sendOk);
  }

  /** A connection that ends without touching a session's frames or buffer
      leaves a cut of what it was sending. */
  lemma OpenTextMayStop(s: WireLoop.State, t: WireLoop.State, name: string, turns: Turns)
    requires WireTheorems.Refines(s, name, turns)
    requires t.pending == s.pending && WireTheorems.TurnsSent(t.sent, name) == WireTheorems.TurnsSent(s.sent, name)
    requires s.exit != WireLoop.Running ==> t.exit != WireLoop.Running
    ensures WireTheorems.Refines(t, name, turns)
  {
  }

  /** Another session's resync, seen from this one. */
  lemma OtherResyncs(wire: WireLoop.State, name: string, other: string, isBlocked: bool, sendOk: bool, turns: Turns)
    requires WireTheorems.Refines(wire, name, turns) && WireTheorems.Announced(wire, name) && other != name
    ensures var next := WireLoop.Resync(wire, other, isBlocked, sendOk);
            && WireTheorems.Refines(next, name, turns) && WireTheorems.Announced(next, name)
            && (name in next.blocked <==> name in wire.blocked)
            && (next.exit == WireLoop.Running ==> wire.exit == WireLoop.Running)
  {
    if wire.exit == WireLoop.Running && isBlocked {
      var u := wire.(blocked := wire.blocked + {other});
      WireTheorems.SendTurns(u, WireLoop.SessionBlocked(other, true), sendOk, name);
      WireTheorems.SendBlocked(u, WireLoop.SessionBlocked(other, true), sendOk, name);
      OpenTextMayStop(wire, WireLoop.Send(u, WireLoop.SessionBlocked(other, true), sendOk), name, turns);
    }
  }

  lemma ResyncOtherKeeps(name: string, p: State, other: string, isBlocked: bool, sendOk: bool)
    requires Holds(name, p) && p.link.Some? && other != name
    ensures Holds(name, Step(name, p, ResyncOther(other, isBlocked, sendOk)))
  {
    OtherResyncs(p.link.value.wire, name, other, isBlocked, sendOk, TurnsOf(p.link.value.handled));
  }

  lemma StepKeeps(name: string, p: State, action: Action)
    requires Holds(name, p)
    ensures Holds(name, Step(name, p, action))
  {
    match action
    case ManagerActs(stimulus) =>
      if !stimulus.HandlesDropped? {
        ManagerMoveKeeps(name, p, stimulus);
      }
    case Connect(at) =>
    case AskBlocked =>
      if Asks(p) {
        AskKeeps(name, p);
      }
    case ReceiveBlocked(sendOk) =>
      if p.link.Some? && !p.link.value.synced && p.link.value.answer.Some? {
        ReceiveKeeps(name, p, sendOk);
      }
    case ResyncOther(other, isBlocked, sendOk) =>
      if p.link.Some? && other != name {
        ResyncOtherKeeps(name, p, other, isBlocked, sendOk);
      }
    case TakeEvent(now, sendOk) =>
      if Live(p) && p.channel != [] {
        TakeEventKeeps(name, p, now, sendOk);
      }
    case WireActs(traffic) =>
      if Live(p) && !(traffic.Event? && traffic.session == name) {
        WireTheorems.StepRefines(p.link.value.wire, traffic, name, TurnsOf(p.link.value.handled));
        WireTheorems.StepAnnounces(p.link.value.wire, traffic, name);
        OthersLeaveMembership(p.link.value.wire, traffic, name);
      }
    case Disconnect =>
      assert p.earlier + Handled(p) + [] == p.earlier + Handled(p);
  }

  lemma {:induction false} AlwaysHolds(name: string, actions: seq<Action>)
    ensures Holds(name, Run(name, actions))
  {
    if actions != [] {
      AlwaysHolds(name, Front(actions));
      StepKeeps(name, Run(name, Front(actions)), Last(actions));
    }
  }

  /** Blocked state survives any number of reconnects: once a connection has
      resynced the session, and at every later step, folding the unread status
      events over its membership in `blocked_sessions` gives the manager's flag;
      with nothing unread the last `session_blocked` frame tells the truth. */
  lemma BlockedSurvivesReconnect(name: string, actions: seq<Action>)
    requires Live(Run(name, actions))
    ensures var p := Run(name, actions);
            var wire := p.link.value.wire;
            var flags := WireTheorems.BlockedSent(wire.sent, name);
            && FoldBlocked(p.channel, name in wire.blocked) == p.manager.blocked
            && WireTheorems.Alternating(flags)
            && (p.channel == [] ==> (p.manager.blocked <==> flags != [] && Last(flags)))
  {
    AlwaysHolds(name, actions);
  }

  /** No event is lost or reordered on its way to a connection, and each
      connection's reply frames regroup exactly the events it took. */
  lemma {:induction false} EventsReachConnectionsInOrder(name: string, actions: seq<Action>)
    ensures var p := Run(name, actions);
            && p.manager.forwarded == p.earlier + Handled(p) + p.channel
            && (p.link.Some? ==> WireTheorems.Refines(p.link.value.wire, name, TurnsOf(Handled(p))))
  {
    AlwaysHolds(name, actions);
  }
}
