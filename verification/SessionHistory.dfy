/** A session told from the stimuli it was given alone (src/session_manager.rs,
    `run_session`): when its driver died, which prompts it took, when it handed
    them over, when each turn ended. No definition here looks at the session's
    own state; `StateIsHistory` says the session is exactly what they tell. */
module ManagerHistory {
  import opened Common
  import opened DriverEvents
  import opened Manager

  /** Every handle to the session was dropped, which ends its task. */
  predicate HandlesGone(script: seq<Stimulus>)
    decreases |script|
  {
    script != [] && (HandlesGone(Front(script)) || Last(script).HandlesDropped?)
  }

  /** The driver ended its event stream, or a hand-over to it was refused, while
      the session was still there to see it. */
  predicate DriverDied(script: seq<Stimulus>)
    decreases |script|, 0
  {
    && script != []
    && (|| DriverDied(Front(script))
        || (Last(script).DriverGone? && !HandlesGone(Front(script)))
        || (HandsOver(Front(script), Last(script)) && !Last(script).sendOk))
  }

  /** The session runs and its driver is alive. */
  predicate Up(script: seq<Stimulus>)
    decreases |script|, 1
  {
    !HandlesGone(script) && !DriverDied(script)
  }

  /** The prompts that arrived while the session was up, oldest first. */
  function Arrived(script: seq<Stimulus>): seq<string>
    decreases |script|, 2
  {
    if script == [] then []
    else Arrived(Front(script)) + if Last(script).Prompt? && Up(Front(script)) then [Last(script).text] else []
  }

  /** How many of them it has tried to hand to the driver. */
  function Tried(script: seq<Stimulus>): nat
    decreases |script|, 2
  {
    if script == [] then 0
    else Tried(Front(script)) + if HandsOver(Front(script), Last(script)) then 1 else 0
  }

  /** A hand-over the driver refused. */
  predicate Refused(script: seq<Stimulus>)
    decreases |script|, 2
  {
    script != [] && (Refused(Front(script)) || (HandsOver(Front(script), Last(script)) && !Last(script).sendOk))
  }

  /** When the running turn is given up on, if it has been interrupted. */
  function GivenUpAt(script: seq<Stimulus>): Option<nat>
    decreases |script|, 2
  {
    if script == [] then None
    else
      var before, last := Front(script), Last(script);
      if EndsTurnOf(before, last) then None
      else if Up(before) && InTurn(before) && last.Interrupt? && last.cancelOk then Some(last.now + 5000)
      else GivenUpAt(before)
  }

  /** A prompt was handed over and its turn has not ended since. */
  predicate InTurn(script: seq<Stimulus>)
    decreases |script|, 2
  {
    && script != []
    && (var before, last := Front(script), Last(script);
        if HandsOver(before, last) then last.sendOk else InTurn(before) && !EndsTurnOf(before, last))
  }

  /** `last` ends the current turn: the driver says so, or it was interrupted and
      five seconds have gone by since the latest acknowledgement. */
  predicate EndsTurnOf(before: seq<Stimulus>, last: Stimulus)
    decreases |before|, 3
  {
    && Up(before)
    && match last
       case Event(event, _) => event.StopReason?
       case Expire(now, _) => GivenUpAt(before).Some? && GivenUpAt(before).value <= now
       case _ => false
  }

  /** `last` has a prompt handed to the driver: a new one if no turn is running,
      one that was waiting if a turn ends. */
  predicate HandsOver(before: seq<Stimulus>, last: Stimulus)
    decreases |before|, 4
  {
    && Up(before)
    && match last
       case Prompt(_, _) => !InTurn(before)
       case Event(_, _) => EndsTurnOf(before, last) && Tried(before) < |Arrived(before)|
       case Expire(_, _) => EndsTurnOf(before, last) && Tried(before) < |Arrived(before)|
       case _ => false
  }

  /** The events the driver produced while the session was up. */
  function Heard(script: seq<Stimulus>): seq<DriverEvent> {
    if script == [] then []
    else Heard(Front(script)) + if Last(script).Event? && Up(Front(script)) then [Last(script).event] else []
  }

  /** What the callers are owed, judged by the history. */
  function Owed(script: seq<Stimulus>): seq<Reply> {
    if script == [] then []
    else
      var before, last := Front(script), Last(script);
      Owed(before)
      + if HandlesGone(before) then []
        else match last
          case Interrupt(_, ok) => [if !InTurn(before) then NoTurnInFlight else if ok then CancelSent else CancelFailed]
          case Answer(ok) => [AnswerResult(ok)]
          case IsBusy => [BusyIs(InTurn(before))]
          case IsBlocked => [BlockedIs(FoldBlocked(Heard(before), false))]
          case _ => []
  }

  ghost predicate Told(s: State, script: seq<Stimulus>) {
    && (s.stopped <==> HandlesGone(script))
    && (s.driverAlive <==> !DriverDied(script))
    && (s.busy <==> InTurn(script))
    && s.deadline == GivenUpAt(script)
    && (Refused(script) ==> DriverDied(script) && Tried(script) > 0)
    && Tried(script) <= |Arrived(script)|
    && s.queue == Arrived(script)[Tried(script)..]
    && s.handed == Arrived(script)[..Tried(script) - if Refused(script) then 1 else 0]
    && s.forwarded == Heard(script)
    && s.blocked == FoldBlocked(Heard(script), false)
    && s.replies == Owed(script)
  }

  /** What one more stimulus adds to the history. */
  lemma HistorySnoc(before: seq<Stimulus>, last: Stimulus)
    ensures var all := before + [last];
            && HandlesGone(all) == (HandlesGone(before) || last.HandlesDropped?)
            && DriverDied(all) == (|| DriverDied(before)
                                   || (last.DriverGone? && !HandlesGone(before))
                                   || (HandsOver(before, last) && !last.sendOk))
            && Refused(all) == (Refused(before) || (HandsOver(before, last) && !last.sendOk))
            && Tried(all) == Tried(before) + (if HandsOver(before, last) then 1 else 0)
            && Arrived(all) == Arrived(before) + (if last.Prompt? && Up(before) then [last.text] else [])
            && InTurn(all) == (if HandsOver(before, last) then last.sendOk
                               else InTurn(before) && !EndsTurnOf(before, last))
            && GivenUpAt(all) == (if EndsTurnOf(before, last) then None
                                  else if Up(before) && InTurn(before) && last.Interrupt? && last.cancelOk
                                  then Some(last.now + 5000)
                                  else GivenUpAt(before))
            && Heard(all) == Heard(before) + (if last.Event? && Up(before) then [last.event] else [])
  {
    SnocParts(before, last);
  }

  lemma OwedSnoc(before: seq<Stimulus>, last: Stimulus)
    ensures Owed(before + [last])
            == Owed(before)
               + if HandlesGone(before) then []
                 else match last
                   case Interrupt(_, ok) =>
                     [if !InTurn(before) then NoTurnInFlight else if ok then CancelSent else CancelFailed]
                   case Answer(ok) => [AnswerResult(ok)]
                   case IsBusy => [BusyIs(InTurn(before))]
                   case IsBlocked => [BlockedIs(FoldBlocked(Heard(before), false))]
                   case _ => []
  {
    SnocParts(before, last);
  }

  /** The queue, and what was handed over, as one more prompt arrives or goes. */
  lemma Waiting(arrived: seq<string>, tried: nat)
    requires tried <= |arrived|
    ensures forall text :: (arrived + [text])[tried..] == arrived[tried..] + [text]
    ensures forall text :: (arrived + [text])[..tried] == arrived[..tried]
    ensures tried < |arrived| ==>
              && arrived[tried..] != [] && arrived[tried..][0] == arrived[tried]
              && arrived[tried..][1..] == arrived[tried + 1..]
              && arrived[..tried + 1] == arrived[..tried] + [arrived[tried]]
    ensures tried == |arrived| ==>
              forall text ::
                (arrived + [text])[tried + 1..] == [] && (arrived + [text])[..tried + 1] == arrived + [text]
  {
  }

  lemma PromptTold(s: State, before: seq<Stimulus>, text: string, sendOk: bool)
    requires Told(s, before) && Coherent(s)
    ensures Told(Step(s, Prompt(text, sendOk)), before + [Prompt(text, sendOk)])
  {
    hide HandlesGone, DriverDied, Refused, Tried, Arrived, InTurn, GivenUpAt, Heard, Owed, FoldBlocked;
    HistorySnoc(before, Prompt(text, sendOk));
    OwedSnoc(before, Prompt(text, sendOk));
    Waiting(Arrived(before), Tried(before));
    ConcatAssociates(Heard(before), [], []);
    ConcatAssociates(Owed(before), [], []);
    ConcatAssociates(Arrived(before), [], []);
  }

  lemma TurnEndTold(s: State, before: seq<Stimulus>, last: Stimulus)
    requires Told(s, before) && Coherent(s) && EndsTurn(s, last)
    ensures Told(Step(s, last), before + [last])
  {
    hide HandlesGone, DriverDied, Refused, Tried, Arrived, InTurn, GivenUpAt, Heard, Owed, FoldBlocked;
    HistorySnoc(before, last);
    OwedSnoc(before, last);
    Waiting(Arrived(before), Tried(before));
    ConcatAssociates(Heard(before), [], []);
    ConcatAssociates(Owed(before), [], []);
    ConcatAssociates(Arrived(before), [], []);
    if last.Event? {
      FoldBlockedSnoc(Heard(before), last.event, false);
    }
  }

  lemma OtherTold(s: State, before: seq<Stimulus>, last: Stimulus)
    requires Told(s, before) && Coherent(s) && !EndsTurn(s, last) && !last.Prompt?
    ensures Told(Step(s, last), before + [last])
  {
    hide HandlesGone, DriverDied, Refused, Tried, Arrived, InTurn, GivenUpAt, Heard, Owed, FoldBlocked;
    HistorySnoc(before, last);
    OwedSnoc(before, last);
    ConcatAssociates(Heard(before), [], []);
    ConcatAssociates(Owed(before), [], []);
    ConcatAssociates(Arrived(before), [], []);
    if last.Event? {
      FoldBlockedSnoc(Heard(before), last.event, false);
    }
  }

  /** Over every run the session is exactly what its history tells. */
  lemma {:induction false} StateIsHistory(script: seq<Stimulus>)
    ensures Told(Run(START, script), script)
  {
    if script != [] {
      var before, last := Front(script), Last(script);
      var s := Run(START, before);
      StateIsHistory(before);
      AlwaysCoherent(before);
      assert script == before + [last];
      if last.Prompt? {
        PromptTold(s, before, last.text, last.sendOk);
      } else if EndsTurn(s, last) {
        TurnEndTold(s, before, last);
      } else {
        OtherTold(s, before, last);
      }
    }
  }

  lemma {:induction false} ReceivedIsArrived(script: seq<Stimulus>)
    ensures Received(START, script) == Arrived(script)
  {
    if script != [] {
      ReceivedIsArrived(Front(script));
      StateIsHistory(Front(script));
    }
  }

  lemma Split(arrived: seq<string>, tried: nat)
    requires tried <= |arrived|
    ensures arrived[..tried] + arrived[tried..] == arrived
    ensures arrived[..tried] + [] + arrived[tried..] == arrived
    ensures tried > 0 ==> arrived[..tried - 1] + [arrived[tried - 1]] + arrived[tried..] == arrived
  {
  }

  /** First in, first out, with no loss, told from the stimuli: what was handed to
      the driver, then the one prompt it refused if it refused one, then the
      queue, is exactly what arrived before the driver died. */
  lemma NothingOvertakesOrIsLost(script: seq<Stimulus>)
    returns (refused: seq<string>)
    ensures var s := Run(START, script);
            && (s.driverAlive <==> !DriverDied(script))
            && s.handed + refused + s.queue == Arrived(script)
            && |refused| == (if Refused(script) then 1 else 0)
            && Received(START, script) == Arrived(script)
  {
    hide Arrived, Tried, Refused, DriverDied, Run, Received, InTurn, GivenUpAt, Heard, Owed, HandlesGone, FoldBlocked;
    StateIsHistory(script);
    ReceivedIsArrived(script);
    Split(Arrived(script), Tried(script));
    refused := if Refused(script) then [Arrived(script)[Tried(script) - 1]] else [];
  }

  /** Once the driver has died nothing that comes later is taken in, handed over,
      forwarded or timed out: prompts are dropped, and the turn that was running
      stays marked as running. */
  lemma {:induction false} DeadDriverFreezesTheSession(script: seq<Stimulus>, later: seq<Stimulus>)
    requires DriverDied(script)
    ensures var s, t := Run(START, script), Run(START, script + later);
            && t.queue == s.queue && t.handed == s.handed && t.forwarded == s.forwarded
            && t.busy == s.busy && t.blocked == s.blocked && t.deadline == s.deadline && !t.driverAlive
  {
    if later == [] {
      assert script + later == script;
      StateIsHistory(script);
    } else {
      DeadDriverFreezesTheSession(script, Front(later));
      assert script + later == script + Front(later) + [Last(later)];
      SnocParts(script + Front(later), Last(later));
    }
  }
}
