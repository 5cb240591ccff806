/** What the agent said, told from its sending side: texts wait unread between
    turns, so what is read into a turn may have been sent before its prompt. */
module AgentSpeech {
  import opened Common
  import Acp
  import TurnPipeline

  /** One prompt sent to the agent, with the texts the agent had sent since its
      last stop reason, unasked, and the texts it sent in answer. */
  datatype Speech = Speech(prompt: string, before: seq<string>, during: seq<string>)

  /** The speeches so far, and what was sent after the last stop reason. */
  datatype Record = Record(speeches: seq<Speech>, stray: seq<string>)

  function Whole(speech: Speech): seq<string> {
    speech.before + speech.during
  }

  function RecordAfter(p: TurnPipeline.State, action: TurnPipeline.Action, r: Record): Record {
    match action
    case AcpTakesCommand(true) =>
      if p.commands == [] || p.commands[0].CancelCommand? || !p.acp.running || p.acp.inFlight then r
      else Record(r.speeches + [Speech(p.commands[0].text, r.stray, [])], [])
    case AgentSends(AgentText(text)) =>
      if !p.acp.running then r
      else if !TurnPipeline.Answering(p) || r.speeches == [] then r.(stray := r.stray + [text])
      else
        var last := Last(r.speeches);
        r.(speeches := Front(r.speeches) + [last.(during := last.during + [text])])
    case _ => r
  }

  function Spoken(actions: seq<TurnPipeline.Action>): Record {
    if actions == [] then Record([], [])
    else RecordAfter(TurnPipeline.Run(Front(actions)), Last(actions), Spoken(Front(actions)))
  }

  // ---------------------------------------------------------------------
  // Messages not yet read
  // ---------------------------------------------------------------------

  function TextOf(message: Acp.Stimulus): seq<string> {
    if message.AgentText? then [message.text] else []
  }

  function Texts(inbox: seq<Acp.Stimulus>): seq<string> {
    if inbox == [] then [] else TextOf(inbox[0]) + Texts(inbox[1..])
  }

  function Stops(inbox: seq<Acp.Stimulus>): nat {
    if inbox == [] then 0 else Stops(inbox[1..]) + if inbox[0].AgentStopped? then 1 else 0
  }

  /** The texts that still belong to the turn in flight. */
  function UntilStop(inbox: seq<Acp.Stimulus>): seq<string> {
    if inbox == [] || inbox[0].AgentStopped? then [] else TextOf(inbox[0]) + UntilStop(inbox[1..])
  }

  function AfterStop(inbox: seq<Acp.Stimulus>): seq<string> {
    if inbox == [] then [] else if inbox[0].AgentStopped? then Texts(inbox[1..]) else AfterStop(inbox[1..])
  }

  lemma {:induction false} NoStops(inbox: seq<Acp.Stimulus>)
    ensures Stops(inbox) == 0 <==> forall i :: 0 <= i < |inbox| ==> !inbox[i].AgentStopped?
    ensures Stops(inbox) == 0 ==> UntilStop(inbox) == Texts(inbox) && AfterStop(inbox) == []
  {
    if inbox != [] {
      NoStops(inbox[1..]);
      assert forall i :: 0 < i < |inbox| ==> inbox[i] == inbox[1..][i - 1];
      assert forall i :: 0 <= i < |inbox[1..]| ==> inbox[1..][i] == inbox[i + 1];
    }
  }

  lemma {:induction false} TextsSnoc(inbox: seq<Acp.Stimulus>, message: Acp.Stimulus)
    ensures Texts(inbox + [message]) == Texts(inbox) + TextOf(message)
    ensures Stops(inbox + [message]) == Stops(inbox) + if message.AgentStopped? then 1 else 0
  {
    if inbox == [] {
      assert [message][1..] == [];
      ConcatAssociates([], [], TextOf(message));
      ConcatAssociates(TextOf(message), [], []);
    } else {
      assert (inbox + [message])[1..] == inbox[1..] + [message];
      TextsSnoc(inbox[1..], message);
      ConcatAssociates(TextOf(inbox[0]), Texts(inbox[1..]), TextOf(message));
    }
  }

  lemma {:induction false} StopSnoc(inbox: seq<Acp.Stimulus>, message: Acp.Stimulus)
    ensures UntilStop(inbox + [message]) == UntilStop(inbox) + if Stops(inbox) == 0 then TextOf(message) else []
    ensures AfterStop(inbox + [message]) == AfterStop(inbox) + if Stops(inbox) == 0 then [] else TextOf(message)
  {
    if inbox == [] {
      assert [message][1..] == [];
      ConcatAssociates([], [], TextOf(message));
      ConcatAssociates(TextOf(message), [], []);
    } else {
      assert (inbox + [message])[1..] == inbox[1..] + [message];
      if inbox[0].AgentStopped? {
        TextsSnoc(inbox[1..], message);
      } else {
        StopSnoc(inbox[1..], message);
        ConcatAssociates(TextOf(inbox[0]), UntilStop(inbox[1..]), if Stops(inbox) == 0 then TextOf(message) else []);
      }
    }
  }

  // ---------------------------------------------------------------------
  // Read and sent agree
  // ---------------------------------------------------------------------

  ghost predicate Waits(p: TurnPipeline.State, exchanges: seq<Acp.Exchange>, r: Record)
    requires |exchanges| == |r.speeches| && (p.acp.inFlight ==> exchanges != [])
  {
    if p.acp.inFlight
    then Stops(p.inbox) <= 1 && AfterStop(p.inbox) == r.stray
         && Last(exchanges).texts + UntilStop(p.inbox) == Whole(Last(r.speeches))
    else Stops(p.inbox) == 0 && Texts(p.inbox) == r.stray
  }

  /** Closed exchanges read what was sent up to their stop reason, and what the
      open one has still to read is waiting. */
  ghost predicate Matches(p: TurnPipeline.State, exchanges: seq<Acp.Exchange>, r: Record) {
    && |exchanges| == |r.speeches|
    && (p.acp.inFlight ==> exchanges != [])
    && (forall k :: 0 <= k < |exchanges| ==> exchanges[k].prompt == r.speeches[k].prompt)
    && (forall k :: 0 <= k < |exchanges| - (if p.acp.inFlight then 1 else 0) ==>
          exchanges[k].texts == Whole(r.speeches[k]))
    && (p.acp.running ==> Waits(p, exchanges, r))
  }

  lemma PromptMatches(p: TurnPipeline.State, exchanges: seq<Acp.Exchange>, r: Record, text: string)
    requires Matches(p, exchanges, r) && p.acp.running && !p.acp.inFlight
    ensures var q := p.(acp := p.acp.(inFlight := true));
            Matches(q, exchanges + [Acp.Exchange(text, [])], Record(r.speeches + [Speech(text, r.stray, [])], []))
  {
    hide UntilStop, AfterStop, Texts, Stops;
    NoStops(p.inbox);
    SnocParts(exchanges, Acp.Exchange(text, []));
    SnocParts(r.speeches, Speech(text, r.stray, []));
    ConcatAssociates(r.stray, [], []);
    ConcatAssociates([], [], r.stray);
  }

  lemma AnswerMatches(p: TurnPipeline.State, exchanges: seq<Acp.Exchange>, r: Record, text: string)
    requires Matches(p, exchanges, r) && p.acp.running && TurnPipeline.Answering(p)
    ensures var last := Last(r.speeches);
            Matches(p.(inbox := p.inbox + [Acp.AgentText(text)]), exchanges,
                    r.(speeches := Front(r.speeches) + [last.(during := last.during + [text])]))
  {
    hide UntilStop, AfterStop, Texts, Stops;
    var last, message := Last(r.speeches), Acp.AgentText(text);
    NoStops(p.inbox);
    TextsSnoc(p.inbox, message);
    StopSnoc(p.inbox, message);
    ConcatAssociates(r.stray, [], []);
    ConcatAssociates(Last(exchanges).texts, UntilStop(p.inbox), [text]);
    ConcatAssociates(last.before, last.during, [text]);
    SnocParts(Front(r.speeches), last.(during := last.during + [text]));
  }

  lemma StrayMatches(p: TurnPipeline.State, exchanges: seq<Acp.Exchange>, r: Record, text: string)
    requires Matches(p, exchanges, r) && p.acp.running && !TurnPipeline.Answering(p)
    ensures Matches(p.(inbox := p.inbox + [Acp.AgentText(text)]), exchanges, r.(stray := r.stray + [text]))
  {
    hide UntilStop, AfterStop, Texts, Stops;
    NoStops(p.inbox);
    TextsSnoc(p.inbox, Acp.AgentText(text));
    StopSnoc(p.inbox, Acp.AgentText(text));
    ConcatAssociates(UntilStop(p.inbox), [], []);
  }

  lemma NoticeMatches(p: TurnPipeline.State, exchanges: seq<Acp.Exchange>, r: Record, message: Acp.Stimulus)
    requires Matches(p, exchanges, r) && p.acp.running && !message.AgentText?
    requires message.AgentStopped? ==> TurnPipeline.Answering(p)
    ensures Matches(p.(inbox := p.inbox + [message]), exchanges, r)
  {
    hide UntilStop, AfterStop, Texts, Stops;
    NoStops(p.inbox);
    TextsSnoc(p.inbox, message);
    StopSnoc(p.inbox, message);
    ConcatAssociates(UntilStop(p.inbox), [], []);
    ConcatAssociates(AfterStop(p.inbox), [], []);
    ConcatAssociates(Texts(p.inbox), [], []);
  }

  lemma SomeoneAsked(p: TurnPipeline.State, exchanges: seq<Acp.Exchange>, r: Record)
    requires Matches(p, exchanges, r) && TurnPipeline.Answering(p)
    ensures r.speeches != []
  {
  }

  lemma SendMatches(p: TurnPipeline.State, exchanges: seq<Acp.Exchange>, r: Record, message: Acp.Stimulus)
    requires Matches(p, exchanges, r) && TurnPipeline.MaySend(p, message)
    ensures Matches(p.(inbox := p.inbox + [message]), exchanges, RecordAfter(p, TurnPipeline.AgentSends(message), r))
  {
    hide Matches, TurnPipeline.Answering;
    if !message.AgentText? {
      NoticeMatches(p, exchanges, r, message);
    } else if TurnPipeline.Answering(p) {
      SomeoneAsked(p, exchanges, r);
      AnswerMatches(p, exchanges, r, message.text);
    } else {
      StrayMatches(p, exchanges, r, message.text);
    }
  }

  /** Reading a message other than a stop reason leaves what follows the stop. */
  lemma ReadsOn(inbox: seq<Acp.Stimulus>)
    requires inbox != []
    ensures !inbox[0].AgentStopped? ==>
              Stops(inbox[1..]) == Stops(inbox) && AfterStop(inbox[1..]) == AfterStop(inbox)
              && UntilStop(inbox) == TextOf(inbox[0]) + UntilStop(inbox[1..])
    ensures inbox[0].AgentStopped? ==>
              Stops(inbox[1..]) == Stops(inbox) - 1 && AfterStop(inbox) == Texts(inbox[1..]) && UntilStop(inbox) == []
  {
  }

  lemma ReadTextMatches(p: TurnPipeline.State, exchanges: seq<Acp.Exchange>, r: Record)
    requires Matches(p, exchanges, r) && TurnPipeline.MayRead(p) && p.inbox[0].AgentText?
    ensures var last := Last(exchanges);
            Matches(p.(inbox := p.inbox[1..]),
                    Front(exchanges) + [last.(texts := last.texts + [p.inbox[0].text])], r)
  {
    hide AfterStop, Texts;
    var last := Last(exchanges);
    ReadsOn(p.inbox);
    ConcatAssociates(last.texts, [p.inbox[0].text], UntilStop(p.inbox[1..]));
    SnocParts(Front(exchanges), last.(texts := last.texts + [p.inbox[0].text]));
  }

  lemma ReadMatches(p: TurnPipeline.State, exchanges: seq<Acp.Exchange>, r: Record)
    requires Matches(p, exchanges, r) && TurnPipeline.MayRead(p) && TurnPipeline.IsAgentMessage(p.inbox[0])
    ensures var a := Acp.Step(p.acp, p.inbox[0]);
            Matches(p.(acp := a, inbox := p.inbox[1..]), Acp.ExchangesAfter(p.acp, p.inbox[0], exchanges), r)
  {
    if p.inbox[0].AgentText? {
      hide Texts, UntilStop, AfterStop, Stops;
      ReadTextMatches(p, exchanges, r);
    } else {
      hide Texts, UntilStop, AfterStop, Stops;
      ReadsOn(p.inbox);
      ConcatAssociates([], [], UntilStop(p.inbox[1..]));
      ConcatAssociates(Last(exchanges).texts, [], []);
    }
  }

  /** What `Matches` looks at. */
  lemma MatchesSame(p: TurnPipeline.State, q: TurnPipeline.State, exchanges: seq<Acp.Exchange>, r: Record)
    requires Matches(p, exchanges, r) && q.inbox == p.inbox && q.acp.inFlight == p.acp.inFlight
    requires q.acp.running ==> p.acp.running
    ensures Matches(q, exchanges, r)
  {
  }

  /** Which actions touch the inbox. */
  lemma StepMovesInbox(p: TurnPipeline.State, action: TurnPipeline.Action)
    ensures TurnPipeline.Step(p, action).inbox
            == match action
               case AgentSends(message) =>
                 if TurnPipeline.MaySend(p, message) then p.inbox + [message] else p.inbox
               case LoopReads => if TurnPipeline.MayRead(p) then p.inbox[1..] else p.inbox
               case _ => p.inbox
  {
  }

  lemma NotSent(p: TurnPipeline.State, message: Acp.Stimulus, r: Record)
    requires !TurnPipeline.MaySend(p, message)
    ensures RecordAfter(p, TurnPipeline.AgentSends(message), r) == r
  {
  }

  lemma StepMatches(p: TurnPipeline.State, action: TurnPipeline.Action, exchanges: seq<Acp.Exchange>, r: Record)
    requires Matches(p, exchanges, r)
    requires forall i :: 0 <= i < |p.inbox| ==> TurnPipeline.IsAgentMessage(p.inbox[i])
    ensures var input := TurnPipeline.AcpInput(p, action);
            Matches(TurnPipeline.Step(p, action),
                    if input.Some? then Acp.ExchangesAfter(p.acp, input.value, exchanges) else exchanges,
                    RecordAfter(p, action, r))
  {
    hide TurnPipeline.Step, Matches;
    var q := TurnPipeline.Step(p, action);
    TurnPipeline.StepMovesLoop(p, action);
    StepMovesInbox(p, action);
    match action
    case AgentSends(message) =>
      if TurnPipeline.MaySend(p, message) {
        SendMatches(p, exchanges, r, message);
        MatchesSame(p.(inbox := p.inbox + [message]), q, exchanges, RecordAfter(p, action, r));
      } else {
        NotSent(p, message, r);
        MatchesSame(p, q, exchanges, r);
      }
    case LoopReads =>
      if TurnPipeline.MayRead(p) {
        ReadMatches(p, exchanges, r);
        MatchesSame(p.(acp := q.acp, inbox := p.inbox[1..]), q, Acp.ExchangesAfter(p.acp, p.inbox[0], exchanges), r);
      } else {
        MatchesSame(p, q, exchanges, r);
      }
    case AcpTakesCommand(sendOk) =>
      if p.commands != [] && p.commands[0].PromptCommand? && p.acp.running && !p.acp.inFlight && sendOk {
        PromptMatches(p, exchanges, r, p.commands[0].text);
        MatchesSame(p.(acp := p.acp.(inFlight := true)), q, exchanges + [Acp.Exchange(p.commands[0].text, [])],
                    RecordAfter(p, action, r));
      } else {
        MatchesSame(p, q, exchanges, r);
      }
    case _ => MatchesSame(p, q, exchanges, r);
  }

  lemma {:induction false} AlwaysMatches(actions: seq<TurnPipeline.Action>)
    ensures Matches(TurnPipeline.Run(actions), TurnPipeline.Exchanges(actions), Spoken(actions))
  {
    if actions == [] {
      assert TurnPipeline.Run([]) == TurnPipeline.START && TurnPipeline.Exchanges([]) == [];
    } else {
      hide Matches, RecordAfter, TurnPipeline.Step, Acp.ExchangesAfter;
      AlwaysMatches(Front(actions));
      TurnPipeline.AlwaysKept(Front(actions));
      StepMatches(TurnPipeline.Run(Front(actions)), Last(actions), TurnPipeline.Exchanges(Front(actions)),
                  Spoken(Front(actions)));
    }
  }

  /** In every run, what a finished turn read is what the agent sent between its
      stop reasons: any texts it sent unasked before the turn's prompt, and then
      its answer to that prompt. So the turn is the answer alone exactly when
      nothing was sent unasked before it. */
  lemma {:induction false} TurnsReadWhatWasSent(actions: seq<TurnPipeline.Action>, k: nat)
    requires k < |TurnPipeline.Exchanges(actions)| - (if TurnPipeline.Run(actions).acp.inFlight then 1 else 0)
    ensures var exchange := TurnPipeline.Exchanges(actions)[k];
            && k < |Spoken(actions).speeches|
            && var speech := Spoken(actions).speeches[k];
               && exchange.prompt == speech.prompt
               && exchange.texts == speech.before + speech.during
               && (exchange.texts == speech.during <==> speech.before == [])
  {
    hide TurnPipeline.Run, TurnPipeline.Exchanges, Spoken;
    AlwaysMatches(actions);
    var speech := Spoken(actions).speeches[k];
    ConcatAssociates([], [], speech.during);
    assert |speech.before + speech.during| == |speech.before| + |speech.during|;
  }
}
