/** Which turn a reply frame belongs to, and the id it carries. */
module TurnIds {
  import opened Common
  import opened DriverEvents
  import opened WireLoop
  import opened WireTheorems
  import Coalescing

  predicate ReplyOf(f: Frame, session: string) {
    f.Reply? && f.session == session
  }

  /** Every reply frame of the session's k-th turn carries the k-th id. A frame's
      turn is told by the `done` frames before it. */
  ghost predicate Indexed(sent: seq<Frame>, session: string, ids: seq<string>) {
    forall i :: 0 <= i < |sent| && ReplyOf(sent[i], session) ==>
      && DoneFrames(sent[..i], session) < |ids|
      && sent[i].id == Wire(ids[DoneFrames(sent[..i], session)])
  }

  /** What a step adds for the session before a `done` frame of its own. */
  ghost predicate Adds(before: seq<Frame>, after: seq<Frame>, session: string) {
    && before <= after
    && forall i :: |before| <= i < |after| ==> DoneFrames(after[..i], session) == DoneFrames(before, session)
  }

  lemma {:induction false} NotDoneKeepsCount(before: seq<Frame>, after: seq<Frame>, i: nat, session: string)
    requires before <= after && |before| <= i <= |after|
    requires forall k :: |before| <= k < i ==> after[k].Reply? ==> !after[k].done
    ensures DoneFrames(after[..i], session) == DoneFrames(before, session)
  {
    if i == |before| {
      assert after[..i] == before;
    } else {
      NotDoneKeepsCount(before, after, i - 1, session);
      assert after[..i] == after[..i - 1] + [after[i - 1]];
      SnocParts(after[..i - 1], after[i - 1]);
    }
  }

  lemma OneReplyAdds(s: State, id: Id, b: Coalescing.Batch, sendOk: bool)
    ensures var t := SendReply(s, id, b.session, b.chunks, false, sendOk);
            && s.sent <= t.sent
            && forall k :: |s.sent| <= k < |t.sent| ==>
                 t.sent[k].Reply? && !t.sent[k].done && t.sent[k].session == b.session
  {
  }

  /** A flush adds reply frames of the sessions it releases, none of them `done`. */
  lemma {:induction false} SendAllAdds(s: State, batches: seq<Coalescing.Batch>, sends: nat)
    ensures var t := SendAll(s, batches, sends);
            && s.sent <= t.sent
            && forall k :: |s.sent| <= k < |t.sent| ==>
                 t.sent[k].Reply? && !t.sent[k].done
                 && exists j :: 0 <= j < |batches| && batches[j].session == t.sent[k].session
    decreases |batches|
  {
    if batches != [] && s.exit == Running {
      var b, rest := batches[0], batches[1..];
      var m := Mint(s, b.session);
      var next := SendReply(m, ReplyId(s, b.session), b.session, b.chunks, false, sends > 0);
      var left := if sends > 0 then sends - 1 else 0;
      OneReplyAdds(m, ReplyId(s, b.session), b, sends > 0);
      SendAllAdds(next, rest, left);
      var t := SendAll(s, batches, sends);
      assert t == SendAll(next, rest, left);
      forall k | |s.sent| <= k < |t.sent|
        ensures t.sent[k].Reply? && !t.sent[k].done
                && exists j :: 0 <= j < |batches| && batches[j].session == t.sent[k].session
      {
        if k < |next.sent| {
          assert batches[0].session == t.sent[k].session;
        } else {
          var j :| 0 <= j < |rest| && rest[j].session == t.sent[k].session;
          assert batches[j + 1] == rest[j];
        }
      }
    }
  }

  lemma EventAddsOne(s: State, owner: string, event: DriverEvent, now: nat, sendOk: bool)
    ensures var t := OnEvent(s, owner, event, now, sendOk);
            && s.sent <= t.sent && |t.sent| <= |s.sent| + 1
            && (forall k :: |s.sent| <= k < |t.sent| && t.sent[k].Reply? ==>
                  t.sent[k].session == owner && !event.Status?)
  {
    var id := ReplyId(s, owner);
    var t := Mint(s, owner);
    if event.Update? {
      var (pending, batch) := Coalescing.Push(t.pending, MAX_BYTES, owner, event.text, now);
      if batch.Some? {
        hide SendReply;
        SendReplyShape(t.(pending := pending), id, owner, batch.value, false, sendOk);
      }
    } else if event.StopReason? {
      hide SendReply;
      var u := t.(pending := t.pending - {owner}, lastPromptId := t.lastPromptId - {owner});
      SendReplyShape(u, id, owner, Coalescing.Buffered(t.pending, owner), true, sendOk);
    }
  }

  /** Any step but a flush adds at most one frame. */
  lemma OthersAddOne(s: State, stimulus: Stimulus)
    requires !stimulus.Flush?
    ensures var t := Step(s, stimulus);
            s.sent <= t.sent && |t.sent| <= |s.sent| + 1
  {
    if s.exit == Running && stimulus.Event? {
      EventAddsOne(s, stimulus.session, stimulus.event, stimulus.now, stimulus.sendOk);
    } else if s.exit == Running {
      PlainStep(s, stimulus);
    }
  }

  /** The step may put text of this session, or the end of its turn, on the wire. */
  predicate Speaks(s: State, stimulus: Stimulus, session: string) {
    match stimulus
    case Event(owner, event, _, _) => owner == session && !event.Status?
    case Flush(_, _, _) => Coalescing.Buffered(s.pending, session) != []
    case _ => false
  }

  lemma FlushIsSilent(s: State, now: nat, order: seq<string>, sends: nat, session: string)
    requires s.exit == Running && Coalescing.WellFormed(s.pending, MAX_BYTES)
    ensures var t := Step(s, Flush(now, order, sends));
            && Adds(s.sent, t.sent, session)
            && (Coalescing.Buffered(s.pending, session) == [] ==>
                  forall k :: |s.sent| <= k < |t.sent| ==> !ReplyOf(t.sent[k], session))
  {
    hide SendAll, DoneFrames, Coalescing.Release, Coalescing.Expired;
    var keys := Coalescing.Expired(s.pending, WINDOW, now, order);
    var (rest, out) := Coalescing.Release(s.pending, keys);
    Coalescing.ReleaseIsWhole(s.pending, keys);
    SendAllAdds(s.(pending := rest), out, sends);
    var t := SendAll(s.(pending := rest), out, sends);
    forall i | |s.sent| <= i < |t.sent| ensures DoneFrames(t.sent[..i], session) == DoneFrames(s.sent, session) {
      NotDoneKeepsCount(s.sent, t.sent, i, session);
    }
    forall k | |s.sent| <= k < |t.sent| && ReplyOf(t.sent[k], session)
      ensures Coalescing.Buffered(s.pending, session) != []
    {
      var j :| 0 <= j < |out| && out[j].session == t.sent[k].session;
      assert out[j] in out;
    }
  }

  lemma OneFrameAdds(before: seq<Frame>, after: seq<Frame>, session: string)
    requires before <= after && |after| <= |before| + 1
    ensures Adds(before, after, session)
  {
    hide DoneFrames;
    assert after[..|before|] == before;
  }

  lemma OthersAreSilent(s: State, stimulus: Stimulus, session: string)
    requires s.exit == Running && !stimulus.Flush?
    ensures var t := Step(s, stimulus);
            !Speaks(s, stimulus, session) ==>
              forall k :: |s.sent| <= k < |t.sent| ==> !ReplyOf(t.sent[k], session)
  {
    hide OnEvent;
    if stimulus.Event? {
      EventAddsOne(s, stimulus.session, stimulus.event, stimulus.now, stimulus.sendOk);
    } else {
      PlainStep(s, stimulus);
    }
  }

  lemma StepAdds(s: State, stimulus: Stimulus, session: string)
    requires s.exit == Running && Coalescing.WellFormed(s.pending, MAX_BYTES)
    ensures var t := Step(s, stimulus);
            && Adds(s.sent, t.sent, session)
            && (!Speaks(s, stimulus, session) ==>
                  forall k :: |s.sent| <= k < |t.sent| ==> !ReplyOf(t.sent[k], session))
  {
    hide Step, Adds, OnEvent, DoneFrames;
    if stimulus.Flush? {
      FlushIsSilent(s, stimulus.now, stimulus.order, stimulus.sends, session);
    } else {
      OthersAddOne(s, stimulus);
      OneFrameAdds(s.sent, Step(s, stimulus).sent, session);
      OthersAreSilent(s, stimulus, session);
    }
  }

  /** The id of the turn under way, if its prompt has come. */
  function Current(ids: seq<string>, turn: nat): Option<string> {
    if turn < |ids| then Some(ids[turn]) else None
  }

  /** While the loop remembers the id of the turn under way, frames are indexed:
      all it needs is that nothing is said before a prompt has come. */
  lemma StepIndexed(s: State, stimulus: Stimulus, session: string, ids: seq<string>)
    requires s.exit == Running && Coalescing.WellFormed(s.pending, MAX_BYTES)
    requires Indexed(s.sent, session, ids)
    requires Remembers(s, session, Current(ids, DoneFrames(s.sent, session)))
    requires Speaks(s, stimulus, session) ==> DoneFrames(s.sent, session) < |ids|
    ensures Indexed(Step(s, stimulus).sent, session, ids)
  {
    hide DoneFrames, Step;
    StepAdds(s, stimulus, session);
    StepCorrelates(s, stimulus);
    var t := Step(s, stimulus);
    forall i | 0 <= i < |t.sent| && ReplyOf(t.sent[i], session)
      ensures DoneFrames(t.sent[..i], session) < |ids|
      ensures t.sent[i].id == Wire(ids[DoneFrames(t.sent[..i], session)])
    {
      if i < |s.sent| {
        assert t.sent[..i] == s.sent[..i] && t.sent[i] == s.sent[i];
      }
    }
  }

  lemma MoreIdsKeepIndexed(sent: seq<Frame>, session: string, ids: seq<string>, id: string)
    requires Indexed(sent, session, ids)
    ensures Indexed(sent, session, ids + [id])
  {
    hide DoneFrames;
  }

  /** Frames that are not replies of the session leave it indexed. */
  lemma OthersKeepIndexed(before: seq<Frame>, f: Frame, session: string, ids: seq<string>)
    requires Indexed(before, session, ids) && !ReplyOf(f, session)
    ensures Indexed(before + [f], session, ids)
    ensures DoneFrames(before + [f], session) == DoneFrames(before, session)
  {
    SnocParts(before, f);
    forall i | 0 <= i < |before| ensures (before + [f])[..i] == before[..i] {
    }
  }
}
