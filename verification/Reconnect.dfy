/** Reconnecting with backoff, and the live-state file (src/connection.rs: `run`,
    `backoff_with_full_jitter`, `sleep_or_detach`, `ConnectionStateStore`). */
module Reconnect {
  import opened Common

  const BACKOFF_BASE: nat := 1000           // milliseconds
  const BACKOFF_CAP: nat := 30_000
  const DETACH_POLL_INTERVAL: nat := 500
  const U64_MAX: nat := 0xFFFF_FFFF_FFFF_FFFF

  function Min(a: nat, b: nat): nat {
    if a <= b then a else b
  }

  /** `u64::saturating_mul`. */
  function SaturatingMul(a: nat, b: nat): nat {
    Min(a * b, U64_MAX)
  }

  function Backoff(attempt: nat, base: nat, cap: nat, random: nat): nat {
    var shift := Min(if attempt == 0 then 0 else attempt - 1, 20);
    var capped := Min(SaturatingMul(base, Pow2(shift)), cap);
    random % (capped + 1)
  }

  /** The longest the n-th consecutive wait may be: 1 s doubling up to 30 s. */
  function Ceiling(n: nat): nat
    requires n > 0
  {
    Min(BACKOFF_BASE * Pow2(n - 1), BACKOFF_CAP)
  }

  lemma {:induction false} Pow2Grows(n: nat, m: nat)
    requires n <= m
    ensures 0 < Pow2(n) <= Pow2(m)
    decreases m
  {
    if n < m {
      Pow2Grows(n, m - 1);
    } else if n > 0 {
      Pow2Grows(n - 1, m - 1);
    }
  }

  lemma SmallPowers()
    ensures Pow2(0) == 1 && Pow2(1) == 2 && Pow2(2) == 4 && Pow2(3) == 8 && Pow2(4) == 16 && Pow2(5) == 32
    ensures Pow2(20) == 1_048_576
  {
    assert Pow2(5) == 32;
    assert Pow2(10) == 1024;
    assert Pow2(15) == 32_768;
  }

  /** The clamped, saturated exponent always comes to the plain ceiling. */
  lemma ShiftNeverSaturates(attempt: nat)
    requires attempt > 0
    ensures BACKOFF_BASE * Pow2(Min(attempt - 1, 20)) <= U64_MAX
    ensures Min(SaturatingMul(BACKOFF_BASE, Pow2(Min(attempt - 1, 20))), BACKOFF_CAP) == Ceiling(attempt)
  {
    SmallPowers();
    if attempt - 1 >= 20 {
      Pow2Grows(20, attempt - 1);
    } else {
      Pow2Grows(attempt - 1, 20);
    }
  }

  lemma RemainderRange(n: nat, bound: nat)
    ensures n % (bound + 1) <= bound
    ensures n <= bound ==> n % (bound + 1) == n
  {
  }

  /** A wait never exceeds the ceiling and every value up to it can be drawn:
      neither the shift clamp nor 64-bit saturation ever changes the range. */
  lemma BackoffIsFullJitter(attempt: nat, random: nat, wait: nat)
    requires attempt > 0
    ensures Backoff(attempt, BACKOFF_BASE, BACKOFF_CAP, random) <= Ceiling(attempt)
    ensures wait <= Ceiling(attempt) ==> Backoff(attempt, BACKOFF_BASE, BACKOFF_CAP, wait) == wait
  {
    ShiftNeverSaturates(attempt);
    RemainderRange(random, Ceiling(attempt));
    RemainderRange(wait, Ceiling(attempt));
  }

  /** `sleep_or_detach`: sleep in slices, polling for the marker after each.
      `markerAt` is when another process drops it, if it ever does. */
  method SleepOrDetach(delay: nat, markerAt: Option<nat>) returns (detached: bool, slept: nat)
    ensures detached <==> delay > 0 && markerAt.Some? && markerAt.value <= delay
    ensures slept <= delay && (!detached ==> slept == delay)
    ensures detached ==>
              && markerAt.value <= slept && (slept < markerAt.value + 500 || slept <= 500)
              && (slept == delay || slept % 500 == 0)
  {
    slept := 0;
    while slept < delay
      invariant slept <= delay
      invariant slept == delay || slept % DETACH_POLL_INTERVAL == 0
      invariant slept > 0 && markerAt.Some? ==> slept < markerAt.value
    {
      var slice := Min(delay - slept, DETACH_POLL_INTERVAL);
      slept := slept + slice;
      if markerAt.Some? && markerAt.value <= slept {
        return true, slept;
      }
    }
    detached := false;
  }

  // ---------------------------------------------------------------------
  // The reconnect loop
  // ---------------------------------------------------------------------

  datatype Connect = Accepted | Rejected | Unreachable

  datatype SessionEnd = EndedDetached | EndedDropped

  /** What one pass through the loop meets. The markers say whether another
      process asked for a detach before the check at the top, while connecting
      or connected, or during the wait. */
  datatype Pass = Pass(
    markerAtTop: bool,
    connect: Connect,
    markerWhileUp: bool,
    end: SessionEnd,
    random: nat,
    markerInWait: bool)

  datatype Outcome = Looping | ReturnedOk | ReturnedRejected

  /** `streak` lists the waits since the last successful handshake, `writes` what
      was done to the live-state file, `None` being its removal. */
  datatype State = State(
    attempt: nat,
    stateFile: Option<string>,
    marker: bool,
    streak: seq<nat>,
    writes: seq<Option<string>>,
    outcome: Outcome)

  function Write(s: State, content: Option<string>): State {
    s.(stateFile := content, writes := s.writes + [content])
  }

  function StopDetached(s: State): State {
    Write(s.(marker := false, outcome := ReturnedOk), None)
  }

  /** Backoff and wait; a zero wait returns without polling for the marker. */
  function Wait(s: State, pass: Pass): State {
    var attempt := s.attempt + 1;
    var delay := Backoff(attempt, BACKOFF_BASE, BACKOFF_CAP, pass.random);
    var waited := Write(s.(attempt := attempt, streak := s.streak + [delay], marker := s.marker || pass.markerInWait),
                        Some("reconnecting"));
    if delay > 0 && waited.marker then StopDetached(waited) else waited
  }

  function Step(s: State, pass: Pass): State {
    if s.outcome != Looping then s
    else
      var top := s.(marker := s.marker || pass.markerAtTop);
      if top.marker then StopDetached(top)
      else
        var up := Write(top.(marker := pass.markerWhileUp),
                        Some(if s.attempt > 0 then "reconnecting" else "connecting"));
        match pass.connect
        case Rejected => Write(up.(outcome := ReturnedRejected), None)
        case Unreachable => Wait(up, pass)
        case Accepted =>
          var live := Write(up.(attempt := 0, streak := []), Some("connected"));
          // The session loop only detaches because it saw the marker.
          if pass.end == EndedDetached then StopDetached(live) else Wait(live, pass)
  }

  function Run(s: State, passes: seq<Pass>): State {
    if passes == [] then s else Step(Run(s, Front(passes)), Last(passes))
  }

  /** The loop as it starts; a state file or marker may be left from before. */
  function Begin(stateFile: Option<string>, marker: bool): State {
    State(0, stateFile, marker, [], [], Looping)
  }

  /** `run` as it runs: local state and the two files, updated in place. */
  class ReconnectLoop {
    var attempt: nat
    var stateFile: Option<string>
    var marker: bool
    var waits: seq<nat>
    var writes: seq<Option<string>>
    var outcome: Outcome

    ghost function View(): State
      reads this
    {
      State(attempt, stateFile, marker, waits, writes, outcome)
    }

    constructor (leftoverFile: Option<string>, leftoverMarker: bool)
      ensures View() == Begin(leftoverFile, leftoverMarker)
    {
      attempt, stateFile, marker, waits, writes, outcome := 0, leftoverFile, leftoverMarker, [], [], Looping;
    }

    method WriteState(content: Option<string>)
      modifies this`stateFile, this`writes
      ensures View() == Write(old(View()), content)
    {
      stateFile := content;
      writes := writes + [content];
    }

    method ReturnDetached()
      modifies this
      ensures View() == StopDetached(old(View()))
    {
      marker := false;
      WriteState(None);
      outcome := ReturnedOk;
    }

    method BackOff(pass: Pass)
      modifies this
      ensures View() == Wait(old(View()), pass)
    {
      attempt := attempt + 1;
      WriteState(Some("reconnecting"));
      var delay := Backoff(attempt, BACKOFF_BASE, BACKOFF_CAP, pass.random);
      waits := waits + [delay];
      marker := marker || pass.markerInWait;
      var detached, _ := SleepOrDetach(delay, if marker then Some(0) else None);
      if detached {
        ReturnDetached();
      }
    }

    method TryOnce(pass: Pass)
      requires outcome == Looping
      modifies this
      ensures View() == Step(old(View()), pass)
    {
      marker := marker || pass.markerAtTop;
      if marker {
        ReturnDetached();
        return;
      }
      WriteState(Some(if attempt > 0 then "reconnecting" else "connecting"));
      marker := pass.markerWhileUp;
      match pass.connect
      case Rejected =>
        WriteState(None);
        outcome := ReturnedRejected;
      case Unreachable => BackOff(pass);
      case Accepted =>
        attempt, waits := 0, [];
        WriteState(Some("connected"));
        if pass.end == EndedDetached {
          ReturnDetached();
        } else {
          BackOff(pass);
        }
    }

    method Serve(passes: seq<Pass>)
      modifies this
      ensures View() == Run(old(View()), passes)
    {
      for i := 0 to |passes|
        invariant View() == Run(old(View()), passes[..i])
      {
        SnocParts(passes[..i], passes[i]);
        assert passes[..i + 1] == passes[..i] + [passes[i]];
        if outcome == Looping {
          TryOnce(passes[i]);
        }
      }
      assert passes[..|passes|] == passes;
    }
  }

  function Sum(waits: seq<nat>): nat {
    if waits == [] then 0 else Sum(Front(waits)) + Last(waits)
  }

  ghost predicate Sound(s: State) {
    && (s.outcome == Looping ==> s.attempt == |s.streak|)
    && (s.outcome == Looping && s.streak != [] ==> s.stateFile == Some("reconnecting"))
    && (forall i :: 0 <= i < |s.streak| ==> s.streak[i] <= Ceiling(i + 1))
    && (s.outcome != Looping ==> s.stateFile == None)
    && (s.outcome == ReturnedOk ==> !s.marker)
  }

  lemma WaitKeepsSound(s: State, pass: Pass)
    requires s.outcome == Looping && Sound(s)
    ensures Sound(Wait(s, pass))
  {
    BackoffIsFullJitter(s.attempt + 1, pass.random, 0);
  }

  lemma StepKeepsSound(s: State, pass: Pass)
    requires Sound(s)
    ensures Sound(Step(s, pass))
  {
    if s.outcome == Looping && !s.marker && !pass.markerAtTop {
      var up := Write(s.(marker := pass.markerWhileUp), Some(if s.attempt > 0 then "reconnecting" else "connecting"));
      WaitKeepsSound(up, pass);
      WaitKeepsSound(Write(up.(attempt := 0, streak := []), Some("connected")), pass);
    }
  }

  lemma {:induction false} AlwaysSound(stateFile: Option<string>, marker: bool, passes: seq<Pass>)
    ensures Sound(Run(Begin(stateFile, marker), passes))
  {
    if passes != [] {
      AlwaysSound(stateFile, marker, Front(passes));
      StepKeepsSound(Run(Begin(stateFile, marker), Front(passes)), Last(passes));
    }
  }

  lemma {:induction false} StreakTotal(waits: seq<nat>)
    requires forall i :: 0 <= i < |waits| ==> waits[i] <= Ceiling(i + 1)
    ensures |waits| <= 5 ==> Sum(waits) <= 1000 * (Pow2(|waits|) - 1)
    ensures |waits| >= 5 ==> Sum(waits) <= 31_000 + 30_000 * (|waits| - 5)
  {
    SmallPowers();
    if waits != [] {
      StreakTotal(Front(waits));
      assert Last(waits) <= Ceiling(|waits|);
      if |waits| <= 5 {
        assert Pow2(|waits|) == 2 * Pow2(|waits| - 1);
      }
    }
  }

  /** For every sequence of outcomes: an error return only for a rejected
      credential, no state file after any return, "reconnecting" on disk between
      tries, no detach marker after an `Ok`; the n-th consecutive wait is at most
      min(30, 2^(n-1)) seconds, so n waits in a row stay within 31 + 30(n-5) seconds. */
  lemma ReconnectIsBounded(stateFile: Option<string>, marker: bool, passes: seq<Pass>)
    ensures var s := Run(Begin(stateFile, marker), passes);
            && (s.outcome != Looping ==> s.stateFile == None)
            && (s.outcome == Looping && s.streak != [] ==> s.stateFile == Some("reconnecting"))
            && (s.outcome == ReturnedOk ==> !s.marker)
            && (forall i :: 0 <= i < |s.streak| ==> s.streak[i] <= Ceiling(i + 1))
            && (|s.streak| >= 5 ==> Sum(s.streak) <= 31_000 + 30_000 * (|s.streak| - 5))
  {
    AlwaysSound(stateFile, marker, passes);
    StreakTotal(Run(Begin(stateFile, marker), passes).streak);
  }

  /** The pass that a rejected credential ends. */
  predicate Rejects(s: State, pass: Pass) {
    s.outcome == Looping && !s.marker && !pass.markerAtTop && pass.connect == Rejected
  }

  lemma StepErrsIff(s: State, pass: Pass)
    ensures Step(s, pass).outcome == ReturnedRejected <==> s.outcome == ReturnedRejected || Rejects(s, pass)
  {
  }

  /** Some pass that was made met a rejected credential. */
  predicate RejectedOnce(s: State, passes: seq<Pass>) {
    passes != [] && (RejectedOnce(s, Front(passes)) || Rejects(Run(s, Front(passes)), Last(passes)))
  }

  /** `run` errs exactly when the server refused the credential on a pass. */
  lemma {:induction false} OnlyRejectionErrs(stateFile: Option<string>, marker: bool, passes: seq<Pass>)
    ensures var start := Begin(stateFile, marker);
            Run(start, passes).outcome == ReturnedRejected <==> RejectedOnce(start, passes)
  {
    if passes != [] {
      OnlyRejectionErrs(stateFile, marker, Front(passes));
      StepErrsIff(Run(Begin(stateFile, marker), Front(passes)), Last(passes));
    }
  }

  /** The passes made since the last successful handshake, its own included. */
  function SinceHandshake(passes: seq<Pass>): nat {
    if passes == [] then 0
    else if Last(passes).connect == Accepted then 1
    else SinceHandshake(Front(passes)) + 1
  }

  /** A handshake restarts the streak: the wait after it is a first wait again. */
  lemma HandshakeRestartsStreak(s: State, pass: Pass)
    requires s.outcome == Looping && !s.marker && !pass.markerAtTop
    requires pass.connect == Accepted && pass.end == EndedDropped
    ensures |Step(s, pass).streak| == 1 && Step(s, pass).streak[0] <= Ceiling(1)
  {
    SmallPowers();
    BackoffIsFullJitter(1, pass.random, 0);
  }

  lemma FailureExtendsStreak(s: State, pass: Pass)
    requires s.outcome == Looping && Step(s, pass).outcome == Looping && pass.connect != Accepted
    ensures |Step(s, pass).streak| == |s.streak| + 1
  {
  }

  lemma StaysReturned(s: State, pass: Pass)
    ensures Step(s, pass).outcome == Looping ==> s.outcome == Looping
  {
  }

  /** Over every run that is still going: there has been one wait for each pass
      since the last handshake, and the latest was within the ceiling that count
      allows. However long the outage before it, a handshake starts it afresh. */
  lemma {:induction false} WaitsCountFromHandshake(stateFile: Option<string>, marker: bool, passes: seq<Pass>)
    requires Run(Begin(stateFile, marker), passes).outcome == Looping
    ensures var streak := Run(Begin(stateFile, marker), passes).streak;
            && |streak| == SinceHandshake(passes)
            && (passes != [] ==> streak != [] && Last(streak) <= Ceiling(SinceHandshake(passes)))
  {
    if passes != [] {
      var s := Run(Begin(stateFile, marker), Front(passes));
      StaysReturned(s, Last(passes));
      WaitsCountFromHandshake(stateFile, marker, Front(passes));
      if Last(passes).connect == Accepted {
        HandshakeRestartsStreak(s, Last(passes));
      } else {
        FailureExtendsStreak(s, Last(passes));
        AlwaysSound(stateFile, marker, passes);
      }
    }
  }

  /** Some pass met a rejected credential after a detach had been asked for
      during that pass's handshake. */
  predicate RejectedWithMarker(s: State, passes: seq<Pass>) {
    && passes != []
    && (RejectedWithMarker(s, Front(passes))
        || (Rejects(Run(s, Front(passes)), Last(passes)) && Last(passes).markerWhileUp))
  }

  /** What a pass that returns leaves of the marker. */
  lemma StepMarker(s: State, pass: Pass)
    requires s.outcome == Looping && Step(s, pass).outcome != Looping
    ensures Step(s, pass).marker <==> Rejects(s, pass) && pass.markerWhileUp
  {
  }

  lemma {:induction false} NoReturnYet(stateFile: Option<string>, marker: bool, passes: seq<Pass>)
    requires Run(Begin(stateFile, marker), passes).outcome == Looping
    ensures !RejectedWithMarker(Begin(stateFile, marker), passes)
  {
    if passes != [] {
      NoReturnYet(stateFile, marker, Front(passes));
      StepErrsIff(Run(Begin(stateFile, marker), Front(passes)), Last(passes));
    }
  }

  /** Exactly when a return leaves the detach marker on disk: the return was the
      error of a rejected credential, and the detach was asked for while that
      handshake was under way. */
  lemma {:induction false} MarkerLeftIff(stateFile: Option<string>, marker: bool, passes: seq<Pass>)
    requires Run(Begin(stateFile, marker), passes).outcome != Looping
    ensures Run(Begin(stateFile, marker), passes).marker <==> RejectedWithMarker(Begin(stateFile, marker), passes)
  {
    if passes != [] {
      var s := Run(Begin(stateFile, marker), Front(passes));
      if s.outcome == Looping {
        NoReturnYet(stateFile, marker, Front(passes));
        StepMarker(s, Last(passes));
      } else {
        MarkerLeftIff(stateFile, marker, Front(passes));
      }
    }
  }

  /** An error return does not clear the marker: a detach asked for while the
      rejected handshake was under way is still on disk afterwards. */
  lemma RejectionLeavesMarker(random: nat)
    ensures var pass := Pass(false, Rejected, true, EndedDropped, random, false);
            var s := Run(Begin(None, false), [pass]);
            s.outcome == ReturnedRejected && s.marker
  {
    var pass := Pass(false, Rejected, true, EndedDropped, random, false);
    assert Front([pass]) == [];
    assert Run(Begin(None, false), []) == Begin(None, false);
  }

  // ---------------------------------------------------------------------
  // The loop told from its passes alone
  // ---------------------------------------------------------------------

  /** The longest the n-th wait in a row may be, in milliseconds. */
  function Limit(n: nat): nat {
    if n <= 1 then 1000
    else if n == 2 then 2000
    else if n == 3 then 4000
    else if n == 4 then 8000
    else if n == 5 then 16_000
    else 30_000
  }

  lemma LimitIsCeiling(n: nat)
    requires n > 0
    ensures Ceiling(n) == Limit(n)
  {
    SmallPowers();
    if n >= 6 {
      Pow2Grows(5, n - 1);
    }
  }

  /** The wait the last pass drew. */
  function Drawn(passes: seq<Pass>): nat
    requires passes != []
  {
    Last(passes).random % (Limit(SinceHandshake(passes)) + 1)
  }

  /** The waits since the last handshake. */
  function Waits(passes: seq<Pass>): seq<nat> {
    if passes == [] then []
    else (if Last(passes).connect == Accepted then [] else Waits(Front(passes))) + [Drawn(passes)]
  }

  /** A detach was asked for and no pass so far has noticed. */
  predicate Pending(leftover: bool, passes: seq<Pass>) {
    if passes == [] then leftover else Last(passes).markerWhileUp || Last(passes).markerInWait
  }

  /** The check at the top of the next pass finds a detach marker. */
  predicate StopsAtTop(leftover: bool, before: seq<Pass>, pass: Pass) {
    Pending(leftover, before) || pass.markerAtTop
  }

  /** The last pass's wait is not empty, and finds a detach marker. */
  predicate StopsInWait(passes: seq<Pass>)
    requires passes != []
  {
    Drawn(passes) > 0 && (Last(passes).markerWhileUp || Last(passes).markerInWait)
  }

  /** No pass so far has ended the loop. */
  predicate GoesOn(leftover: bool, passes: seq<Pass>) {
    || passes == []
    || (&& GoesOn(leftover, Front(passes))
        && !StopsAtTop(leftover, Front(passes), Last(passes))
        && match Last(passes).connect
           case Rejected => false
           case Unreachable => !StopsInWait(passes)
           case Accepted => Last(passes).end == EndedDropped && !StopsInWait(passes))
  }

  /** A pass that was made had its credential refused. */
  predicate Refused(leftover: bool, passes: seq<Pass>) {
    && passes != []
    && (|| Refused(leftover, Front(passes))
        || (&& GoesOn(leftover, Front(passes)) && !StopsAtTop(leftover, Front(passes), Last(passes))
            && Last(passes).connect == Rejected))
  }

  /** What a pass does to the live-state file. Only the very first try announces
      itself as `connecting`. */
  function PassWrites(leftover: bool, before: seq<Pass>, pass: Pass): seq<Option<string>> {
    if StopsAtTop(leftover, before, pass) then [None]
    else
      var trying := [Some(if before == [] then "connecting" else "reconnecting")];
      var waiting := [Some("reconnecting")] + if StopsInWait(before + [pass]) then [None] else [];
      match pass.connect
      case Rejected => trying + [None]
      case Unreachable => trying + waiting
      case Accepted => trying + [Some("connected")] + if pass.end == EndedDetached then [None] else waiting
  }

  function AllWrites(leftover: bool, passes: seq<Pass>): seq<Option<string>> {
    if passes == [] then []
    else
      AllWrites(leftover, Front(passes))
      + if GoesOn(leftover, Front(passes)) then PassWrites(leftover, Front(passes), Last(passes)) else []
  }

  ghost predicate Told(s: State, leftover: bool, passes: seq<Pass>) {
    && (s.outcome == Looping <==> GoesOn(leftover, passes))
    && (s.outcome == ReturnedRejected <==> Refused(leftover, passes))
    && s.writes == AllWrites(leftover, passes)
    && (s.outcome == Looping ==>
          && s.attempt == SinceHandshake(passes) && s.streak == Waits(passes)
          && (s.marker <==> Pending(leftover, passes)))
  }

  lemma DrawsWithinLimit(attempt: nat, random: nat)
    requires attempt > 0
    ensures Backoff(attempt, BACKOFF_BASE, BACKOFF_CAP, random) == random % (Limit(attempt) + 1)
  {
    ShiftNeverSaturates(attempt);
    LimitIsCeiling(attempt);
  }

  lemma HistorySnoc(leftover: bool, before: seq<Pass>, pass: Pass)
    ensures var all := before + [pass];
            && SinceHandshake(all) == (if pass.connect == Accepted then 1 else SinceHandshake(before) + 1)
            && Drawn(all) == pass.random % (Limit(SinceHandshake(all)) + 1)
            && Waits(all) == (if pass.connect == Accepted then [] else Waits(before)) + [Drawn(all)]
            && Pending(leftover, all) == (pass.markerWhileUp || pass.markerInWait)
            && StopsInWait(all) == (Drawn(all) > 0 && (pass.markerWhileUp || pass.markerInWait))
            && GoesOn(leftover, all)
               == (&& GoesOn(leftover, before) && !StopsAtTop(leftover, before, pass)
                   && (pass.connect == Unreachable || (pass.connect == Accepted && pass.end == EndedDropped))
                   && !StopsInWait(all))
            && Refused(leftover, all)
               == (|| Refused(leftover, before)
                   || (GoesOn(leftover, before) && !StopsAtTop(leftover, before, pass) && pass.connect == Rejected))
            && AllWrites(leftover, all)
               == AllWrites(leftover, before)
                  + if GoesOn(leftover, before) then PassWrites(leftover, before, pass) else []
  {
    SnocParts(before, pass);
  }

  /** What a wait leaves, by what it draws. */
  lemma WaitMeaning(s: State, pass: Pass, drawn: nat)
    requires drawn == pass.random % (Limit(s.attempt + 1) + 1)
    ensures var t := Wait(s, pass);
            && t.attempt == s.attempt + 1 && t.streak == s.streak + [drawn]
            && (if drawn > 0 && (s.marker || pass.markerInWait)
                then t.outcome == ReturnedOk && t.writes == s.writes + ([Some("reconnecting")] + [None])
                else t.outcome == s.outcome && t.writes == s.writes + [Some("reconnecting")]
                     && t.marker == (s.marker || pass.markerInWait))
  {
    DrawsWithinLimit(s.attempt + 1, pass.random);
    ConcatAssociates(s.writes, [Some("reconnecting")], [None]);
  }

  lemma UnreachableTold(s: State, leftover: bool, before: seq<Pass>, pass: Pass)
    requires Told(s, leftover, before) && s.outcome == Looping && pass.connect == Unreachable
    requires s.attempt == 0 <==> before == []
    ensures Told(Step(s, pass), leftover, before + [pass])
  {
    hide Wait, Limit, SinceHandshake, Drawn, Waits, Pending, StopsInWait, GoesOn, Refused, AllWrites;
    HistorySnoc(leftover, before, pass);
    var trying := Some(if before == [] then "connecting" else "reconnecting");
    WaitMeaning(Write(s.(marker := pass.markerWhileUp), trying), pass, Drawn(before + [pass]));
    ConcatAssociates(s.writes, [trying], [Some("reconnecting")]);
    ConcatAssociates(s.writes, [trying], [Some("reconnecting")] + [None]);
  }

  lemma AcceptedTold(s: State, leftover: bool, before: seq<Pass>, pass: Pass)
    requires Told(s, leftover, before) && s.outcome == Looping && pass.connect == Accepted
    requires s.attempt == 0 <==> before == []
    ensures Told(Step(s, pass), leftover, before + [pass])
  {
    hide Wait, Limit, SinceHandshake, Drawn, Waits, Pending, StopsInWait, GoesOn, Refused, AllWrites;
    HistorySnoc(leftover, before, pass);
    var trying := Some(if before == [] then "connecting" else "reconnecting");
    var up := Write(s.(marker := pass.markerWhileUp), trying);
    WaitMeaning(Write(up.(attempt := 0, streak := []), Some("connected")), pass, Drawn(before + [pass]));
    ConcatAssociates(s.writes, [trying], [Some("connected")]);
    ConcatAssociates(s.writes, [trying] + [Some("connected")], [None]);
    ConcatAssociates(s.writes, [trying] + [Some("connected")], [Some("reconnecting")]);
    ConcatAssociates(s.writes, [trying] + [Some("connected")], [Some("reconnecting")] + [None]);
  }

  lemma RejectedTold(s: State, leftover: bool, before: seq<Pass>, pass: Pass)
    requires Told(s, leftover, before) && s.outcome == Looping && pass.connect == Rejected
    requires s.attempt == 0 <==> before == []
    ensures Told(Step(s, pass), leftover, before + [pass])
  {
    hide Wait, Limit, SinceHandshake, Drawn, Waits, Pending, StopsInWait, GoesOn, Refused, AllWrites;
    HistorySnoc(leftover, before, pass);
    ConcatAssociates(s.writes, [Some(if before == [] then "connecting" else "reconnecting")], [None]);
  }

  lemma CountedFromOne(passes: seq<Pass>)
    ensures SinceHandshake(passes) == 0 <==> passes == []
  {
  }

  /** Over every sequence of passes: the loop goes on, and how it returns, exactly
      as they tell; each wait is drawn from the range its place in the streak
      allows; and the live-state file is written exactly so. */
  lemma {:induction false} LoopIsHistory(stateFile: Option<string>, marker: bool, passes: seq<Pass>)
    ensures var s := Run(Begin(stateFile, marker), passes);
            && (s.outcome == Looping <==> GoesOn(marker, passes))
            && (s.outcome == ReturnedRejected <==> Refused(marker, passes))
            && s.writes == AllWrites(marker, passes)
            && (s.outcome == Looping ==> s.streak == Waits(passes))
    ensures Told(Run(Begin(stateFile, marker), passes), marker, passes)
  {
    if passes != [] {
      var front := Front(passes);
      var s := Run(Begin(stateFile, marker), front);
      LoopIsHistory(stateFile, marker, front);
      assert passes == front + [Last(passes)];
      ConcatAssociates(s.writes, [], []);
      if s.outcome == Looping {
        CountedFromOne(front);
        match Last(passes).connect
        case Rejected => RejectedTold(s, marker, front, Last(passes));
        case Unreachable => UnreachableTold(s, marker, front, Last(passes));
        case Accepted => AcceptedTold(s, marker, front, Last(passes));
      }
    }
  }

  ghost predicate FileKept(s: State, leftover: Option<string>) {
    s.stateFile == if s.writes == [] then leftover else Last(s.writes)
  }

  lemma WaitKeepsFile(s: State, pass: Pass, leftover: Option<string>)
    ensures FileKept(Wait(s, pass), leftover)
  {
    hide Backoff;
  }

  lemma StepKeepsFile(s: State, pass: Pass, leftover: Option<string>)
    requires FileKept(s, leftover)
    ensures FileKept(Step(s, pass), leftover)
  {
    hide Wait, Backoff;
    if s.outcome == Looping && !s.marker && !pass.markerAtTop {
      var up := Write(s.(marker := pass.markerWhileUp), Some(if s.attempt > 0 then "reconnecting" else "connecting"));
      WaitKeepsFile(up, pass, leftover);
      WaitKeepsFile(Write(up.(attempt := 0, streak := []), Some("connected")), pass, leftover);
    }
  }

  /** The file holds what was last done to it. */
  lemma {:induction false} FileIsLastWritten(stateFile: Option<string>, marker: bool, passes: seq<Pass>)
    ensures var s := Run(Begin(stateFile, marker), passes);
            s.stateFile == if s.writes == [] then stateFile else Last(s.writes)
  {
    if passes != [] {
      hide Step;
      FileIsLastWritten(stateFile, marker, Front(passes));
      StepKeepsFile(Run(Begin(stateFile, marker), Front(passes)), Last(passes), stateFile);
    }
  }

  // ---------------------------------------------------------------------
  // Reading the live-state file
  // ---------------------------------------------------------------------

  datatype LiveState = IsDisconnected | IsConnecting | IsConnected | IsReconnecting

  /** `current_state` on a readable file stamped at `stamp`, read at `now`, for
      a heartbeat interval of `heartbeat`, all in milliseconds since the epoch. */
  function CurrentState(state: string, stamp: nat, now: nat, heartbeat: nat): LiveState {
    var maxAge := 3 * heartbeat;
    var age: int := now / 1000 - stamp / 1000;
    if age < 0 || age >= maxAge / 1000 then IsDisconnected
    else if state == "connecting" then IsConnecting
    else if state == "connected" then IsConnected
    else if state == "reconnecting" then IsReconnecting
    else IsDisconnected
  }

  /** A stamp at least three heartbeats old never reads as live, whatever the
      truncation of either timestamp. */
  lemma OldStampIsStale(state: string, stamp: nat, now: nat, heartbeat: nat)
    requires now >= stamp + 3 * heartbeat
    ensures CurrentState(state, stamp, now, heartbeat) == IsDisconnected
  {
    assert now / 1000 >= (stamp + 3 * heartbeat) / 1000;
    assert (stamp + 3 * heartbeat) / 1000 >= stamp / 1000 + (3 * heartbeat) / 1000;
  }

  lemma FreshStampIsLive(stamp: nat, now: nat, heartbeat: nat)
    requires heartbeat >= 667 && stamp <= now <= stamp + heartbeat
    ensures CurrentState("connected", stamp, now, heartbeat) == IsConnected
  {
    assert now / 1000 <= (stamp + heartbeat) / 1000 <= stamp / 1000 + heartbeat / 1000 + 1;
    if heartbeat >= 1000 {
      assert heartbeat / 1000 + 1 < 3 * heartbeat / 1000;
    } else {
      assert 3 * heartbeat / 1000 == 2;
    }
  }

  /** While a stamp is fresh each name on file reads back as its own state, and any
      other content as disconnected. */
  lemma FreshNamesReadBack(state: string, stamp: nat, now: nat, heartbeat: nat)
    requires heartbeat >= 667 && stamp <= now <= stamp + heartbeat
    ensures var live := CurrentState(state, stamp, now, heartbeat);
            && (live == IsConnecting <==> state == "connecting")
            && (live == IsConnected <==> state == "connected")
            && (live == IsReconnecting <==> state == "reconnecting")
  {
    FreshStampIsLive(stamp, now, heartbeat);
  }

  /** Nor does one from the future, a second or more ahead of the reader's clock. */
  lemma FutureStampIsStale(state: string, stamp: nat, now: nat, heartbeat: nat)
    requires stamp >= now + 1000
    ensures CurrentState(state, stamp, now, heartbeat) == IsDisconnected
  {
    assert stamp / 1000 >= (now + 1000) / 1000 == now / 1000 + 1;
  }

  /** A stamp refreshed within the last heartbeat always reads as live exactly
      when the interval is at least 667 ms: below that the three-heartbeat limit
      truncates to at most one second, and a one-second tick already looks old. */
  lemma FreshStampsReadLiveIff(heartbeat: nat)
    requires heartbeat > 0
    ensures heartbeat >= 667 <==>
            forall stamp: nat, now: nat :: stamp <= now <= stamp + heartbeat ==>
              CurrentState("connected", stamp, now, heartbeat) == IsConnected
  {
    if heartbeat >= 667 {
      forall stamp: nat, now: nat | stamp <= now <= stamp + heartbeat
        ensures CurrentState("connected", stamp, now, heartbeat) == IsConnected
      {
        FreshStampIsLive(stamp, now, heartbeat);
      }
    } else {
      assert CurrentState("connected", 999, 1000, heartbeat) == IsDisconnected;
    }
  }
}
