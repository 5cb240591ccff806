/** Small datatypes and sequence facts shared by every component. */
module Common {
  datatype Option<+T> = None | Some(value: T)

  datatype Result<+T, +E> = Ok(value: T) | Err(error: E)

  /** The last element of a snoc-style history. */
  function Last<T>(s: seq<T>): T
    requires s != []
  {
    s[|s| - 1]
  }

  function Front<T>(s: seq<T>): seq<T>
    requires s != []
  {
    s[..|s| - 1]
  }

  lemma SnocParts<T>(s: seq<T>, x: T)
    ensures Front(s + [x]) == s
    ensures Last(s + [x]) == x
  {
  }

  lemma SnocWhole<T>(s: seq<T>)
    requires s != []
    ensures s == Front(s) + [Last(s)]
  {
  }

  lemma ConcatAssociates<T>(a: seq<T>, b: seq<T>, c: seq<T>)
    ensures a + b + c == a + (b + c)
    ensures a == [] ==> a + c == c
    ensures c == [] ==> a + c == a
  {
  }

  function Pow2(n: nat): nat {
    if n == 0 then 1 else 2 * Pow2(n - 1)
  }

  predicate NoDuplicates<T(==)>(s: seq<T>) {
    forall i, j :: 0 <= i < j < |s| ==> s[i] != s[j]
  }
}

/** The events a driver hands up to the session manager and the wire layer. */
module DriverEvents {
  import opened Common

  datatype DriverStatus = Working | Idle | Blocked

  datatype DriverStopReason = EndTurn | MaxTokens | MaxTurnRequests | Refusal | Cancelled | UnknownReason

  datatype DriverEvent =
    | Update(text: string)
    | Status(status: DriverStatus)
    | StopReason(reason: DriverStopReason)

  /** How one event moves a "this session is blocked" flag. */
  function BlockedAfter(event: DriverEvent, blocked: bool): bool {
    match event
    case Status(Blocked) => true
    case Status(_) => false
    case _ => blocked
  }

  /** The flag after a whole sequence of events, oldest first. */
  function FoldBlocked(events: seq<DriverEvent>, blocked: bool): bool {
    if events == [] then blocked else BlockedAfter(Last(events), FoldBlocked(Front(events), blocked))
  }

  /** The status announced last, if any was. */
  function LastStatus(events: seq<DriverEvent>): Option<DriverStatus> {
    if events == [] then None
    else if Last(events).Status? then Some(Last(events).status)
    else LastStatus(Front(events))
  }

  /** So a session is blocked exactly while the status announced last says so. */
  lemma {:induction false} FoldIsLastStatus(events: seq<DriverEvent>)
    ensures FoldBlocked(events, false) <==> LastStatus(events) == Some(Blocked)
  {
    if events != [] {
      FoldIsLastStatus(Front(events));
    }
  }

  lemma FoldBlockedSnoc(events: seq<DriverEvent>, event: DriverEvent, blocked: bool)
    ensures FoldBlocked(events + [event], blocked) == BlockedAfter(event, FoldBlocked(events, blocked))
  {
    SnocParts(events, event);
  }

  lemma {:induction false} FoldBlockedConcat(first: seq<DriverEvent>, second: seq<DriverEvent>, blocked: bool)
    ensures FoldBlocked(first + second, blocked) == FoldBlocked(second, FoldBlocked(first, blocked))
  {
    if second == [] {
      assert first + second == first;
    } else {
      FoldBlockedConcat(first, Front(second), blocked);
      assert first + second == (first + Front(second)) + [Last(second)];
      FoldBlockedSnoc(first + Front(second), Last(second), blocked);
    }
  }

  /** The finished turns of a stream, and the text of the turn still open. */
  datatype Turns = Turns(closed: seq<seq<string>>, open: seq<string>)

  const NO_TURNS := Turns([], [])

  function TurnsAfter(event: DriverEvent, turns: Turns): Turns {
    match event
    case Update(text) => turns.(open := turns.open + [text])
    case StopReason(_) => Turns(turns.closed + [turns.open], [])
    case Status(_) => turns
  }

  function TurnsOf(events: seq<DriverEvent>): Turns {
    if events == [] then NO_TURNS else TurnsAfter(Last(events), TurnsOf(Front(events)))
  }

  function StopReasons(events: seq<DriverEvent>): nat {
    if events == [] then 0
    else StopReasons(Front(events)) + if Last(events).StopReason? then 1 else 0
  }

  lemma {:induction false} StopReasonsConcat(first: seq<DriverEvent>, second: seq<DriverEvent>)
    ensures StopReasons(first + second) == StopReasons(first) + StopReasons(second)
  {
    if second == [] {
      assert first + second == first;
    } else {
      StopReasonsConcat(first, Front(second));
      assert first + second == (first + Front(second)) + [Last(second)];
      SnocParts(first + Front(second), Last(second));
    }
  }

  /** Every turn a reader may count as finished ended in a `StopReason`. */
  lemma {:induction false} ClosedTurnsCountStopReasons(events: seq<DriverEvent>)
    ensures |TurnsOf(events).closed| == StopReasons(events)
  {
    if events != [] {
      ClosedTurnsCountStopReasons(Front(events));
    }
  }
}
