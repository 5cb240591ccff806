/** Batching of streamed reply text (src/reply_coalescer.rs). */
module Coalescing {
  import opened Common

  const DEFAULT_WINDOW: nat := 50        // milliseconds
  const DEFAULT_MAX_BYTES: nat := 65536

  datatype Pending = Pending(chunks: seq<string>, bytes: nat, openedAt: nat)

  type Buffer = map<string, Pending>

  datatype Batch = Batch(session: string, chunks: seq<string>)

  function Utf8Width(c: char): nat {
    var code := c as int;
    if code < 0x80 then 1 else if code < 0x800 then 2 else if code < 0x1_0000 then 3 else 4
  }

  /** How many bits a character may have to fit in `width` bytes of UTF-8: seven in
      one byte, else six in each byte after the first and what is left there. */
  function BitsIn(width: nat): nat {
    if width == 1 then 7 else if width <= 4 then 5 * width + 1 else 0
  }

  /** A character takes the fewest bytes it fits in. */
  lemma Utf8WidthIsLeast(c: char)
    ensures 1 <= Utf8Width(c) <= 4 && c as nat < Pow2(BitsIn(Utf8Width(c)))
    ensures Utf8Width(c) > 1 ==> c as nat >= Pow2(BitsIn(Utf8Width(c) - 1))
  {
    assert Pow2(5) == 32;
    assert Pow2(7) == 128;
    assert Pow2(11) == 2048;
    assert Pow2(16) == 0x1_0000;
    assert Pow2(21) == 0x20_0000;
  }

  /** `text.len()`: the length of a string in UTF-8 bytes. */
  function Utf8Len(text: string): nat {
    if text == [] then 0 else Utf8Width(text[0]) + Utf8Len(text[1..])
  }

  /** Lengths add up, one character's being the width it takes. */
  lemma {:induction false} Utf8LenAdds(first: string, second: string)
    ensures Utf8Len(first + second) == Utf8Len(first) + Utf8Len(second)
    ensures |first| == 1 ==> Utf8Len(first) == Utf8Width(first[0])
  {
    if first == [] {
      assert first + second == second;
    } else {
      assert (first + second)[1..] == first[1..] + second;
      Utf8LenAdds(first[1..], second);
    }
  }

  function Bytes(chunks: seq<string>): nat {
    if chunks == [] then 0 else Bytes(Front(chunks)) + Utf8Len(Last(chunks))
  }

  /** The text held back for one session. */
  function Buffered(buffer: Buffer, session: string): seq<string> {
    if session in buffer then buffer[session].chunks else []
  }

  /** `push`: the buffer afterwards, and the batch if the cap was reached. */
  function Push(buffer: Buffer, maxBytes: nat, session: string, text: string, now: nat): (Buffer, Option<seq<string>>) {
    var entry := if session in buffer then buffer[session] else Pending([], 0, now);
    var grown := entry.(bytes := entry.bytes + Utf8Len(text), chunks := entry.chunks + [text]);
    if grown.bytes >= maxBytes then (buffer - {session}, Some(grown.chunks))
    else (buffer[session := grown], None)
  }

  /** `Instant::duration_since` saturates at zero. */
  function Elapsed(p: Pending, window: nat, now: nat): bool {
    (if now >= p.openedAt then now - p.openedAt else 0) >= window
  }

  /** The sessions `due` picks when the map is walked in `order`. */
  function Expired(buffer: Buffer, window: nat, now: nat, order: seq<string>): seq<string> {
    if order == [] then []
    else
      var earlier := Expired(buffer, window, now, Front(order));
      var key := Last(order);
      if key in buffer && Elapsed(buffer[key], window, now) then earlier + [key] else earlier
  }

  /** Removing a list of sessions one by one, keeping what each one held. */
  function Release(buffer: Buffer, keys: seq<string>): (Buffer, seq<Batch>) {
    if keys == [] then (buffer, [])
    else
      var (rest, out) := Release(buffer, Front(keys));
      var key := Last(keys);
      if key in rest then (rest - {key}, out + [Batch(key, rest[key].chunks)]) else (rest, out)
  }

  /** `due`, with the hash map's iteration order as a parameter. */
  function Due(buffer: Buffer, window: nat, now: nat, order: seq<string>): (Buffer, seq<Batch>) {
    Release(buffer, Expired(buffer, window, now, order))
  }

  predicate WellFormedEntry(p: Pending, maxBytes: nat) {
    p.chunks != [] && p.bytes == Bytes(p.chunks) && p.bytes < maxBytes
  }

  /** Every resident batch is non-empty, correctly measured and under the cap. */
  ghost predicate WellFormed(buffer: Buffer, maxBytes: nat) {
    forall session :: session in buffer ==> WellFormedEntry(buffer[session], maxBytes)
  }

  /** What a caller is promised by `push`, in terms of the text alone. */
  lemma PushMeaning(buffer: Buffer, maxBytes: nat, session: string, text: string, now: nat)
    requires WellFormed(buffer, maxBytes)
    ensures var (after, batch) := Push(buffer, maxBytes, session, text, now);
            var all := Buffered(buffer, session) + [text];
            && WellFormed(after, maxBytes)
            && (batch.Some? <==> Bytes(all) >= maxBytes)
            && (batch.Some? ==> batch.value == all && (|all| > 1 || maxBytes > 0 ==> Bytes(Front(all)) < maxBytes))
            && Buffered(after, session) == (if batch.Some? then [] else all)
            && (session in buffer && batch.None? ==> after[session].openedAt == buffer[session].openedAt)
            && (session !in buffer && batch.None? ==> after[session].openedAt == now)
            && (forall other :: other != session ==>
                  (other in after <==> other in buffer) && (other in buffer ==> after[other] == buffer[other]))
  {
    var all := Buffered(buffer, session) + [text];
    SnocParts(Buffered(buffer, session), text);
    assert Bytes(all) == Bytes(Buffered(buffer, session)) + Utf8Len(text);
  }

  lemma {:induction false} ExpiredIsFilter(buffer: Buffer, window: nat, now: nat, order: seq<string>)
    ensures forall key :: key in Expired(buffer, window, now, order)
                          <==> key in order && key in buffer && Elapsed(buffer[key], window, now)
    ensures NoDuplicates(order) ==> NoDuplicates(Expired(buffer, window, now, order))
  {
    if order != [] {
      ExpiredIsFilter(buffer, window, now, Front(order));
      assert order == Front(order) + [Last(order)];
    }
  }

  /** Releasing never invents, splits or reorders text: each session either
      keeps its whole batch or loses it into exactly one released batch. */
  lemma {:induction false} ReleaseIsWhole(buffer: Buffer, keys: seq<string>)
    ensures var (rest, out) := Release(buffer, keys);
            && (forall key :: key in rest <==> key in buffer && key !in keys)
            && (forall key :: key in rest ==> rest[key] == buffer[key])
            && (forall b :: b in out ==>
                  b.session in buffer && b.session in keys && b.chunks == buffer[b.session].chunks)
            && (forall i, j :: 0 <= i < j < |out| ==> out[i].session != out[j].session)
            && (forall key :: key in keys && key in buffer ==> Batch(key, buffer[key].chunks) in out)
  {
    if keys != [] {
      ReleaseIsWhole(buffer, Front(keys));
      assert keys == Front(keys) + [Last(keys)];
      var (rest, out) := Release(buffer, Front(keys));
      if Last(keys) in rest {
        var b := Batch(Last(keys), rest[Last(keys)].chunks);
        assert (out + [b])[|out|] == b;
        forall key | key in keys && key in buffer
          ensures Batch(key, buffer[key].chunks) in out + [b]
        {
          if key in Front(keys) {
            assert Batch(key, buffer[key].chunks) in out;
          } else {
            assert key == Last(keys);
          }
        }
      }
    }
  }

  /** `order` is some enumeration of the map's keys. */
  ghost predicate Enumerates(order: seq<string>, buffer: Buffer) {
    && NoDuplicates(order)
    && (forall key :: key in order <==> key in buffer)
  }

  /** `due` releases exactly the sessions whose window has elapsed, whole, and
      leaves every other session's batch as it was. */
  lemma DueIsExact(buffer: Buffer, window: nat, now: nat, order: seq<string>)
    requires Enumerates(order, buffer)
    ensures var (rest, out) := Due(buffer, window, now, order);
            && (forall key :: key in rest <==> key in buffer && !Elapsed(buffer[key], window, now))
            && (forall key :: key in rest ==> rest[key] == buffer[key])
            && (forall b :: b in out <==> b.session in buffer && Elapsed(buffer[b.session], window, now)
                                          && b.chunks == buffer[b.session].chunks)
            && (forall i, j :: 0 <= i < j < |out| ==> out[i].session != out[j].session)
  {
    var keys := Expired(buffer, window, now, order);
    ExpiredIsFilter(buffer, window, now, order);
    ReleaseIsWhole(buffer, keys);
    var (rest, out) := Release(buffer, keys);
    forall b: Batch | b.session in buffer && Elapsed(buffer[b.session], window, now)
                      && b.chunks == buffer[b.session].chunks
      ensures b in out
    {
      assert b.session in keys;
      assert b == Batch(b.session, buffer[b.session].chunks);
    }
  }

  /** `next_deadline` names the earliest window to close, if there is one. */
  ghost predicate IsNextDeadline(buffer: Buffer, window: nat, deadline: Option<nat>) {
    match deadline
    case None => buffer == map[]
    case Some(at) =>
      && (exists session :: session in buffer && buffer[session].openedAt + window == at)
      && (forall session :: session in buffer ==> at <= buffer[session].openedAt + window)
  }

  /** The timer arm makes progress and never spins: woken at or after the
      deadline it releases something, and what stays buffered is due strictly
      later. No clock assumption is needed once the window is positive. */
  lemma TimerMakesProgress(buffer: Buffer, window: nat, now: nat, order: seq<string>, before: Option<nat>,
                           after: Option<nat>)
    requires window > 0 || forall session :: session in buffer ==> buffer[session].openedAt <= now
    requires Enumerates(order, buffer)
    requires IsNextDeadline(buffer, window, before)
    requires IsNextDeadline(Due(buffer, window, now, order).0, window, after)
    ensures Due(buffer, window, now, order).1 != [] <==> before.Some? && before.value <= now
    ensures after.Some? ==> now < after.value
    ensures forall session :: session in Due(buffer, window, now, order).0 ==>
              session in buffer && now < buffer[session].openedAt + window
  {
    DueIsExact(buffer, window, now, order);
    var (rest, out) := Due(buffer, window, now, order);
    if before.Some? && before.value <= now {
      var session :| session in buffer && buffer[session].openedAt + window == before.value;
      assert Elapsed(buffer[session], window, now);
      assert Batch(session, buffer[session].chunks) in out;
    }
    if out != [] {
      assert out[0] in out;
    }
  }

  /** The batching buffer itself, updated in place by the session loop. */
  class ReplyCoalescer {
    const window: nat
    const maxBytes: nat
    var pending: Buffer

    constructor (window: nat, maxBytes: nat)
      ensures this.window == window && this.maxBytes == maxBytes
      ensures pending == map[]
    {
      this.window := window;
      this.maxBytes := maxBytes;
      pending := map[];
    }

    method Add(session: string, text: string, now: nat) returns (batch: Option<seq<string>>)
      modifies this`pending
      ensures (pending, batch) == Push(old(pending), maxBytes, session, text, now)
      ensures WellFormed(old(pending), maxBytes) ==> WellFormed(pending, maxBytes)
    {
      hide WellFormed, Bytes, Utf8Len;
      ghost var before := pending;
      if session !in pending {
        pending := pending[session := Pending([], 0, now)];
      }
      var entry := pending[session];
      entry := entry.(bytes := entry.bytes + Utf8Len(text));
      entry := entry.(chunks := entry.chunks + [text]);
      pending := pending[session := entry];
      batch := None;
      if entry.bytes >= maxBytes {
        batch := Some(pending[session].chunks);
        pending := pending - {session};
        assert pending == before - {session};
      } else {
        assert pending == before[session := entry];
      }
      if WellFormed(before, maxBytes) {
        PushMeaning(before, maxBytes, session, text, now);
      }
    }

    method Take(session: string) returns (chunks: seq<string>)
      modifies this`pending
      ensures chunks == Buffered(old(pending), session)
      ensures pending == old(pending) - {session}
    {
      chunks := if session in pending then pending[session].chunks else [];
      pending := pending - {session};
    }

    method ReleaseDue(now: nat, order: seq<string>) returns (out: seq<Batch>)
      modifies this`pending
      ensures (pending, out) == Due(old(pending), window, now, order)
    {
      ghost var before := pending;
      var expired: seq<string> := [];
      for i := 0 to |order|
        invariant pending == before
        invariant expired == Expired(before, window, now, order[..i])
      {
        assert order[..i + 1] == order[..i] + [order[i]];
        SnocParts(order[..i], order[i]);
        if order[i] in pending && Elapsed(pending[order[i]], window, now) {
          expired := expired + [order[i]];
        }
      }
      assert order[..|order|] == order;
      out := [];
      for i := 0 to |expired|
        invariant (pending, out) == Release(before, expired[..i])
      {
        assert expired[..i + 1] == expired[..i] + [expired[i]];
        SnocParts(expired[..i], expired[i]);
        if expired[i] in pending {
          out := out + [Batch(expired[i], pending[expired[i]].chunks)];
          pending := pending - {expired[i]};
        }
      }
      assert expired[..|expired|] == expired;
    }

    method NextDeadline() returns (deadline: Option<nat>)
      ensures IsNextDeadline(pending, window, deadline)
    {
      deadline := None;
      var left := pending.Keys;
      while left != {}
        invariant left <= pending.Keys
        invariant deadline.None? <==> left == pending.Keys
        invariant deadline.Some? ==>
                    (exists session :: session in pending && pending[session].openedAt + window == deadline.value)
        invariant deadline.Some? ==>
                    forall session :: session in pending && session !in left ==>
                                        deadline.value <= pending[session].openedAt + window
      {
        var session :| session in left;
        var at := pending[session].openedAt + window;
        if deadline.None? || at < deadline.value {
          deadline := Some(at);
        }
        left := left - {session};
      }
    }
  }
}
