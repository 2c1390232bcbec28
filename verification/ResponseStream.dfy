/** The size-limited response body: a stream with clean-up on every way out, and the buffered reading of a body. */
module ResponseStream {
  import opened Collections

  type Byte = nat
  type Chunk = seq<Byte>

  /** What the consumer sees of the stream. */
  datatype Outlet = Open | Closed | Errored | Cancelled

  /** `delivered` are the chunks read from the source so far and `ended` tells that it had no more; `released` and
      `finalized` count the clean-ups. */
  datatype Stream = Stream(outlet: Outlet, settled: bool, failing: bool, reading: bool, timer: bool, listening: bool,
                           size: nat, forwarded: seq<Chunk>, delivered: seq<Chunk>, ended: bool,
                           released: nat, finalized: nat)

  const FRESH := Stream(Open, false, false, false, false, true, 0, [], [], false, 0, 0)

  datatype Event = Pull | Arrives(chunk: Chunk) | Ends | Breaks | Cancel | Abort | Idle

  // ---------- Steps ----------

  function Settle(s: Stream): Stream {
    if s.settled then s
    else
      s.(settled := true, timer := false, listening := false, released := s.released + 1, finalized := s.finalized + 1)
  }

  function Fail(s: Stream): Stream {
    if s.settled then s else Settle(s.(failing := true)).(outlet := Errored)
  }

  /** Signalling an error to a stream that is not open any more does nothing. */
  function Signal(s: Stream): Stream {
    if s.outlet.Open? then s.(outlet := Errored) else s
  }

  /** A read has completed: the idle timer is cleared, and a failure or settling since then comes first. */
  function Arrive(s: Stream, chunk: Chunk, maxSize: nat): Stream {
    var r := s.(reading := false, timer := false, delivered := s.delivered + [chunk]);
    if r.failing then Signal(Settle(r))
    else if r.settled then r
    else
      var counted := r.(size := r.size + |chunk|);
      if counted.size > maxSize then Fail(counted) else counted.(forwarded := counted.forwarded + [chunk])
  }

  function End(s: Stream): Stream {
    var r := s.(reading := false, timer := false, ended := true);
    if r.failing then Signal(Settle(r))
    else if r.settled then r
    else Settle(r).(outlet := Closed)
  }

  function Break(s: Stream): Stream {
    var r := s.(reading := false);
    if r.settled then r else Signal(Settle(r))
  }

  predicate Enabled(s: Stream, e: Event) {
    match e
    case Pull => s.outlet.Open? && !s.reading
    case Arrives(_) => s.reading
    case Ends => s.reading
    case Breaks => s.reading
    case Cancel => s.outlet.Open?
    case Abort => s.listening
    case Idle => s.timer
  }

  function Step(s: Stream, e: Event, idle: bool, maxSize: nat): Stream {
    match e
    case Pull => s.(reading := true, timer := idle)
    case Arrives(chunk) => Arrive(s, chunk, maxSize)
    case Ends => End(s)
    case Breaks => Break(s)
    case Cancel => Settle(s).(outlet := Cancelled)
    case Abort => if s.settled || s.failing then s else Fail(s)
    case Idle => Fail(s)
  }

  // ---------- The invariant ----------

  function Length(chunks: seq<Chunk>): nat {
    |Flatten(chunks)|
  }

  /** Settled exactly when the outlet has left the open state, and then cleaned up exactly once; what was forwarded is
      a prefix of what was delivered, within the limit, and all of it while nothing has failed. */
  ghost predicate Inv(s: Stream, maxSize: nat) {
    && (s.settled <==> !s.outlet.Open?)
    && s.released == s.finalized == (if s.settled then 1 else 0)
    && (s.failing ==> s.settled) && (s.listening <==> !s.settled)
    && (s.timer ==> s.reading && !s.settled)
    && s.forwarded <= s.delivered && Length(s.forwarded) <= maxSize
    && (!s.settled ==> s.size == Length(s.forwarded) && s.forwarded == s.delivered && !s.ended)
    && (s.outlet.Closed? ==> s.ended && !s.reading && s.forwarded == s.delivered)
  }

  lemma StepInv(s: Stream, e: Event, idle: bool, maxSize: nat)
    requires Inv(s, maxSize) && Enabled(s, e)
    ensures Inv(Step(s, e, idle, maxSize), maxSize)
  {
    if e.Arrives? {
      FlattenAppend(s.forwarded, e.chunk);
    }
  }

  ghost predicate Allowed(s: Stream, events: seq<Event>, idle: bool, maxSize: nat)
    decreases |events|
  {
    events == [] || (Enabled(s, events[0]) && Allowed(Step(s, events[0], idle, maxSize), events[1..], idle, maxSize))
  }

  function Run(s: Stream, events: seq<Event>, idle: bool, maxSize: nat): Stream
    decreases |events|
  {
    if events == [] then s else Run(Step(s, events[0], idle, maxSize), events[1..], idle, maxSize)
  }

  lemma {:induction false} RunInv(s: Stream, events: seq<Event>, idle: bool, maxSize: nat)
    requires Inv(s, maxSize) && Allowed(s, events, idle, maxSize)
    ensures Inv(Run(s, events, idle, maxSize), maxSize)
    decreases |events|
  {
    if events != [] {
      StepInv(s, events[0], idle, maxSize);
      RunInv(Step(s, events[0], idle, maxSize), events[1..], idle, maxSize);
    }
  }

  // ---------- What every run guarantees ----------

  /** In every interleaving: while the stream is open nothing has been cleaned up; once it is closed, errored or
      cancelled, the lock has been released and the finalizer called exactly once and no timer is left. */
  lemma CleanedUpOnce(events: seq<Event>, idle: bool, maxSize: nat)
    requires Allowed(FRESH, events, idle, maxSize)
    ensures var s := Run(FRESH, events, idle, maxSize);
            && s.released == s.finalized == (if s.outlet.Open? then 0 else 1)
            && (!s.outlet.Open? ==> !s.timer && !s.listening)
  {
    RunInv(FRESH, events, idle, maxSize);
  }

  /** What the consumer gets is a prefix of the source within the limit; all of it when the stream closes. */
  lemma ForwardsPrefix(events: seq<Event>, idle: bool, maxSize: nat)
    requires Allowed(FRESH, events, idle, maxSize)
    ensures var s := Run(FRESH, events, idle, maxSize);
            && s.forwarded <= s.delivered && Length(s.forwarded) <= maxSize
            && (s.outlet.Closed? ==> s.ended && s.forwarded == s.delivered)
  {
    RunInv(FRESH, events, idle, maxSize);
  }

  /** After settling nothing changes any more, whatever still completes. */
  lemma {:induction false} NothingAfterSettling(s: Stream, events: seq<Event>, idle: bool, maxSize: nat)
    requires Inv(s, maxSize) && s.settled && Allowed(s, events, idle, maxSize)
    ensures var n := Run(s, events, idle, maxSize);
            && n.settled && n.forwarded == s.forwarded && n.outlet == s.outlet
            && n.released == s.released && n.finalized == s.finalized && !n.timer
    decreases |events|
  {
    if events != [] {
      StepInv(s, events[0], idle, maxSize);
      NothingAfterSettling(Step(s, events[0], idle, maxSize), events[1..], idle, maxSize);
    }
  }

  /** A chunk is refused exactly when it takes the total over the limit. */
  lemma RefusedExactly(s: Stream, chunk: Chunk, idle: bool, maxSize: nat)
    requires Inv(s, maxSize) && !s.settled && s.reading
    ensures var n := Step(s, Arrives(chunk), idle, maxSize);
            && (n.outlet.Errored? <==> Length(s.delivered + [chunk]) > maxSize)
            && (n.outlet.Open? <==> n.forwarded == s.delivered + [chunk])
  {
    FlattenAppend(s.forwarded, chunk);
  }

  /** How an open stream is left: it closes when its source ends, fails when a read breaks, on an abort, on idling and
      over the limit, and is cancelled by its consumer. Chunks within the limit are forwarded as they come. */
  lemma LeftExactly(s: Stream, e: Event, idle: bool, maxSize: nat)
    requires Inv(s, maxSize) && Enabled(s, e) && s.outlet.Open?
    ensures var n := Step(s, e, idle, maxSize);
            && n.outlet == (match e
                            case Pull => Open
                            case Arrives(chunk) => if Length(s.delivered + [chunk]) > maxSize then Errored else Open
                            case Ends => Closed
                            case Breaks => Errored
                            case Cancel => Cancelled
                            case Abort => Errored
                            case Idle => Errored)
            && n.forwarded == (if e.Arrives? && n.outlet.Open? then s.forwarded + [e.chunk] else s.forwarded)
            && n.delivered == (if e.Arrives? then s.delivered + [e.chunk] else s.delivered)
            && n.reading == (e.Pull? || (s.reading && !e.Arrives? && !e.Ends? && !e.Breaks?))
            && (n.timer <==> idle && e.Pull?)
  {
    if e.Arrives? {
      FlattenAppend(s.forwarded, e.chunk);
    }
  }

  /** A consumer that pulls chunk after chunk until the source ends. */
  function Reading(chunks: seq<Chunk>): seq<Event> {
    if chunks == [] then [Pull, Ends] else [Pull, Arrives(chunks[0])] + Reading(chunks[1..])
  }

  /** Undisturbed, a source within the limit arrives whole and closes the stream. */
  lemma WholeBodyArrives(chunks: seq<Chunk>, idle: bool, maxSize: nat)
    requires Length(chunks) <= maxSize
    ensures Allowed(FRESH, Reading(chunks), idle, maxSize)
    ensures var s := Run(FRESH, Reading(chunks), idle, maxSize); s.outlet.Closed? && s.forwarded == chunks
  {
    assert [] + chunks == chunks;
    RestArrives(FRESH, chunks, idle, maxSize);
  }

  lemma {:induction false} RestArrives(s: Stream, chunks: seq<Chunk>, idle: bool, maxSize: nat)
    requires Inv(s, maxSize) && s.outlet.Open? && !s.reading && Length(s.forwarded + chunks) <= maxSize
    ensures Allowed(s, Reading(chunks), idle, maxSize)
    ensures var n := Run(s, Reading(chunks), idle, maxSize); n.outlet.Closed? && n.forwarded == s.forwarded + chunks
    decreases |chunks|
  {
    hide Step, Inv, Enabled, Flatten;
    var e := if chunks == [] then Ends else Arrives(chunks[0]);
    var rest := if chunks == [] then [] else Reading(chunks[1..]);
    assert Reading(chunks) == [Pull, e] + rest;
    var n := Step(Step(s, Pull, idle, maxSize), e, idle, maxSize);
    if chunks == [] {
      Pulled(s, e, idle, maxSize);
      assert s.forwarded + chunks == s.forwarded;
    } else {
      assert s.forwarded + chunks == s.forwarded + [chunks[0]] + chunks[1..];
      FlattenConcat(s.forwarded + [chunks[0]], chunks[1..]);
      Pulled(s, e, idle, maxSize);
      RestArrives(n, chunks[1..], idle, maxSize);
    }
    TwoSteps(s, Pull, e, rest, idle, maxSize);
  }

  lemma Pulled(s: Stream, e: Event, idle: bool, maxSize: nat)
    requires Inv(s, maxSize) && s.outlet.Open? && !s.reading && (e.Ends? || e.Arrives?)
    requires e.Arrives? ==> Length(s.forwarded + [e.chunk]) <= maxSize
    ensures Enabled(s, Pull) && Enabled(Step(s, Pull, idle, maxSize), e)
    ensures var n := Step(Step(s, Pull, idle, maxSize), e, idle, maxSize);
            && Inv(n, maxSize) && !n.reading && n.outlet == (if e.Ends? then Closed else Open)
            && n.forwarded == if e.Ends? then s.forwarded else s.forwarded + [e.chunk]
  {
    StepInv(s, Pull, idle, maxSize);
    StepInv(Step(s, Pull, idle, maxSize), e, idle, maxSize);
    LeftExactly(Step(s, Pull, idle, maxSize), e, idle, maxSize);
  }

  lemma TwoSteps(s: Stream, e: Event, f: Event, rest: seq<Event>, idle: bool, maxSize: nat)
    requires Enabled(s, e) && Enabled(Step(s, e, idle, maxSize), f)
    requires Allowed(Step(Step(s, e, idle, maxSize), f, idle, maxSize), rest, idle, maxSize)
    ensures Allowed(s, [e, f] + rest, idle, maxSize)
    ensures Run(s, [e, f] + rest, idle, maxSize)
         == Run(Step(Step(s, e, idle, maxSize), f, idle, maxSize), rest, idle, maxSize)
  {
    hide Step, Enabled;
    assert ([e, f] + rest)[1..] == [f] + rest && ([f] + rest)[1..] == rest;
    assert Allowed(Step(s, e, idle, maxSize), [f] + rest, idle, maxSize);
  }

  lemma {:induction false} FlattenConcat(a: seq<Chunk>, b: seq<Chunk>)
    ensures Flatten(a + b) == Flatten(a) + Flatten(b)
  {
    if a == [] {
      assert a + b == b;
    } else {
      FlattenConcat(a[1..], b);
      assert (a + b)[1..] == a[1..] + b;
    }
  }

  // ---------- The stream itself ----------

  class LimitedStream {
    const maxSize: nat
    const idle: bool
    var outlet: Outlet
    var settled: bool
    var failing: bool
    var reading: bool
    var timer: bool
    var listening: bool
    var size: nat
    var forwarded: seq<Chunk>
    ghost var delivered: seq<Chunk>
    ghost var ended: bool
    ghost var released: nat
    ghost var finalized: nat

    ghost function State(): Stream
      reads this
    {
      Stream(outlet, settled, failing, reading, timer, listening, size, forwarded, delivered, ended, released, finalized)
    }

    /** A signal that is aborted already fails the stream before anything is read. */
    constructor (limit: nat, idleTimeout: bool, aborted: bool)
      ensures maxSize == limit && idle == idleTimeout && Inv(State(), maxSize)
      ensures State() == if aborted then Step(FRESH, Abort, idleTimeout, limit) else FRESH
    {
      maxSize, idle := limit, idleTimeout;
      outlet, settled, failing := if aborted then Errored else Open, aborted, aborted;
      reading, timer, listening := false, false, !aborted;
      size, forwarded, delivered, ended := 0, [], [], false;
      released, finalized := if aborted then 1 else 0, if aborted then 1 else 0;
    }

    method DoSettle()
      modifies this
      ensures State() == Settle(old(State()))
    {
      if settled {
        return;
      }
      settled, timer, listening := true, false, false;
      released, finalized := released + 1, finalized + 1;
    }

    method DoFail()
      modifies this
      ensures State() == Fail(old(State()))
    {
      if settled {
        return;
      }
      failing := true;
      DoSettle();
      outlet := Errored;
    }

    /** Signalling an error to a stream that is not open does nothing. */
    method SignalError()
      modifies this`outlet
      ensures State() == Signal(old(State()))
    {
      if outlet == Open {
        outlet := Errored;
      }
    }

    method OnPull()
      requires Inv(State(), maxSize) && Enabled(State(), Pull)
      modifies this
      ensures Inv(State(), maxSize) && State() == Step(old(State()), Pull, idle, maxSize)
    {
      StepInv(State(), Pull, idle, maxSize);
      reading, timer := true, idle;
    }

    method OnChunk(chunk: Chunk)
      requires Inv(State(), maxSize) && Enabled(State(), Arrives(chunk))
      modifies this
      ensures Inv(State(), maxSize) && State() == Step(old(State()), Arrives(chunk), idle, maxSize)
    {
      StepInv(State(), Arrives(chunk), idle, maxSize);
      hide Inv;
      reading, timer := false, false;
      delivered := delivered + [chunk];
      if failing {
        DoSettle();
        SignalError();
        return;
      }
      if settled {
        return;
      }
      size := size + |chunk|;
      if size > maxSize {
        DoFail();
        return;
      }
      forwarded := forwarded + [chunk];
    }

    method OnEnd()
      requires Inv(State(), maxSize) && Enabled(State(), Ends)
      modifies this
      ensures Inv(State(), maxSize) && State() == Step(old(State()), Ends, idle, maxSize)
    {
      StepInv(State(), Ends, idle, maxSize);
      hide Inv;
      reading, timer, ended := false, false, true;
      if failing {
        DoSettle();
        SignalError();
      } else if !settled {
        DoSettle();
        outlet := Closed;
      }
    }

    method OnReadError()
      requires Inv(State(), maxSize) && Enabled(State(), Breaks)
      modifies this
      ensures Inv(State(), maxSize) && State() == Step(old(State()), Breaks, idle, maxSize)
    {
      StepInv(State(), Breaks, idle, maxSize);
      hide Inv;
      reading := false;
      if !settled {
        DoSettle();
        SignalError();
      }
    }

    method OnCancel()
      requires Inv(State(), maxSize) && Enabled(State(), Cancel)
      modifies this
      ensures Inv(State(), maxSize) && State() == Step(old(State()), Cancel, idle, maxSize)
    {
      StepInv(State(), Cancel, idle, maxSize);
      hide Inv;
      DoSettle();
      outlet := Cancelled;
    }

    method OnAbort()
      requires Inv(State(), maxSize) && Enabled(State(), Abort)
      modifies this
      ensures Inv(State(), maxSize) && State() == Step(old(State()), Abort, idle, maxSize)
    {
      StepInv(State(), Abort, idle, maxSize);
      hide Inv;
      if !settled && !failing {
        DoFail();
      }
    }

    method OnIdle()
      requires Inv(State(), maxSize) && Enabled(State(), Idle)
      modifies this
      ensures Inv(State(), maxSize) && State() == Step(old(State()), Idle, idle, maxSize)
    {
      StepInv(State(), Idle, idle, maxSize);
      hide Inv;
      DoFail();
    }
  }

  // ---------- Reading a whole body ----------

  datatype Body = Bytes(bytes: seq<Byte>) | TooLarge | Aborted

  /** The first read after which the total is over the limit. */
  ghost predicate Exceeds(chunks: seq<Chunk>, n: nat, maxSize: nat) {
    n < |chunks| && Length(chunks[..n + 1]) > maxSize
  }

  /** Reads a body of these chunks; `abortedBefore` is the read at which an abort is first seen, if any. */
  method ReadLimitedBody(chunks: seq<Chunk>, maxSize: nat, abortedBefore: Option<nat>) returns (body: Body,
                         ghost read: nat)
    ensures read <= |chunks|
    ensures forall n | 0 <= n < read :: !Exceeds(chunks, n, maxSize)
    ensures abortedBefore.Some? ==> read <= abortedBefore.value
    ensures body.Aborted? <==> abortedBefore == Some(read)
    ensures body.TooLarge? <==> !body.Aborted? && Exceeds(chunks, read, maxSize)
    ensures body.Bytes? <==> !body.Aborted? && read == |chunks|
    ensures body.Bytes? ==> body.bytes == Flatten(chunks) && |body.bytes| <= maxSize
  {
    var size, i := 0, 0;
    read := 0;
    assert chunks[..0] == [];
    while true
      invariant i == read <= |chunks| && size == Length(chunks[..i]) <= maxSize
      invariant abortedBefore.Some? ==> i <= abortedBefore.value
      invariant forall n | 0 <= n < i :: !Exceeds(chunks, n, maxSize)
      decreases |chunks| - i
    {
      if abortedBefore == Some(i) {
        return Aborted, read;
      }
      if i == |chunks| {
        break;
      }
      FlattenAppend(chunks[..i], chunks[i]);
      assert chunks[..i + 1] == chunks[..i] + [chunks[i]];
      size := size + |chunks[i]|;
      if size > maxSize {
        return TooLarge, read;
      }
      i, read := i + 1, read + 1;
    }
    assert chunks[..i] == chunks;
    var bytes := Concatenate(chunks, size);
    body := Bytes(bytes[..]);
  }

  /** Copies the chunks one after another into one buffer. */
  method Concatenate(chunks: seq<Chunk>, size: nat) returns (bytes: array<Byte>)
    requires size == Length(chunks)
    ensures fresh(bytes) && bytes[..] == Flatten(chunks)
  {
    bytes := new Byte[size];
    var offset: nat, i := 0, 0;
    assert chunks[..0] == [] && chunks[0..] == chunks;
    while i < |chunks|
      invariant i <= |chunks| && offset <= size == bytes.Length && offset + Length(chunks[i..]) == size
      invariant bytes[..offset] == Flatten(chunks[..i])
    {
      var chunk := chunks[i];
      assert chunks[i..][1..] == chunks[i + 1..] && chunks[..i + 1] == chunks[..i] + [chunk];
      FlattenAppend(chunks[..i], chunk);
      CopyInto(bytes, chunk, offset);
      offset, i := offset + |chunk|, i + 1;
    }
    assert chunks[..i] == chunks;
  }

  method CopyInto(bytes: array<Byte>, chunk: Chunk, offset: nat)
    requires offset + |chunk| <= bytes.Length
    modifies bytes
    ensures bytes[..offset + |chunk|] == old(bytes[..offset]) + chunk
  {
    var j := 0;
    while j < |chunk|
      invariant j <= |chunk| && bytes[..offset + j] == old(bytes[..offset]) + chunk[..j]
    {
      bytes[offset + j] := chunk[j];
      j := j + 1;
    }
  }
}
