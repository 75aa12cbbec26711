/**
 The read direction of a socket's relay: the broker reads the socket while it has credit and sends what it read, the
 renderer hands the bytes to the page and reports what the page has consumed. Two ends, one FIFO each way.
 */
module ByteWindow {
  import opened Sums

  type Byte = bv8

  const READ_WINDOW_BYTES: nat := 1024 * 1024
  const CREDIT_COALESCE_BYTES: nat := 64 * 1024

  /**
   `taken` is every byte ever read from the socket and `consumed` every byte the page took, for stating order and loss.
   `credit` can be negative: it is checked before a read, and a chunk's size is known only after. `Forged` is a credit message
   that the renderer's own accounting did not send.
   */
  datatype State = State(
    window: nat,
    taken: seq<Byte>,
    credit: int,
    toRenderer: seq<seq<Byte>>,
    queued: seq<Byte>,
    consumed: seq<Byte>,
    unreported: nat,
    flushScheduled: bool,
    timers: nat,
    toBroker: seq<nat>)

  function Start(window: nat): State {
    State(window, [], window, [], [], [], 0, false, 0, [])
  }

  datatype Event =
    | Read(chunk: seq<Byte>)
    | Delivered
    | Consumed(count: nat)
    | TimerFired
    | CreditArrived
    | Forged(claimed: int)

  predicate Enabled(s: State, e: Event) {
    match e
    case Read(_) => s.credit > 0
    case Delivered => s.toRenderer != []
    case Consumed(count) => count <= |s.queued|
    case TimerFired => s.timers > 0
    case CreditArrived => s.toBroker != []
    case Forged(_) => true
  }

  function Flush(s: State): State {
    if s.unreported == 0 then s.(flushScheduled := false)
    else s.(flushScheduled := false, toBroker := s.toBroker + [s.unreported], unreported := 0)
  }

  /** The page took `count` bytes: reported at once past the threshold, otherwise on a timer set only if none is awaited. */
  function ReportConsumed(s: State, count: nat): State {
    var s' := s.(unreported := s.unreported + count);
    if s'.unreported >= CREDIT_COALESCE_BYTES then Flush(s')
    else if s'.flushScheduled then s'
    else s'.(flushScheduled := true, timers := s'.timers + 1)
  }

  /** A credit message comes in: a negative figure is ignored, and none takes the credit past the window. */
  function Credited(s: State, bytes: int): State {
    if bytes < 0 then s else s.(credit := Min(s.credit + bytes, s.window))
  }

  function Next(s: State, e: Event): State
    requires Enabled(s, e)
  {
    match e
    case Read(chunk) => s.(taken := s.taken + chunk, credit := s.credit - |chunk|, toRenderer := s.toRenderer + [chunk])
    case Delivered => s.(queued := s.queued + s.toRenderer[0], toRenderer := s.toRenderer[1..])
    case Consumed(count) => ReportConsumed(s.(queued := s.queued[count..], consumed := s.consumed + s.queued[..count]), count)
    case TimerFired => Flush(s.(timers := s.timers - 1))
    case CreditArrived => Credited(s.(toBroker := s.toBroker[1..]), s.toBroker[0])
    case Forged(claimed) => Credited(s, claimed)
  }

  // ---------------------------------------------------------------- conservation and order

  ghost predicate Conserved(s: State) {
    s.credit + |Concat(s.toRenderer)| + |s.queued| + s.unreported + Sum(s.toBroker) == s.window
  }

  ghost predicate InOrder(s: State) {
    s.consumed + s.queued + Concat(s.toRenderer) == s.taken
  }

  /** Credit held back is always about to be sent: a flush is awaited, and the awaited flush has a timer. */
  ghost predicate Promised(s: State) {
    (s.unreported > 0 ==> s.flushScheduled) && (s.flushScheduled ==> s.timers > 0) && s.unreported < CREDIT_COALESCE_BYTES
  }

  ghost predicate Sound(s: State, largestChunk: nat) {
    Conserved(s) && InOrder(s) && Promised(s) && s.credit >= Min(0, 1 - largestChunk)
  }

  lemma ReadKeepsSound(s: State, chunk: seq<Byte>, largestChunk: nat)
    requires Sound(s, largestChunk) && s.credit > 0 && |chunk| <= largestChunk
    ensures Sound(Next(s, Read(chunk)), largestChunk)
  {
    ConcatAppend(s.toRenderer, chunk);
    assert s.consumed + s.queued + (Concat(s.toRenderer) + chunk) == s.consumed + s.queued + Concat(s.toRenderer) + chunk;
  }

  lemma DeliveryKeepsSound(s: State, largestChunk: nat)
    requires Sound(s, largestChunk) && s.toRenderer != []
    ensures Sound(Next(s, Delivered), largestChunk)
  {
    hide Sum;
    assert s.consumed + (s.queued + s.toRenderer[0]) + Concat(s.toRenderer[1..]) == s.consumed + s.queued + Concat(s.toRenderer);
  }

  lemma ConsumeKeepsSound(s: State, count: nat, largestChunk: nat)
    requires Sound(s, largestChunk) && count <= |s.queued|
    ensures Sound(Next(s, Consumed(count)), largestChunk)
  {
    hide Sum, Concat;
    SumAppend(s.toBroker, s.unreported + count);
    assert s.consumed + s.queued[..count] + s.queued[count..] == s.consumed + s.queued;
  }

  /** Every window byte is accounted for after every step, and bytes reach the page in order, none lost or repeated. */
  lemma StepKeepsSound(s: State, e: Event, largestChunk: nat)
    requires Sound(s, largestChunk) && Enabled(s, e) && !e.Forged?
    requires e.Read? ==> |e.chunk| <= largestChunk
    ensures Sound(Next(s, e), largestChunk)
    ensures Next(s, e).window == s.window
  {
    match e
    case Read(chunk) => ReadKeepsSound(s, chunk, largestChunk);
    case Delivered => DeliveryKeepsSound(s, largestChunk);
    case Consumed(count) => ConsumeKeepsSound(s, count, largestChunk);
    case TimerFired => SumAppend(s.toBroker, s.unreported);
    case CreditArrived =>
  }

  ghost predicate Run(s: State, events: seq<Event>, largestChunk: nat, s': State)
    decreases |events|
  {
    if events == [] then s' == s
    else
      && Enabled(s, events[0]) && !events[0].Forged? && (events[0].Read? ==> |events[0].chunk| <= largestChunk)
      && Run(Next(s, events[0]), events[1..], largestChunk, s')
  }

  lemma {:induction false} RunKeepsSound(s: State, events: seq<Event>, largestChunk: nat, s': State)
    requires Sound(s, largestChunk) && Run(s, events, largestChunk, s')
    ensures Sound(s', largestChunk) && s'.window == s.window
    decreases |events|
  {
    if events != [] {
      StepKeepsSound(s, events[0], largestChunk);
      RunKeepsSound(Next(s, events[0]), events[1..], largestChunk, s');
    }
  }

  // ---------------------------------------------------------------- how far ahead the broker gets

  /** Bytes read and not yet credited back. */
  function Outstanding(s: State): int {
    s.window - s.credit
  }

  /** In any run the broker is ahead by less than the window and one chunk; and a read stays within the window iff its chunk fits the credit. */
  lemma AheadByLessThanOneChunkMore(window: nat, events: seq<Event>, largestChunk: nat, s: State)
    requires window > 0 && largestChunk > 0 && Run(Start(window), events, largestChunk, s)
    ensures 0 <= Outstanding(s) < window + largestChunk
    ensures Outstanding(s) == |Concat(s.toRenderer)| + |s.queued| + s.unreported + Sum(s.toBroker)
    ensures forall chunk :: Enabled(s, Read(chunk)) ==> (Outstanding(Next(s, Read(chunk))) <= window <==> |chunk| <= s.credit)
  {
    RunKeepsSound(Start(window), events, largestChunk, s);
  }

  /** Reading one byte at a time takes the credit down to 1, after which the largest chunk is still read. */
  lemma {:induction false} OneByteAtATime(s: State, n: nat, largestChunk: nat) returns (events: seq<Event>, s': State)
    requires s.credit > n && largestChunk > 0
    ensures Run(s, events, largestChunk, s') && s'.credit == s.credit - n && s'.window == s.window
    decreases n
  {
    if n == 0 {
      events, s' := [], s;
    } else {
      var one := Read([0]);
      var rest;
      rest, s' := OneByteAtATime(Next(s, one), n - 1, largestChunk);
      events := [one] + rest;
      assert events[1..] == rest;
    }
  }

  lemma {:induction false} RunThen(s: State, events: seq<Event>, largestChunk: nat, s': State, e: Event)
    requires Run(s, events, largestChunk, s') && Enabled(s', e) && !e.Forged? && (e.Read? ==> |e.chunk| <= largestChunk)
    ensures Run(s, events + [e], largestChunk, Next(s', e))
    decreases |events|
  {
    if events == [] {
      assert events + [e] == [e];
      assert Run(Next(s, e), [], largestChunk, Next(s', e));
    } else {
      assert (events + [e])[1..] == events[1..] + [e];
      RunThen(Next(s, events[0]), events[1..], largestChunk, s', e);
    }
  }

  /** The bound is met: for every window and chunk size some run gets exactly that far ahead. */
  lemma TheBoundIsReached(window: nat, largestChunk: nat) returns (events: seq<Event>, s: State)
    requires window > 0 && largestChunk > 0
    ensures Run(Start(window), events, largestChunk, s) && Outstanding(s) == window + largestChunk - 1
  {
    var before;
    events, before := OneByteAtATime(Start(window), window - 1, largestChunk);
    var last := Read(seq(largestChunk, (i: nat) => 0));
    RunThen(Start(window), events, largestChunk, before, last);
    events, s := events + [last], Next(before, last);
  }

  // ---------------------------------------------------------------- progress

  /** Nothing but the socket can move. */
  predicate Quiet(s: State) {
    s.toRenderer == [] && s.queued == [] && s.timers == 0 && s.toBroker == []
  }

  /** What is left to happen, weighted so that every step but a read uses some of it up. */
  function Work(s: State): nat {
    4 * |Concat(s.toRenderer)| + |s.toRenderer| + 4 * |s.queued| + 2 * s.unreported + s.timers + |s.toBroker|
  }

  lemma WorkGoesDown(s: State, e: Event)
    requires Enabled(s, e) && !e.Read? && !e.Forged? && (e.Consumed? ==> e.count > 0)
    ensures Work(Next(s, e)) < Work(s)
  {
  }

  /** Once things go quiet the whole window is available again, whatever the run was; and until then some step can happen. */
  lemma QuietMeansFullCredit(window: nat, events: seq<Event>, largestChunk: nat, s: State)
    requires Run(Start(window), events, largestChunk, s)
    ensures Quiet(s) ==> s.credit == window && s.consumed == s.taken
    ensures !Quiet(s) ==> exists e :: Enabled(s, e) && !e.Read? && !e.Forged? && (e.Consumed? ==> e.count > 0)
  {
    RunKeepsSound(Start(window), events, largestChunk, s);
    if !Quiet(s) {
      var e := if s.toRenderer != [] then Delivered else if s.queued != [] then Consumed(1) else if s.timers > 0 then TimerFired else CreditArrived;
      assert Enabled(s, e);
    }
  }

  /** Credit the renderer still holds back never blocks the reader by itself: with all else drained, less than the threshold is withheld. */
  lemma WithheldCreditNeverBlocks(events: seq<Event>, largestChunk: nat, s: State)
    requires Run(Start(READ_WINDOW_BYTES), events, largestChunk, s)
    requires s.toRenderer == [] && s.queued == [] && s.toBroker == []
    ensures s.credit > READ_WINDOW_BYTES - CREDIT_COALESCE_BYTES > 0
  {
    RunKeepsSound(Start(READ_WINDOW_BYTES), events, largestChunk, s);
  }

  // ---------------------------------------------------------------- how many credit messages there are

  function CountOf(events: seq<Event>, e: Event): nat {
    if events == [] then 0 else (if events[0] == e then 1 else 0) + CountOf(events[1..], e)
  }

  /** `n` messages of 64 KiB each. */
  function Full(n: nat): nat {
    n * CREDIT_COALESCE_BYTES
  }

  lemma StepCoalesces(s: State, e: Event)
    requires Enabled(s, e) && !e.Forged?
    ensures var s' := Next(s, e);
      Full(|s'.toBroker| + if e == CreditArrived then 1 else 0) + s'.unreported + |s.consumed|
      <= Full(|s.toBroker|) + s.unreported + |s'.consumed| + if e == TimerFired then CREDIT_COALESCE_BYTES else 0
  {
  }

  lemma FullAdds(a: nat, b: nat)
    ensures Full(a + b) == Full(a) + Full(b) && Full(0) == 0 && Full(1) == CREDIT_COALESCE_BYTES
  {
  }

  lemma {:induction false} RunCoalesces(s: State, events: seq<Event>, largestChunk: nat, s': State)
    requires Run(s, events, largestChunk, s')
    ensures Full(|s'.toBroker| + CountOf(events, CreditArrived)) + s'.unreported + |s.consumed|
         <= Full(|s.toBroker| + CountOf(events, TimerFired)) + s.unreported + |s'.consumed|
    decreases |events|
  {
    if events != [] {
      var e, t, rest := events[0], Next(s, events[0]), events[1..];
      var arrived, fired := if e == CreditArrived then 1 else 0, if e == TimerFired then 1 else 0;
      StepCoalesces(s, e);
      assert CountOf(events, CreditArrived) == arrived + CountOf(rest, CreditArrived);
      assert CountOf(events, TimerFired) == fired + CountOf(rest, TimerFired);
      assert Run(t, rest, largestChunk, s');
      hide *;
      RunCoalesces(t, rest, largestChunk, s');
      FullAdds(|s'.toBroker| + CountOf(rest, CreditArrived), arrived);
      FullAdds(|t.toBroker|, arrived);
      FullAdds(|t.toBroker|, CountOf(rest, TimerFired));
      FullAdds(|s.toBroker|, CountOf(rest, TimerFired));
      FullAdds(|s.toBroker| + CountOf(rest, TimerFired), fired);
    }
  }

  /** In every run each credit message but those a timer sends is for 64 KiB of consumed bytes of its own, or more. */
  lemma CreditIsCoalesced(window: nat, events: seq<Event>, largestChunk: nat, s: State)
    requires Run(Start(window), events, largestChunk, s)
    ensures Full(|s.toBroker| + CountOf(events, CreditArrived)) <= |s.consumed| + Full(CountOf(events, TimerFired))
  {
    RunCoalesces(Start(window), events, largestChunk, s);
  }

  // ---------------------------------------------------------------- a renderer that lies

  /** A run in which any credit may be claimed at any time. */
  ghost predicate ForgedRun(s: State, events: seq<Event>, largestChunk: nat, s': State)
    decreases |events|
  {
    if events == [] then s' == s
    else
      && Enabled(s, events[0]) && (events[0].Read? ==> |events[0].chunk| <= largestChunk)
      && ForgedRun(Next(s, events[0]), events[1..], largestChunk, s')
  }

  ghost predicate Bounded(s: State, largestChunk: nat) {
    InOrder(s) && -(largestChunk as int) < s.credit <= s.window
  }

  lemma StepKeepsBounded(s: State, e: Event, largestChunk: nat)
    requires Bounded(s, largestChunk) && Enabled(s, e) && (e.Read? ==> |e.chunk| <= largestChunk)
    ensures Bounded(Next(s, e), largestChunk) && Next(s, e).window == s.window
    ensures !e.CreditArrived? && !e.Forged? ==> |Next(s, e).taken| - |s.taken| == s.credit - Next(s, e).credit
  {
    hide Sum;
    match e
    case Read(chunk) =>
      ConcatAppend(s.toRenderer, chunk);
      assert s.consumed + s.queued + (Concat(s.toRenderer) + chunk) == s.consumed + s.queued + Concat(s.toRenderer) + chunk;
    case Delivered =>
      assert s.consumed + (s.queued + s.toRenderer[0]) + Concat(s.toRenderer[1..]) == s.consumed + s.queued + Concat(s.toRenderer);
    case Consumed(count) =>
      assert s.consumed + s.queued[..count] + s.queued[count..] == s.consumed + s.queued;
    case _ =>
  }

  lemma {:induction false} ForgedRunKeepsBounded(s: State, events: seq<Event>, largestChunk: nat, s': State)
    requires Bounded(s, largestChunk) && ForgedRun(s, events, largestChunk, s')
    ensures Bounded(s', largestChunk) && s'.window == s.window
    ensures (forall i :: 0 <= i < |events| ==> !events[i].CreditArrived? && !events[i].Forged?) ==> |s'.taken| - |s.taken| == s.credit - s'.credit
    decreases |events|
  {
    hide Bounded;
    if events != [] {
      StepKeepsBounded(s, events[0], largestChunk);
      hide Next;
      ForgedRunKeepsBounded(Next(s, events[0]), events[1..], largestChunk, s');
    }
  }

  /** Whatever credit is claimed, the budget stays within the window, the broker ahead of it by less than one chunk more, and bytes in order. */
  lemma ForgedCreditIsClamped(window: nat, events: seq<Event>, largestChunk: nat, s: State)
    requires window > 0 && largestChunk > 0 && ForgedRun(Start(window), events, largestChunk, s)
    ensures s.credit <= window && 0 <= Outstanding(s) < window + largestChunk && InOrder(s)
  {
    ForgedRunKeepsBounded(Start(window), events, largestChunk, s);
  }

  /** So one message, true or forged, is worth less than the window and one chunk: no more is read before the next one comes in. */
  lemma OneMessageIsWorthOneWindow(window: nat, events: seq<Event>, largestChunk: nat, s: State, more: seq<Event>, s': State)
    requires window > 0 && largestChunk > 0 && ForgedRun(Start(window), events, largestChunk, s) && ForgedRun(s, more, largestChunk, s')
    requires forall i :: 0 <= i < |more| ==> !more[i].CreditArrived? && !more[i].Forged?
    ensures |s'.taken| - |s.taken| < window + largestChunk
  {
    ForgedRunKeepsBounded(Start(window), events, largestChunk, s);
    ForgedRunKeepsBounded(s, more, largestChunk, s');
  }

  /** But forged credit is credit: by claiming each byte back unread a renderer is sent any number of bytes it has not consumed. */
  lemma {:induction false} UnconsumedBytesPileUp(s: State, n: nat, largestChunk: nat) returns (events: seq<Event>, s': State)
    requires s.credit == s.window > 0 && largestChunk > 0
    ensures ForgedRun(s, events, largestChunk, s') && s'.credit == s'.window == s.window
    ensures s'.consumed == s.consumed && |s'.taken| == |s.taken| + n
    decreases n
  {
    if n == 0 {
      events, s' := [], s;
    } else {
      var s1 := Next(s, Read([0]));
      var s2 := Next(s1, Forged(1));
      var rest;
      rest, s' := UnconsumedBytesPileUp(s2, n - 1, largestChunk);
      events := [Read([0]), Forged(1)] + rest;
      assert events[1..] == [Forged(1)] + rest && events[1..][1..] == rest;
      assert ForgedRun(s1, events[1..], largestChunk, s');
    }
  }
}
