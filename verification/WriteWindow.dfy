/**
 The write direction of a socket's relay: the renderer posts one write at a time and waits for all of it to be
 acknowledged; the broker refuses what goes past its window and acknowledges what the socket has accepted.
 */
module WriteWindow {
  import opened Results
  import opened Sums

  type Byte = bv8

  const WRITE_WINDOW_BYTES: nat := 256 * 1024
  const CREDIT_COALESCE_BYTES: nat := 64 * 1024
  const MAX_PENDING_WRITES: nat := 128

  datatype Pending = Pending(length: nat, acceptedSoFar: nat)

  /** `sent` and `accepted` are all bytes ever posted and ever taken by the socket; `held` the writes the socket has yet to take. */
  datatype State = State(
    window: nat,
    sent: seq<Byte>,
    pending: Option<Pending>,
    toBroker: seq<seq<Byte>>,
    held: seq<seq<Byte>>,
    unacked: nat,
    sinceLastAck: nat,
    refused: bool,
    accepted: seq<Byte>,
    toRenderer: seq<nat>)

  function Start(window: nat): State {
    State(window, [], None, [], [], 0, 0, false, [], [])
  }

  datatype Event = Posted(chunk: seq<Byte>) | Arrived | Accepted | Heartbeat | AckArrived

  predicate Enabled(s: State, e: Event) {
    match e
    case Posted(_) => s.pending.None?
    case Arrived => s.toBroker != []
    case Accepted => s.held != [] && !s.refused
    case Heartbeat => s.held != [] && !s.refused
    case AckArrived => s.toRenderer != []
  }

  function Flush(s: State): State {
    s.(toRenderer := s.toRenderer + [s.sinceLastAck], sinceLastAck := 0)
  }

  predicate Refuses(s: State, chunk: seq<Byte>) {
    s.unacked + |chunk| > s.window || |s.held| >= MAX_PENDING_WRITES
  }

  function Next(s: State, e: Event): State
    requires Enabled(s, e) && (e.Accepted? ==> |s.held[0]| <= s.unacked)
  {
    match e
    case Posted(chunk) => s.(sent := s.sent + chunk, pending := Some(Pending(|chunk|, 0)), toBroker := s.toBroker + [chunk])
    case Arrived =>
      var chunk, s' := s.toBroker[0], s.(toBroker := s.toBroker[1..]);
      if s.refused then s'
      else if Refuses(s, chunk) then s'.(refused := true)
      else s'.(held := s.held + [chunk], unacked := s.unacked + |chunk|)
    case Accepted =>
      var chunk := s.held[0];
      var s' := s.(held := s.held[1..], unacked := s.unacked - |chunk|, sinceLastAck := s.sinceLastAck + |chunk|, accepted := s.accepted + chunk);
      if s'.sinceLastAck >= CREDIT_COALESCE_BYTES || s'.held == [] then Flush(s') else s'
    case Heartbeat => Flush(s)
    case AckArrived =>
      var s' := s.(toRenderer := s.toRenderer[1..]);
      if s.pending.None? then s'
      else
        var p := s.pending.value.(acceptedSoFar := s.pending.value.acceptedSoFar + s.toRenderer[0]);
        s'.(pending := if p.acceptedSoFar >= p.length then None else Some(p))
  }

  // ---------------------------------------------------------------- what always holds

  function Remaining(s: State): int {
    if s.pending.None? then 0 else s.pending.value.length - s.pending.value.acceptedSoFar
  }

  /** The write awaited is exactly what is on its way, held, accepted but unacknowledged, or acknowledged on the way back. */
  ghost predicate Conserved(s: State) {
    && |Concat(s.toBroker)| + |Concat(s.held)| + s.sinceLastAck + Sum(s.toRenderer) == Remaining(s)
    && s.unacked == |Concat(s.held)|
    && (s.pending.Some? ==> s.pending.value.length <= s.window)
  }

  ghost predicate InOrder(s: State) {
    s.accepted + Concat(s.held) + Concat(s.toBroker) == s.sent
  }

  /** An acknowledgement is still to come for whatever is awaited. */
  ghost predicate AckToCome(s: State) {
    && (s.held == [] ==> s.sinceLastAck == 0)
    && (s.pending.Some? && Remaining(s) == 0 ==> s.toBroker != [] || s.held != [] || s.toRenderer != [])
  }

  ghost predicate Sound(s: State) {
    !s.refused && Conserved(s) && InOrder(s) && AckToCome(s)
  }

  lemma AcceptKeepsSound(s: State)
    requires Sound(s) && Enabled(s, Accepted)
    ensures |s.held[0]| <= s.unacked && Sound(Next(s, Accepted))
  {
    var chunk := s.held[0];
    assert Concat(s.held) == chunk + Concat(s.held[1..]);
    assert s.accepted + chunk + Concat(s.held[1..]) + Concat(s.toBroker) == s.accepted + (chunk + Concat(s.held[1..])) + Concat(s.toBroker);
    SumAppend(s.toRenderer, s.sinceLastAck + |chunk|);
  }

  lemma ArriveKeepsSound(s: State)
    requires Sound(s) && Enabled(s, Arrived)
    ensures s.unacked + |s.toBroker[0]| <= s.window
    ensures |s.held| < MAX_PENDING_WRITES ==> Sound(Next(s, Arrived))
    ensures |s.held| >= MAX_PENDING_WRITES ==> Next(s, Arrived).refused
  {
    var chunk := s.toBroker[0];
    assert Concat(s.toBroker) == chunk + Concat(s.toBroker[1..]);
    ConcatAppend(s.held, chunk);
    assert s.accepted + (Concat(s.held) + chunk) + Concat(s.toBroker[1..]) == s.accepted + Concat(s.held) + (chunk + Concat(s.toBroker[1..]));
  }

  lemma PostKeepsSound(s: State, chunk: seq<Byte>)
    requires Sound(s) && Enabled(s, Posted(chunk)) && |chunk| <= s.window
    ensures Sound(Next(s, Posted(chunk)))
  {
    ConcatAppend(s.toBroker, chunk);
    assert s.accepted + Concat(s.held) + (Concat(s.toBroker) + chunk) == s.accepted + Concat(s.held) + Concat(s.toBroker) + chunk;
  }

  lemma AckKeepsSound(s: State, e: Event)
    requires Sound(s) && Enabled(s, e) && (e.Heartbeat? || e.AckArrived?)
    ensures Sound(Next(s, e))
  {
    SumAppend(s.toRenderer, s.sinceLastAck);
  }

  lemma StepKeepsSound(s: State, e: Event)
    requires Sound(s) && Enabled(s, e) && (e.Arrived? ==> |s.held| < MAX_PENDING_WRITES) && (e.Posted? ==> |e.chunk| <= s.window)
    ensures (e.Accepted? ==> |s.held[0]| <= s.unacked) && Sound(Next(s, e))
    ensures Next(s, e).window == s.window
  {
    hide Conserved, InOrder, AckToCome;
    match e
    case Posted(chunk) => PostKeepsSound(s, chunk);
    case Arrived => ArriveKeepsSound(s);
    case Accepted => AcceptKeepsSound(s);
    case Heartbeat => AckKeepsSound(s, e);
    case AckArrived => AckKeepsSound(s, e);
  }

  // ---------------------------------------------------------------- runs of an honest renderer

  /** `most` is the largest write the renderer posts. */
  ghost predicate Run(s: State, events: seq<Event>, most: nat, s': State)
    decreases |events|
  {
    if events == [] then s' == s
    else
      && Enabled(s, events[0]) && (events[0].Accepted? ==> |s.held[0]| <= s.unacked) && (events[0].Posted? ==> |events[0].chunk| <= most)
      && Run(Next(s, events[0]), events[1..], most, s')
  }

  ghost predicate PostsNothingEmpty(events: seq<Event>) {
    forall i :: 0 <= i < |events| && events[i].Posted? ==> events[i].chunk != []
  }

  ghost predicate NothingEmpty(s: State) {
    && (forall i :: 0 <= i < |s.toBroker| ==> s.toBroker[i] != [])
    && (forall i :: 0 <= i < |s.held| ==> s.held[i] != [])
    && |s.toBroker| + |s.held| <= 1
  }

  lemma NothingEmptyMeansNothingLeft(s: State)
    requires Sound(s) && NothingEmpty(s) && s.pending.None?
    ensures s.toBroker == [] && s.held == []
  {
  }

  lemma StepKeepsNothingEmpty(s: State, e: Event)
    requires Sound(s) && NothingEmpty(s) && Enabled(s, e) && (e.Posted? ==> e.chunk != [] && |e.chunk| <= s.window)
    ensures (e.Accepted? ==> |s.held[0]| <= s.unacked) && Sound(Next(s, e)) && NothingEmpty(Next(s, e)) && Next(s, e).window == s.window
  {
    hide Conserved, InOrder, AckToCome, Refuses;
    if e.Posted? {
      NothingEmptyMeansNothingLeft(s);
    }
    StepKeepsSound(s, e);
  }

  /** Without empty writes there is never a refusal: the window is kept by waiting, and one write is out at a time. */
  lemma {:induction false} RunKeepsSound(s: State, events: seq<Event>, most: nat, s': State)
    requires Sound(s) && NothingEmpty(s) && Run(s, events, most, s') && PostsNothingEmpty(events) && most <= s.window
    ensures Sound(s') && NothingEmpty(s') && s'.window == s.window
    decreases |events|
  {
    hide Sound, NothingEmpty, Enabled;
    if events != [] {
      var e := events[0];
      StepKeepsNothingEmpty(s, e);
      hide Next;
      RunKeepsSound(Next(s, e), events[1..], most, s');
    }
  }

  predicate Quiet(s: State) {
    s.toBroker == [] && s.held == [] && s.toRenderer == []
  }

  lemma HeldIsNext(s: State)
    requires Sound(s)
    ensures s.accepted <= s.sent && s.unacked <= (if s.pending.Some? then s.pending.value.length else 0)
    ensures s.toBroker == [] && s.held == [] ==> s.accepted == s.sent
  {
    assert s.sent == s.accepted + (Concat(s.held) + Concat(s.toBroker));
  }

  /** Every write of an honest renderer is taken, and resolves once the socket has accepted it: nothing is withheld from the last one. */
  lemma WritesAreTakenAndResolve(window: nat, events: seq<Event>, most: nat, s: State)
    requires Run(Start(window), events, most, s) && PostsNothingEmpty(events) && most <= window
    ensures !s.refused && s.unacked <= window && |s.held| <= 1
    ensures s.accepted <= s.sent
    ensures Quiet(s) ==> s.pending.None? && s.accepted == s.sent
    ensures s.pending.None? ==> s.accepted == s.sent
  {
    RunKeepsSound(Start(window), events, most, s);
    hide Run, InOrder;
    HeldIsNext(s);
    if s.pending.None? {
      NothingEmptyMeansNothingLeft(s);
    }
  }

  /** A step that is the relay's own to take: no new write, and no heartbeat. */
  ghost predicate Moves(s: State, e: Event) {
    Enabled(s, e) && !e.Posted? && !e.Heartbeat? && (e.Accepted? ==> |s.held[0]| <= s.unacked)
  }

  function Work(s: State): nat {
    3 * |s.toBroker| + 2 * |s.held| + |s.toRenderer|
  }

  lemma WorkGoesDown(s: State, e: Event)
    requires Moves(s, e)
    ensures Work(Next(s, e)) < Work(s)
  {
  }

  /** Until things are quiet some such step can be taken. */
  lemma NotQuietMoves(s: State)
    requires Sound(s) && !Quiet(s)
    ensures exists e :: Moves(s, e)
  {
    if s.toRenderer != [] {
      assert Moves(s, AckArrived);
    } else if s.toBroker != [] {
      assert Moves(s, Arrived);
    } else {
      AcceptKeepsSound(s);
      assert Moves(s, Accepted);
    }
  }

  lemma {:induction false} RunsDown(s: State, most: nat) returns (more: seq<Event>, s': State)
    requires Sound(s) && NothingEmpty(s)
    ensures Run(s, more, most, s') && Quiet(s') && s'.sent == s.sent
    ensures forall i :: 0 <= i < |more| ==> !more[i].Posted? && !more[i].Heartbeat?
    decreases Work(s)
  {
    hide Sound, NothingEmpty;
    if Quiet(s) {
      more, s' := [], s;
    } else {
      NotQuietMoves(s);
      var e :| Moves(s, e);
      StepKeepsNothingEmpty(s, e);
      WorkGoesDown(s, e);
      var rest;
      rest, s' := RunsDown(Next(s, e), most);
      more := [e] + rest;
      assert more[1..] == rest;
    }
  }

  /**
   From wherever a run of such a renderer has got to, the relay can take a step of its own until things are quiet, and such
   steps lead there, with all that was posted accepted by the socket and resolved.
   */
  lemma EveryWriteCanResolve(window: nat, events: seq<Event>, most: nat, s: State) returns (more: seq<Event>, s': State)
    requires Run(Start(window), events, most, s) && PostsNothingEmpty(events) && most <= window
    ensures !Quiet(s) ==> exists e :: Moves(s, e)
    ensures Run(s, more, most, s') && forall i :: 0 <= i < |more| ==> !more[i].Posted? && !more[i].Heartbeat?
    ensures Quiet(s') && s'.pending.None? && s'.accepted == s'.sent == s.sent
  {
    RunKeepsSound(Start(window), events, most, s);
    if !Quiet(s) {
      NotQuietMoves(s);
    }
    more, s' := RunsDown(s, most);
    hide Sound, NothingEmpty, Enabled, Next;
    RunThen(Start(window), events, most, s, more, s');
    assert PostsNothingEmpty(events + more);
    WritesAreTakenAndResolve(window, events + more, most, s');
  }

  /** And whichever of them are taken, there are at most so many. */
  lemma {:induction false} AtMostWorkMany(s: State, more: seq<Event>, most: nat, s': State)
    requires Run(s, more, most, s') && forall i :: 0 <= i < |more| ==> !more[i].Posted? && !more[i].Heartbeat?
    ensures |more| + Work(s') <= Work(s)
    decreases |more|
  {
    if more != [] {
      WorkGoesDown(s, more[0]);
      AtMostWorkMany(Next(s, more[0]), more[1..], most, s');
    }
  }

  // ---------------------------------------------------------------- how many acknowledgements there are

  /** Heartbeats, and acceptances that leave the socket nothing to take. */
  ghost function Occasions(s: State, events: seq<Event>): nat
    decreases |events|
  {
    if events == [] || !Enabled(s, events[0]) || (events[0].Accepted? && |s.held[0]| > s.unacked) then 0
    else (if events[0].Heartbeat? || (events[0].Accepted? && |s.held| == 1) then 1 else 0) + Occasions(Next(s, events[0]), events[1..])
  }

  function Arrivals(events: seq<Event>): nat {
    if events == [] then 0 else (if events[0].AckArrived? then 1 else 0) + Arrivals(events[1..])
  }

  /** `n` acknowledgements of 64 KiB each. */
  function Full(n: nat): nat {
    n * CREDIT_COALESCE_BYTES
  }

  lemma StepCoalesces(s: State, e: Event)
    requires Enabled(s, e) && (e.Accepted? ==> |s.held[0]| <= s.unacked)
    ensures var s' := Next(s, e);
      Full(|s'.toRenderer| + if e.AckArrived? then 1 else 0) + s'.sinceLastAck + |s.accepted|
      <= Full(|s.toRenderer| + if e.Heartbeat? || (e.Accepted? && |s.held| == 1) then 1 else 0) + s.sinceLastAck + |s'.accepted|
  {
  }

  lemma FullAdds(a: nat, b: nat)
    ensures Full(a + b) == Full(a) + Full(b) && Full(0) == 0 && Full(1) == CREDIT_COALESCE_BYTES
  {
  }

  lemma {:induction false} RunCoalesces(s: State, events: seq<Event>, most: nat, s': State)
    requires Run(s, events, most, s')
    ensures Full(|s'.toRenderer| + Arrivals(events)) + s'.sinceLastAck + |s.accepted| <= Full(|s.toRenderer| + Occasions(s, events)) + s.sinceLastAck + |s'.accepted|
    decreases |events|
  {
    if events != [] {
      var e, t, rest := events[0], Next(s, events[0]), events[1..];
      StepCoalesces(s, e);
      var arrived, occasion := if e.AckArrived? then 1 else 0, if e.Heartbeat? || (e.Accepted? && |s.held| == 1) then 1 else 0;
      assert Occasions(s, events) == occasion + Occasions(t, rest) && Arrivals(events) == arrived + Arrivals(rest);
      assert Run(t, rest, most, s');
      hide *;
      RunCoalesces(t, rest, most, s');
      FullAdds(|s'.toRenderer| + Arrivals(rest), arrived);
      FullAdds(|t.toRenderer|, arrived);
      FullAdds(|t.toRenderer|, Occasions(t, rest));
      FullAdds(|s.toRenderer|, occasion);
      FullAdds(|s.toRenderer| + occasion, Occasions(t, rest));
    }
  }

  /** In every run each acknowledgement but those of such occasions is for 64 KiB of accepted bytes of its own, or more. */
  lemma AcknowledgementsAreCoalesced(window: nat, events: seq<Event>, most: nat, s: State)
    requires Run(Start(window), events, most, s)
    ensures Full(|s.toRenderer| + Arrivals(events)) <= |s.accepted| + Full(Occasions(Start(window), events))
  {
    RunCoalesces(Start(window), events, most, s);
  }

  // ---------------------------------------------------------------- when a renderer is refused

  /** A renderer that posts no empty write is never refused, whatever the run, exactly if its largest write is no larger than the window. */
  lemma LargestWriteIsTheWindow(window: nat, most: nat)
    ensures (forall events, s :: Run(Start(window), events, most, s) && PostsNothingEmpty(events) ==> !s.refused) <==> most <= window
  {
    if most <= window {
      forall events, s | Run(Start(window), events, most, s) && PostsNothingEmpty(events)
        ensures !s.refused
      {
        WritesAreTakenAndResolve(window, events, most, s);
      }
    } else {
      var chunk: seq<Byte> := seq(most, (i: nat) => 0);
      var s1 := Next(Start(window), Posted(chunk));
      var s := Next(s1, Arrived);
      var events := [Posted(chunk), Arrived];
      assert Run(s1, [Arrived], most, s) by { assert [Arrived][1..] == []; }
      assert Run(Start(window), events, most, s) by { assert events[1..] == [Arrived]; }
      assert s.refused && PostsNothingEmpty(events);
    }
  }

  /** Somewhere in the run a write arrives while as many are held as may be. */
  ghost predicate EverFull(s: State, events: seq<Event>)
    decreases |events|
  {
    events != [] && Enabled(s, events[0]) && (events[0].Accepted? ==> |s.held[0]| <= s.unacked)
    && ((events[0].Arrived? && |s.held| >= MAX_PENDING_WRITES) || EverFull(Next(s, events[0]), events[1..]))
  }

  lemma {:induction false} RefusedForGood(s: State, events: seq<Event>, most: nat, s': State)
    requires s.refused && Run(s, events, most, s')
    ensures s'.refused
    decreases |events|
  {
    if events != [] {
      RefusedForGood(Next(s, events[0]), events[1..], most, s');
    }
  }

  lemma {:induction false} RefusedIffFull(s: State, events: seq<Event>, most: nat, s': State)
    requires Sound(s) && Run(s, events, most, s') && most <= s.window
    ensures s'.refused <==> EverFull(s, events)
    decreases |events|
  {
    hide Conserved, InOrder, AckToCome;
    if events != [] {
      var e := events[0];
      if e.Arrived? && |s.held| >= MAX_PENDING_WRITES {
        ArriveKeepsSound(s);
        RefusedForGood(Next(s, e), events[1..], most, s');
      } else {
        StepKeepsSound(s, e);
        RefusedIffFull(Next(s, e), events[1..], most, s');
      }
    }
  }

  /** One that may post empty writes, none larger than the window, is refused exactly if some write finds 128 held; with no empty one, at most one ever is. */
  lemma RefusedByCountOnly(window: nat, events: seq<Event>, most: nat, s: State)
    requires Run(Start(window), events, most, s) && most <= window
    ensures s.refused <==> EverFull(Start(window), events)
    ensures PostsNothingEmpty(events) ==> !EverFull(Start(window), events)
  {
    RefusedIffFull(Start(window), events, most, s);
    if PostsNothingEmpty(events) {
      WritesAreTakenAndResolve(window, events, most, s);
    }
  }

  /** A write as the renderer posts it: whole if it fits the window, otherwise in pieces of the window's size and a rest. */
  method SplitWrite(chunk: seq<Byte>) returns (pieces: seq<seq<Byte>>)
    ensures Concat(pieces) == chunk
    ensures forall i :: 0 <= i < |pieces| ==> |pieces[i]| <= WRITE_WINDOW_BYTES
    ensures forall i :: 0 <= i < |pieces| - 1 ==> |pieces[i]| == WRITE_WINDOW_BYTES
    ensures chunk != [] ==> forall i :: 0 <= i < |pieces| ==> pieces[i] != []
    ensures |chunk| <= WRITE_WINDOW_BYTES ==> pieces == [chunk]
  {
    if |chunk| <= WRITE_WINDOW_BYTES {
      return [chunk];
    }
    pieces := [];
    var offset := 0;
    while offset < |chunk|
      invariant 0 <= offset <= |chunk| && Concat(pieces) == chunk[..offset]
      invariant forall i :: 0 <= i < |pieces| ==> 0 < |pieces[i]| <= WRITE_WINDOW_BYTES
      invariant forall i :: 0 <= i < |pieces| - 1 ==> |pieces[i]| == WRITE_WINDOW_BYTES
      invariant offset < |chunk| && pieces != [] ==> |pieces[|pieces| - 1]| == WRITE_WINDOW_BYTES
    {
      var end := Min(offset + WRITE_WINDOW_BYTES, |chunk|);
      ConcatAppend(pieces, chunk[offset..end]);
      assert chunk[..end] == chunk[..offset] + chunk[offset..end];
      pieces := pieces + [chunk[offset..end]];
      offset := end;
    }
    assert chunk[..offset] == chunk;
  }

  // ---------------------------------------------------------------- empty writes

  lemma {:induction false} RunThen(s: State, events: seq<Event>, most: nat, s': State, more: seq<Event>, s'': State)
    requires Run(s, events, most, s') && Run(s', more, most, s'')
    ensures Run(s, events + more, most, s'')
    decreases |events|
  {
    if events == [] {
      assert events + more == more;
    } else {
      assert (events + more)[1..] == events[1..] + more;
      RunThen(Next(s, events[0]), events[1..], most, s', more, s'');
    }
  }

  /** Nothing but `n` empty writes the socket has yet to take. */
  function EmptyWrites(window: nat, n: nat): State {
    Start(window).(held := seq(n, (i: nat) => []))
  }

  /** An empty write is resolved by a heartbeat, with the socket yet to take it. */
  lemma OneMoreEmptyWrite(window: nat, most: nat, n: nat) returns (round: seq<Event>)
    requires n < MAX_PENDING_WRITES
    ensures Run(EmptyWrites(window, n), round, most, EmptyWrites(window, n + 1))
  {
    var s0, s := EmptyWrites(window, n), EmptyWrites(window, n + 1);
    hide EmptyWrites;
    HeldGrows(window, n);
    var s1 := Next(s0, Posted([]));
    assert s1.toBroker == [[]];
    var s2 := Next(s1, Arrived);
    assert s2 == s.(pending := Some(Pending(0, 0)));
    var s3 := Next(s2, Heartbeat);
    assert s3.toRenderer == [0];
    assert Next(s3, AckArrived) == s;
    hide Next, Enabled;
    RunFrom(s3, AckArrived, [], most, s);
    RunFrom(s2, Heartbeat, [AckArrived], most, s);
    RunFrom(s1, Arrived, [Heartbeat, AckArrived], most, s);
    RunFrom(s0, Posted([]), [Arrived, Heartbeat, AckArrived], most, s);
    round := [Posted([]), Arrived, Heartbeat, AckArrived];
  }

  lemma RunFrom(s: State, e: Event, rest: seq<Event>, most: nat, s': State)
    requires Enabled(s, e) && (e.Accepted? ==> |s.held[0]| <= s.unacked) && (e.Posted? ==> |e.chunk| <= most)
    requires Run(Next(s, e), rest, most, s')
    ensures Run(s, [e] + rest, most, s')
  {
    assert ([e] + rest)[1..] == rest;
  }

  lemma HeldGrows(window: nat, n: nat)
    ensures var s := EmptyWrites(window, n);
      EmptyWrites(window, n + 1) == s.(held := s.held + [[]]) && |s.held| == n && s == Start(window).(held := s.held)
  {
    assert EmptyWrites(window, n + 1).held == EmptyWrites(window, n).held + [[]];
  }

  /** So they can pile up. */
  lemma {:induction false} EmptyWritesPileUp(window: nat, most: nat, n: nat) returns (events: seq<Event>)
    requires n <= MAX_PENDING_WRITES
    ensures Run(Start(window), events, most, EmptyWrites(window, n))
    decreases n
  {
    if n == 0 {
      events := [];
      assert EmptyWrites(window, 0).held == [];
    } else {
      var before := EmptyWritesPileUp(window, most, n - 1);
      var round := OneMoreEmptyWrite(window, most, n - 1);
      RunThen(Start(window), before, most, EmptyWrites(window, n - 1), round, EmptyWrites(window, n));
      events := before + round;
    }
  }

  /** So an honest renderer can be refused after all, by the count of writes and only through empty ones. */
  lemma EmptyWritesCanBeRefused(window: nat, most: nat) returns (events: seq<Event>, s: State)
    ensures Run(Start(window), events, most, s) && s.refused
  {
    var before := EmptyWritesPileUp(window, most, MAX_PENDING_WRITES);
    var s0 := EmptyWrites(window, MAX_PENDING_WRITES);
    var s1 := Next(s0, Posted([]));
    s := Next(s1, Arrived);
    assert Run(s1, [Arrived], most, s) by { assert [Arrived][1..] == []; }
    var last := [Posted([]), Arrived];
    assert Run(s0, last, most, s) by { assert last[1..] == [Arrived]; }
    RunThen(Start(window), before, most, s0, last, s);
    events := before + last;
  }
}
