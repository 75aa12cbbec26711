/**
 The inbound direction of a datagram socket's relay: a window counted in datagrams and in bytes, consumption reported by
 count, and the running total of datagrams the adapter had to discard.
 */
module DatagramWindow {
  import opened Sums

  /**
   The limits, and whether the renderer also reports less than `coalesce` datagrams at the next microtask, as it does;
   reporting by count alone is kept beside it to show what that microtask is for.
   */
  datatype Config = Config(countWindow: nat, byteWindow: nat, coalesce: nat, largest: nat, prompt: bool)

  const LIMITS := Config(256, 1024 * 1024, 32, 65507, true)

  datatype Message = Datagram(size: nat, dropped: nat) | DropReport(dropped: nat)

  datatype Credit = Credit(datagrams: nat, bytes: nat)

  datatype State = State(
    credit: int,
    creditBytes: int,
    toRenderer: seq<Message>,
    queued: seq<nat>,
    unreported: nat,
    unreportedBytes: nat,
    flushScheduled: bool,
    toBroker: seq<Credit>,
    /** Discarded by the adapter so far, what the pump last said of it, and what the page was last told. */
    drops: nat,
    lastReported: nat,
    shown: nat,
    /** Whether the pump has sent any total yet. */
    told: bool)

  function Start(c: Config, drops: nat): State {
    State(c.countWindow, c.byteWindow, [], [], 0, 0, false, [], drops, drops, 0, false)
  }

  datatype Event =
    | Read(size: nat)
    | Discarded
    | Reported
    | Delivered
    | Consumed(count: nat)
    | Flushed
    | CreditArrived

  predicate CanRead(s: State) {
    s.credit > 0 && s.creditBytes > 0
  }

  predicate Enabled(c: Config, s: State, e: Event) {
    match e
    case Read(size) => CanRead(s) && size <= c.largest
    case Discarded => true
    case Reported => !CanRead(s) && s.drops != s.lastReported
    case Delivered => s.toRenderer != []
    case Consumed(count) => 0 < count <= |s.queued|
    case Flushed => s.flushScheduled
    case CreditArrived => s.toBroker != []
  }

  function Flush(s: State): State {
    if s.unreported == 0 then s.(flushScheduled := false)
    else s.(flushScheduled := false, toBroker := s.toBroker + [Credit(s.unreported, s.unreportedBytes)], unreported := 0, unreportedBytes := 0)
  }

  function Report(c: Config, s: State, count: nat, bytes: nat): State {
    var s' := s.(unreported := s.unreported + count, unreportedBytes := s.unreportedBytes + bytes);
    if s'.unreported >= c.coalesce then Flush(s') else s'.(flushScheduled := s'.flushScheduled || c.prompt)
  }

  function Max(a: nat, b: nat): nat {
    if a <= b then b else a
  }

  function Next(c: Config, s: State, e: Event): State
    requires Enabled(c, s, e)
  {
    match e
    case Read(size) =>
      s.(credit := s.credit - 1, creditBytes := s.creditBytes - size, lastReported := s.drops, told := true,
         toRenderer := s.toRenderer + [Datagram(size, s.drops)])
    case Discarded => s.(drops := s.drops + 1)
    case Reported => s.(lastReported := s.drops, told := true, toRenderer := s.toRenderer + [DropReport(s.drops)])
    case Delivered =>
      var m := s.toRenderer[0];
      s.(toRenderer := s.toRenderer[1..], shown := Max(s.shown, m.dropped), queued := if m.Datagram? then s.queued + [m.size] else s.queued)
    case Consumed(count) => Report(c, s.(queued := s.queued[count..]), count, Sum(s.queued[..count]))
    case Flushed => Flush(s)
    case CreditArrived =>
      s.(credit := Min(s.credit + s.toBroker[0].datagrams, c.countWindow), creditBytes := Min(s.creditBytes + s.toBroker[0].bytes, c.byteWindow),
         toBroker := s.toBroker[1..])
  }

  // ---------------------------------------------------------------- conservation

  function SizeOf(m: Message): seq<nat> {
    if m.Datagram? then [m.size] else []
  }

  function Sizes(messages: seq<Message>): seq<nat> {
    if messages == [] then [] else SizeOf(messages[0]) + Sizes(messages[1..])
  }

  lemma {:induction false} SizesAppend(messages: seq<Message>, m: Message)
    ensures Sizes(messages + [m]) == Sizes(messages) + SizeOf(m)
  {
    hide SizeOf;
    if messages == [] {
      assert messages + [m] == [m];
      assert Sizes([m]) == SizeOf(m) + Sizes([]);
    } else {
      assert (messages + [m])[1..] == messages[1..] + [m] && (messages + [m])[0] == messages[0];
      SizesAppend(messages[1..], m);
    }
  }

  lemma {:induction false} SumConcat(a: seq<nat>, b: seq<nat>)
    ensures Sum(a + b) == Sum(a) + Sum(b)
  {
    if a == [] {
      assert a + b == b;
    } else {
      assert (a + b)[1..] == a[1..] + b;
      SumConcat(a[1..], b);
    }
  }

  lemma {:induction false} SumBounded(s: seq<nat>, most: nat)
    requires forall i :: 0 <= i < |s| ==> s[i] <= most
    ensures Sum(s) <= Times(|s|, most)
  {
    if s != [] {
      SumBounded(s[1..], most);
      TimesAdds(1, |s| - 1, most);
    }
  }

  function Times(n: nat, size: nat): nat {
    n * size
  }

  lemma TimesAdds(m: nat, n: nat, size: nat)
    ensures Times(m + n, size) == Times(m, size) + Times(n, size) && Times(1, size) == size && Times(0, size) == 0
  {
  }

  lemma TimesGrows(m: nat, n: nat, size: nat)
    requires m <= n
    ensures Times(m, size) <= Times(n, size)
  {
    TimesAdds(m, n - m, size);
  }

  function Counts(credits: seq<Credit>): nat {
    if credits == [] then 0 else credits[0].datagrams + Counts(credits[1..])
  }

  function Bytes(credits: seq<Credit>): nat {
    if credits == [] then 0 else credits[0].bytes + Bytes(credits[1..])
  }

  lemma {:induction false} CreditsAppend(credits: seq<Credit>, x: Credit)
    ensures Counts(credits + [x]) == Counts(credits) + x.datagrams && Bytes(credits + [x]) == Bytes(credits) + x.bytes
  {
    if credits != [] {
      assert (credits + [x])[1..] == credits[1..] + [x];
      CreditsAppend(credits[1..], x);
    }
  }

  /** The datagrams sent and not yet consumed, in order. */
  function Pending(s: State): seq<nat> {
    s.queued + Sizes(s.toRenderer)
  }

  ghost predicate Conserved(c: Config, s: State) {
    && s.credit + |Pending(s)| + s.unreported + Counts(s.toBroker) == c.countWindow
    && s.creditBytes + Sum(Pending(s)) + s.unreportedBytes + Bytes(s.toBroker) == c.byteWindow
  }

  ghost predicate Sound(c: Config, s: State) {
    && Conserved(c, s)
    && 0 <= s.credit && -(c.largest as int) < s.creditBytes
    && (forall i :: 0 <= i < |Pending(s)| ==> Pending(s)[i] <= c.largest)
    && s.unreportedBytes <= Times(s.unreported, c.largest)
    && (s.unreported > 0 ==> s.unreported < c.coalesce && (c.prompt ==> s.flushScheduled))
  }

  ghost predicate Fits(c: Config) {
    c.largest > 0 && c.coalesce > 0 && c.countWindow > 0 && c.byteWindow > 0
  }

  lemma FlushKeepsSound(c: Config, s: State)
    requires Conserved(c, s) && 0 <= s.credit && -(c.largest as int) < s.creditBytes
    requires forall i :: 0 <= i < |Pending(s)| ==> Pending(s)[i] <= c.largest
    requires s.unreported == 0 ==> s.unreportedBytes == 0
    ensures Sound(c, Flush(s))
  {
    CreditsAppend(s.toBroker, Credit(s.unreported, s.unreportedBytes));
  }

  /** Consumed and not yet reported. */
  function Eaten(s: State, count: nat): State
    requires count <= |s.queued|
  {
    s.(queued := s.queued[count..], unreported := s.unreported + count, unreportedBytes := s.unreportedBytes + Sum(s.queued[..count]))
  }

  lemma EatingConserves(c: Config, s: State, count: nat)
    requires Conserved(c, s) && count <= |s.queued| && forall i :: 0 <= i < |Pending(s)| ==> Pending(s)[i] <= c.largest
    ensures Conserved(c, Eaten(s, count)) && Sum(s.queued[..count]) <= Times(count, c.largest)
    ensures forall i :: 0 <= i < |Pending(Eaten(s, count))| ==> Pending(Eaten(s, count))[i] <= c.largest
  {
    hide Times, Sum, Sizes, Counts, Bytes;
    var eaten, left := s.queued[..count], Pending(Eaten(s, count));
    assert Pending(s) == eaten + left;
    SumConcat(eaten, left);
    assert forall i :: 0 <= i < |left| ==> left[i] == Pending(s)[count + i];
    assert forall i :: 0 <= i < |eaten| ==> eaten[i] == Pending(s)[i];
    SumBounded(eaten, c.largest);
  }

  lemma ConsumeKeepsSound(c: Config, s: State, count: nat)
    requires Sound(c, s) && 0 < count <= |s.queued|
    ensures Sound(c, Next(c, s, Consumed(count)))
  {
    EatingConserves(c, s, count);
    TimesAdds(s.unreported, count, c.largest);
    hide Times, Sum, Sizes, Counts, Bytes;
    var s0 := Eaten(s, count);
    if s0.unreported >= c.coalesce {
      FlushKeepsSound(c, s0);
    } else {
      assert Pending(Next(c, s, Consumed(count))) == Pending(s0);
    }
  }

  lemma ReadKeepsSound(c: Config, s: State, size: nat)
    requires Sound(c, s) && Enabled(c, s, Read(size))
    ensures Sound(c, Next(c, s, Read(size)))
  {
    hide Times;
    SizesAppend(s.toRenderer, Datagram(size, s.drops));
    assert Pending(Next(c, s, Read(size))) == Pending(s) + [size];
    SumAppend(Pending(s), size);
  }

  lemma DeliveryKeepsSound(c: Config, s: State)
    requires Sound(c, s) && s.toRenderer != []
    ensures Sound(c, Next(c, s, Delivered))
  {
    hide Times, Sum, Counts, Bytes;
    assert Pending(Next(c, s, Delivered)) == Pending(s);
  }

  lemma ReportKeepsSound(c: Config, s: State)
    requires Sound(c, s) && Enabled(c, s, Reported)
    ensures Sound(c, Next(c, s, Reported))
  {
    hide Times, Sum, Sizes, Counts, Bytes;
    SizesAppend(s.toRenderer, DropReport(s.drops));
    assert Pending(Next(c, s, Reported)) == Pending(s);
  }

  lemma CreditKeepsSound(c: Config, s: State)
    requires Sound(c, s) && s.toBroker != []
    ensures Sound(c, Next(c, s, CreditArrived))
  {
    hide Times, Sum, Sizes;
    assert Pending(Next(c, s, CreditArrived)) == Pending(s);
  }

  lemma StepKeepsSound(c: Config, s: State, e: Event)
    requires Sound(c, s) && Enabled(c, s, e)
    ensures Sound(c, Next(c, s, e))
  {
    hide Times, Sum, Sizes, Counts, Bytes;
    TimesAdds(0, 0, c.largest);
    match e
    case Read(size) => ReadKeepsSound(c, s, size);
    case Discarded =>
    case Reported => ReportKeepsSound(c, s);
    case Delivered => DeliveryKeepsSound(c, s);
    case Consumed(count) => ConsumeKeepsSound(c, s, count);
    case Flushed => FlushKeepsSound(c, s);
    case CreditArrived => CreditKeepsSound(c, s);
  }

  ghost predicate Run(c: Config, s: State, events: seq<Event>, s': State)
    decreases |events|
  {
    if events == [] then s' == s else Enabled(c, s, events[0]) && Run(c, Next(c, s, events[0]), events[1..], s')
  }

  lemma {:induction false} RunKeepsSound(c: Config, s: State, events: seq<Event>, s': State)
    requires Sound(c, s) && Run(c, s, events, s')
    ensures Sound(c, s')
    decreases |events|
  {
    if events != [] {
      StepKeepsSound(c, s, events[0]);
      RunKeepsSound(c, Next(c, s, events[0]), events[1..], s');
    }
  }

  // ---------------------------------------------------------------- how much is outstanding

  /**
   The count window is never exceeded. The byte window is exceeded by less than one datagram, since a read is let through
   while any byte of credit is left: a read stays within it iff the datagram fits what is left.
   */
  lemma OutstandingIsBounded(c: Config, drops: nat, events: seq<Event>, s: State)
    requires Fits(c) && Run(c, Start(c, drops), events, s)
    ensures 0 <= c.countWindow - s.credit <= c.countWindow
    ensures c.countWindow - s.credit == |Pending(s)| + s.unreported + Counts(s.toBroker)
    ensures 0 <= c.byteWindow - s.creditBytes < c.byteWindow + c.largest
    ensures c.byteWindow - s.creditBytes == Sum(Pending(s)) + s.unreportedBytes + Bytes(s.toBroker)
    ensures forall size: nat :: Enabled(c, s, Read(size)) ==> (c.byteWindow - Next(c, s, Read(size)).creditBytes <= c.byteWindow <==> size <= s.creditBytes)
  {
    RunKeepsSound(c, Start(c, drops), events, s);
  }

  function AfterReads(s: State, n: nat, size: nat): State {
    s.(credit := s.credit - n, creditBytes := s.creditBytes - Times(n, size),
       toRenderer := s.toRenderer + seq(n, (i: nat) => Datagram(size, s.drops)),
       lastReported := if n > 0 then s.drops else s.lastReported, told := s.told || n > 0)
  }

  /** `n` reads of one size, as far as the credit goes. */
  lemma {:induction false} ReadMany(c: Config, s: State, n: nat, size: nat) returns (events: seq<Event>)
    requires s.credit >= n && size <= c.largest && (n > 0 ==> s.creditBytes > Times(n - 1, size))
    ensures Run(c, s, events, AfterReads(s, n, size))
    decreases n
  {
    TimesAdds(0, 0, size);
    if n == 0 {
      events := [];
      assert s.toRenderer + seq(n, (i: nat) => Datagram(size, s.drops)) == s.toRenderer;
    } else {
      var s1 := Next(c, s, Read(size));
      TimesAdds(1, n - 1, size);
      if n > 1 {
        TimesAdds(1, n - 2, size);
      }
      var rest := ReadMany(c, s1, n - 1, size);
      events := [Read(size)] + rest;
      assert events[1..] == rest;
      assert [Datagram(size, s.drops)] + seq(n - 1, (i: nat) => Datagram(size, s.drops)) == seq(n, (i: nat) => Datagram(size, s.drops));
      assert AfterReads(s1, n - 1, size) == AfterReads(s, n, size);
    }
  }

  lemma {:induction false} RunThen(c: Config, s: State, events: seq<Event>, s': State, more: seq<Event>, s'': State)
    requires Run(c, s, events, s') && Run(c, s', more, s'')
    ensures Run(c, s, events + more, s'')
    decreases |events|
  {
    if events == [] {
      assert events + more == more;
    } else {
      assert (events + more)[1..] == events[1..] + more;
      RunThen(c, Next(c, s, events[0]), events[1..], s', more, s'');
    }
  }

  /** With the real limits the excess is met: 16 of the largest, one of 463 bytes, and a byte of credit lets in one more. */
  lemma RealByteWindowIsExceeded() returns (events: seq<Event>, s: State)
    ensures Run(LIMITS, Start(LIMITS, 0), events, s) && LIMITS.byteWindow - s.creditBytes == LIMITS.byteWindow + LIMITS.largest - 1
  {
    var s0 := Start(LIMITS, 0);
    var s1 := AfterReads(s0, 16, LIMITS.largest);
    var s2 := AfterReads(s1, 1, 463);
    s := AfterReads(s2, 1, LIMITS.largest);
    var large := ReadMany(LIMITS, s0, 16, LIMITS.largest);
    var small := ReadMany(LIMITS, s1, 1, 463);
    var last := ReadMany(LIMITS, s2, 1, LIMITS.largest);
    RunThen(LIMITS, s0, large, s1, small, s2);
    RunThen(LIMITS, s0, large + small, s2, last, s);
    events := large + small + last;
  }

  // ---------------------------------------------------------------- progress

  /** All that was sent has been consumed and all that was reported has arrived; nothing but the network can move. */
  predicate Drained(s: State) {
    s.toRenderer == [] && s.queued == [] && !s.flushScheduled && s.toBroker == []
  }

  /** With the microtask, a drained window is the whole window, whatever the run: the next datagram of any size is read. */
  lemma DrainedIsFull(c: Config, drops: nat, events: seq<Event>, s: State)
    requires Fits(c) && c.prompt && Run(c, Start(c, drops), events, s) && Drained(s)
    ensures s.credit == c.countWindow && s.creditBytes == c.byteWindow
    ensures forall size: nat :: size <= c.largest ==> Enabled(c, s, Read(size))
  {
    RunKeepsSound(c, Start(c, drops), events, s);
  }

  /** Until it is drained, something of it can always happen, and every such step uses up work. */
  function Work(s: State): nat {
    4 * |s.toRenderer| + 3 * |s.queued| + (if s.flushScheduled then 1 else 0) + s.unreported + |s.toBroker|
  }

  lemma WorkGoesDown(c: Config, s: State, e: Event)
    requires Enabled(c, s, e) && !e.Read? && !e.Discarded? && !e.Reported?
    ensures Work(Next(c, s, e)) < Work(s)
  {
  }

  lemma NotDrainedMoves(c: Config, s: State)
    requires !Drained(s)
    ensures exists e :: Enabled(c, s, e) && !e.Read? && !e.Discarded? && !e.Reported?
  {
    var e := if s.toRenderer != [] then Delivered else if s.queued != [] then Consumed(1) else if s.flushScheduled then Flushed else CreditArrived;
    assert Enabled(c, s, e);
  }

  // ---------------------------------------------------------------- reporting by count alone

  /** What reporting by count alone needs of the numbers: what may be held back is short of either window. */
  predicate CountAloneSuffices(c: Config) {
    0 < c.coalesce <= c.countWindow && Times(c.coalesce - 1, c.largest) < c.byteWindow
  }

  ghost predicate StuckAfter(c: Config, events: seq<Event>, s: State) {
    Run(c, Start(c, 0), events, s) && Drained(s) && !CanRead(s)
  }

  lemma CountAloneNeverSticks(c: Config, drops: nat, events: seq<Event>, s: State)
    requires Fits(c) && !c.prompt && CountAloneSuffices(c) && Run(c, Start(c, drops), events, s) && Drained(s)
    ensures CanRead(s)
  {
    RunKeepsSound(c, Start(c, drops), events, s);
    if s.unreported > 0 {
      TimesGrows(s.unreported, c.coalesce - 1, c.largest);
    }
  }

  /** Delivering and consuming `n` datagrams one by one, too few in all to be reported. */
  lemma {:induction false} ConsumeMany(c: Config, s: State, n: nat, size: nat) returns (events: seq<Event>, s': State)
    requires !c.prompt && s.unreported + n < c.coalesce && s.queued == [] && s.toRenderer == seq(n, (i: nat) => Datagram(size, s.drops))
    ensures Run(c, s, events, s')
    ensures s' == s.(toRenderer := [], shown := s'.shown, unreported := s'.unreported, unreportedBytes := s'.unreportedBytes)
    decreases n
  {
    if n == 0 {
      events, s' := [], s;
    } else {
      var s1 := Next(c, s, Delivered);
      assert s1.queued == [size];
      var s2 := Next(c, s1, Consumed(1));
      assert s2.queued == [];
      assert s2.toRenderer == seq(n - 1, (i: nat) => Datagram(size, s2.drops));
      var rest;
      rest, s' := ConsumeMany(c, s2, n - 1, size);
      events := [Delivered, Consumed(1)] + rest;
      assert events[1..] == [Consumed(1)] + rest;
      assert events[1..][1..] == rest;
    }
  }

  /** The fewest datagrams of the largest size that use up a window they can use up. */
  lemma {:induction false} FewestThatFill(c: Config, n: nat) returns (k: nat)
    requires Fits(c) && n * c.largest >= c.byteWindow
    ensures 0 < k <= n && k * c.largest >= c.byteWindow && (k - 1) * c.largest < c.byteWindow
    decreases n
  {
    if (n - 1) * c.largest >= c.byteWindow {
      k := FewestThatFill(c, n - 1);
    } else {
      k := n;
    }
  }

  lemma CountAloneSticks(c: Config) returns (events: seq<Event>, s: State)
    requires Fits(c) && !c.prompt && !CountAloneSuffices(c)
    ensures StuckAfter(c, events, s)
  {
    var k: nat, size: nat := c.countWindow, 0;
    if (c.coalesce - 1) * c.largest >= c.byteWindow {
      var fill := FewestThatFill(c, c.coalesce - 1);
      if fill <= c.countWindow {
        k, size := fill, c.largest;
      }
    }
    assert k < c.coalesce && (size == 0 ==> k == c.countWindow);
    var filled := AfterReads(Start(c, 0), k, size);
    var taken := ReadMany(c, Start(c, 0), k, size);
    var eaten;
    eaten, s := ConsumeMany(c, filled, k, size);
    RunThen(c, Start(c, 0), taken, filled, eaten, s);
    events := taken + eaten;
  }

  /** Reporting by count alone gets stuck in some run exactly when the numbers allow it. */
  lemma CountAloneIsExact(c: Config)
    requires Fits(c) && !c.prompt
    ensures CountAloneSuffices(c) <==> forall events, s :: !StuckAfter(c, events, s)
  {
    if CountAloneSuffices(c) {
      forall events, s
        ensures !StuckAfter(c, events, s)
      {
        if StuckAfter(c, events, s) {
          CountAloneNeverSticks(c, 0, events, s);
        }
      }
    } else {
      var events, s := CountAloneSticks(c);
      assert StuckAfter(c, events, s);
    }
  }

  /** What it takes for the largest datagram to stay within both windows after any run, reporting by count alone. */
  predicate CountAloneLeavesRoom(c: Config) {
    c.coalesce <= c.countWindow && Times(c.coalesce, c.largest) <= c.byteWindow
  }

  ghost predicate CrampedAfter(c: Config, events: seq<Event>, s: State) {
    Run(c, Start(c, 0), events, s) && Drained(s) && (s.credit <= 0 || s.creditBytes < c.largest)
  }

  lemma CountAloneCramps(c: Config) returns (events: seq<Event>, s: State)
    requires Fits(c) && !c.prompt && !CountAloneLeavesRoom(c)
    ensures CrampedAfter(c, events, s)
  {
    if CountAloneSuffices(c) {
      var n := c.coalesce - 1;
      TimesAdds(1, n, c.largest);
      if n > 0 {
        TimesGrows(n - 1, n, c.largest);
      }
      var filled := AfterReads(Start(c, 0), n, c.largest);
      var taken := ReadMany(c, Start(c, 0), n, c.largest);
      var eaten;
      eaten, s := ConsumeMany(c, filled, n, c.largest);
      RunThen(c, Start(c, 0), taken, filled, eaten, s);
      events := taken + eaten;
    } else {
      events, s := CountAloneSticks(c);
    }
  }

  lemma RoomByCountAloneIsExact(c: Config)
    requires Fits(c) && !c.prompt
    ensures CountAloneLeavesRoom(c) <==> forall events, s :: !CrampedAfter(c, events, s)
  {
    if CountAloneLeavesRoom(c) {
      forall events, s
        ensures !CrampedAfter(c, events, s)
      {
        if CrampedAfter(c, events, s) {
          RunKeepsSound(c, Start(c, 0), events, s);
          TimesGrows(s.unreported + 1, c.coalesce, c.largest);
          TimesAdds(s.unreported, 1, c.largest);
        }
      }
    } else {
      var events, s := CountAloneCramps(c);
      assert CrampedAfter(c, events, s);
    }
  }

  /** The real numbers do not suffice by count alone, so the microtask is what keeps a real socket from sticking. */
  lemma RealLimitsNeedTheMicrotask()
    ensures !CountAloneSuffices(LIMITS)
    ensures exists events, s :: StuckAfter(LIMITS.(prompt := false), events, s)
    ensures forall events, s :: Run(LIMITS, Start(LIMITS, 0), events, s) && Drained(s) ==> CanRead(s)
  {
    assert 31 * 65507 >= 1024 * 1024;
    var events, s := CountAloneSticks(LIMITS.(prompt := false));
    assert StuckAfter(LIMITS.(prompt := false), events, s);
    forall events, s | Run(LIMITS, Start(LIMITS, 0), events, s) && Drained(s)
      ensures CanRead(s)
    {
      DrainedIsFull(LIMITS, 0, events, s);
    }
  }

  // ---------------------------------------------------------------- the totals of discarded datagrams

  /** The last total on its way to the page, or the one it shows. */
  function Latest(shown: nat, messages: seq<Message>): nat
    decreases |messages|
  {
    if messages == [] then shown else Latest(Max(shown, messages[0].dropped), messages[1..])
  }

  lemma {:induction false} LatestAppend(shown: nat, messages: seq<Message>, m: Message)
    ensures Latest(shown, messages + [m]) == Max(Latest(shown, messages), m.dropped)
    decreases |messages|
  {
    if messages == [] {
      assert messages + [m] == [m];
    } else {
      assert (messages + [m])[1..] == messages[1..] + [m];
      LatestAppend(Max(shown, messages[0].dropped), messages[1..], m);
    }
  }

  /** Totals never run ahead of the adapter or backwards; what was last said is what the page is about to show. */
  ghost predicate TotalsOk(s: State) {
    && s.lastReported <= s.drops && Latest(s.shown, s.toRenderer) <= s.lastReported
    && (s.told ==> Latest(s.shown, s.toRenderer) == s.lastReported)
  }

  lemma StepKeepsTotals(c: Config, s: State, e: Event)
    requires TotalsOk(s) && Enabled(c, s, e)
    ensures TotalsOk(Next(c, s, e))
    ensures s.shown <= Next(c, s, e).shown && s.drops <= Next(c, s, e).drops
  {
    match e
    case Read(size) => LatestAppend(s.shown, s.toRenderer, Datagram(size, s.drops));
    case Reported => LatestAppend(s.shown, s.toRenderer, DropReport(s.drops));
    case _ =>
  }

  lemma {:induction false} RunKeepsTotals(c: Config, s: State, events: seq<Event>, s': State)
    requires TotalsOk(s) && Run(c, s, events, s')
    ensures TotalsOk(s') && s.shown <= s'.shown
    decreases |events|
  {
    if events != [] {
      StepKeepsTotals(c, s, events[0]);
      RunKeepsTotals(c, Next(c, s, events[0]), events[1..], s');
    }
  }

  function Discards(events: seq<Event>): nat {
    if events == [] then 0 else (if events[0].Discarded? then 1 else 0) + Discards(events[1..])
  }

  /** The total is of every datagram the adapter discarded; and a pump reports it by itself only when it has no credit to read and the total is news. */
  lemma {:induction false} EveryDiscardCounts(c: Config, s: State, events: seq<Event>, s': State)
    requires Run(c, s, events, s')
    ensures s'.drops == s.drops + Discards(events)
    ensures Enabled(c, s', Reported) <==> (s'.credit <= 0 || s'.creditBytes <= 0) && s'.lastReported != s'.drops
    decreases |events|
  {
    if events != [] {
      EveryDiscardCounts(c, Next(c, s, events[0]), events[1..], s');
    }
  }

  /**
   A pump that is out of credit, with no report due and none on its way, has the page showing the adapter's own total,
   unless it has never sent anything: what was discarded before the pump began waits for the first message.
   */
  lemma TotalsConverge(c: Config, drops: nat, events: seq<Event>, s: State)
    requires Run(c, Start(c, drops), events, s)
    ensures s.shown <= s.drops
    ensures !CanRead(s) && !Enabled(c, s, Reported) && s.toRenderer == [] && s.told ==> s.shown == s.drops
    ensures !s.told ==> s.shown == 0 && s.lastReported == drops
  {
    RunKeepsTotals(c, Start(c, drops), events, s);
    NeverTold(c, Start(c, drops), events, s);
    LatestIsAtLeastShown(s.shown, s.toRenderer);
  }

  lemma {:induction false} LatestIsAtLeastShown(shown: nat, messages: seq<Message>)
    ensures shown <= Latest(shown, messages)
    decreases |messages|
  {
    if messages != [] {
      LatestIsAtLeastShown(Max(shown, messages[0].dropped), messages[1..]);
    }
  }

  lemma {:induction false} NeverTold(c: Config, s: State, events: seq<Event>, s': State)
    requires Run(c, s, events, s') && (!s.told ==> s.toRenderer == [])
    ensures !s'.told ==> !s.told && s'.toRenderer == [] && s'.shown == s.shown && s'.lastReported == s.lastReported
    decreases |events|
  {
    if events != [] {
      NeverTold(c, Next(c, s, events[0]), events[1..], s');
    }
  }
}
