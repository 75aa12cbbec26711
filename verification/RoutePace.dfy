/** How patient a request may be on its route: never less than the route declares, and more while it has lately been slow. */
module RoutePace {
  type Millis = t: real | t >= 0.0
  type Rate = r: real | r > 0.0 witness 1.0

  datatype Profile = Profile(id: string, roundTripMs: Millis, coldStartMs: Millis, bytesPerSecond: Rate)

  /** One first byte: when it was seen, and how long it had taken. */
  datatype Observation = Observation(at: real, firstByteMs: real)

  const REFERENCE_ROUND_TRIP_MS := 500.0
  const REFERENCE_FIRST_BYTE_MS := 30_000.0
  const TRANSFER_MARGIN := 4.0
  const DIRECT_STALL_MS: Millis := 10_000.0
  const MAX_WIDENING := 3.0
  const EVIDENCE_KEPT_MS := 600_000.0
  const EVIDENCE_MARGIN := 2.5
  const MOST_EVIDENCE := 32
  const SLOW_SCALE := 2.0

  function Max(a: real, b: real): real {
    if a >= b then a else b
  }

  function Min(a: real, b: real): real {
    if a <= b then a else b
  }

  /** To the nearest whole number, a half upwards. */
  function Round(x: real): int {
    (x + 0.5).Floor
  }

  function Ceil(x: real): int {
    -((-x).Floor)
  }

  // ---------------------------------------------------------------- what the evidence amounts to

  function FloorOf(profile: Profile): real {
    Max(1.0, profile.roundTripMs / REFERENCE_ROUND_TRIP_MS)
  }

  function Slowest(seen: seq<Observation>): real {
    if seen == [] then 0.0 else Max(Slowest(seen[..|seen| - 1]), seen[|seen| - 1].firstByteMs)
  }

  function ScaleOf(profile: Profile, seen: seq<Observation>): real {
    Min(Max(FloorOf(profile), EVIDENCE_MARGIN * Slowest(seen) / REFERENCE_FIRST_BYTE_MS), FloorOf(profile) * MAX_WIDENING)
  }

  /** A wait written for a direct connection, stretched. */
  function Stretch(directMs: real, times: real): int {
    Round(directMs * times)
  }

  function WaitOf(profile: Profile, seen: seq<Observation>, directMs: Millis): int {
    Stretch(directMs, ScaleOf(profile, seen))
  }

  function CeilingWait(profile: Profile, directMs: Millis): real {
    Stretch(directMs, FloorOf(profile) * MAX_WIDENING) as real + profile.coldStartMs
  }

  /** The floor of a route is 1, or for one slower to go round than half a second as many times that as it takes. */
  lemma FloorIsRoundTrips(profile: Profile)
    ensures profile.roundTripMs <= 500.0 ==> FloorOf(profile) == 1.0
    ensures profile.roundTripMs > 500.0 ==> FloorOf(profile) * 500.0 == profile.roundTripMs
  {
  }

  /** A wait is the whole number of milliseconds nearest to the direct wait times the scale, the later one of two. */
  lemma WaitIsNearest(profile: Profile, seen: seq<Observation>, directMs: Millis)
    ensures var wait := WaitOf(profile, seen, directMs) as real; var exact := directMs * ScaleOf(profile, seen);
      exact - 0.5 < wait <= exact + 0.5
  {
    hide ScaleOf;
  }

  lemma ScaleIsBounded(profile: Profile, seen: seq<Observation>)
    ensures 1.0 <= FloorOf(profile) <= ScaleOf(profile, seen) <= MAX_WIDENING * FloorOf(profile)
  {
  }

  lemma {:induction false} SlowestIsLargest(seen: seq<Observation>)
    ensures Slowest(seen) >= 0.0 && forall i :: 0 <= i < |seen| ==> seen[i].firstByteMs <= Slowest(seen)
    ensures Slowest(seen) == 0.0 || exists i :: 0 <= i < |seen| && seen[i].firstByteMs == Slowest(seen)
  {
    if seen != [] {
      SlowestIsLargest(seen[..|seen| - 1]);
    }
  }

  /** The scale exceeds a bound within the range exactly when some first byte kept was that slow. */
  lemma ScaleFollowsTheSlowest(profile: Profile, seen: seq<Observation>, s: real)
    requires FloorOf(profile) <= s < MAX_WIDENING * FloorOf(profile)
    ensures ScaleOf(profile, seen) > s <==> exists i :: 0 <= i < |seen| && EVIDENCE_MARGIN * seen[i].firstByteMs > s * REFERENCE_FIRST_BYTE_MS
  {
    SlowestIsLargest(seen);
  }

  lemma StretchIsMonotone(directMs: Millis, x: real, y: real)
    requires x <= y
    ensures Stretch(directMs, x) <= Stretch(directMs, y)
  {
    assert directMs * (y - x) >= 0.0;
    assert directMs * x <= directMs * y;
  }

  lemma StretchByOne(directMs: Millis)
    ensures Stretch(directMs, 1.0) == Round(directMs)
  {
  }

  /** No evidence whatever makes a wait, or a first wait on a cold route, longer than the ceiling; and none makes it shorter than a direct one. */
  lemma WaitsStayUnderTheCeiling(profile: Profile, seen: seq<Observation>, directMs: Millis)
    ensures WaitOf(profile, seen, directMs) as real + profile.coldStartMs <= CeilingWait(profile, directMs)
    ensures Round(directMs) <= WaitOf(profile, seen, directMs)
  {
    ScaleIsBounded(profile, seen);
    hide ScaleOf, FloorOf, Stretch, Round;
    StretchIsMonotone(directMs, ScaleOf(profile, seen), FloorOf(profile) * MAX_WIDENING);
    StretchIsMonotone(directMs, 1.0, ScaleOf(profile, seen));
    StretchByOne(directMs);
  }

  /** And the ceiling is no higher than it has to be: one first byte slow enough reaches it. */
  lemma TheCeilingIsReached(profile: Profile, directMs: Millis, at: real) returns (seen: seq<Observation>)
    ensures |seen| == 1 && WaitOf(profile, seen, directMs) as real + profile.coldStartMs == CeilingWait(profile, directMs)
  {
    seen := [Observation(at, FloorOf(profile) * MAX_WIDENING * REFERENCE_FIRST_BYTE_MS / EVIDENCE_MARGIN)];
    assert seen[..0] == [];
    assert Slowest(seen) == seen[0].firstByteMs;
    assert ScaleOf(profile, seen) == FloorOf(profile) * MAX_WIDENING;
  }

  // ---------------------------------------------------------------- which evidence is kept

  ghost predicate IsSuffix(s: seq<Observation>, whole: seq<Observation>) {
    |s| <= |whole| && s == whole[|whole| - |s|..]
  }

  ghost predicate Recent(s: seq<Observation>, at: real) {
    |s| <= MOST_EVIDENCE && forall i :: 0 <= i < |s| ==> at - s[i].at <= EVIDENCE_KEPT_MS
  }

  /** The longest run of the latest observations that is neither too long nor goes too far back. */
  ghost predicate LongestRecent(seen: seq<Observation>, history: seq<Observation>, at: real) {
    && IsSuffix(seen, history) && Recent(seen, at)
    && forall s :: IsSuffix(s, history) && Recent(s, at) ==> |s| <= |seen|
  }

  ghost predicate InOrder(history: seq<Observation>, at: real) {
    && (forall i, j :: 0 <= i < j < |history| ==> history[i].at <= history[j].at)
    && (forall i :: 0 <= i < |history| ==> history[i].at <= at)
  }

  /** What holds back a longer run: it is full, or the observation before it is too old. */
  ghost predicate CannotGrow(seen: seq<Observation>, history: seq<Observation>, at: real) {
    && IsSuffix(seen, history)
    && (|seen| == |history| || |seen| == MOST_EVIDENCE || at - history[|history| - |seen| - 1].at > EVIDENCE_KEPT_MS)
  }

  lemma CannotGrowIsLongest(seen: seq<Observation>, history: seq<Observation>, at: real)
    requires CannotGrow(seen, history, at) && Recent(seen, at)
    ensures LongestRecent(seen, history, at)
  {
    forall s | IsSuffix(s, history) && |s| > |seen|
      ensures !Recent(s, at)
    {
      assert s[|s| - |seen| - 1] == history[|history| - |seen| - 1];
    }
  }

  lemma OnlyOneIsLongest(a: seq<Observation>, b: seq<Observation>, history: seq<Observation>, at: real)
    requires LongestRecent(a, history, at) && LongestRecent(b, history, at)
    ensures a == b
  {
  }

  lemma SuffixStepsBack(seen: seq<Observation>, history: seq<Observation>)
    requires IsSuffix(seen, history) && seen != []
    ensures IsSuffix(seen[1..], history) && history[|history| - |seen|] == seen[0]
  {
  }

  lemma SuffixCut(seen: seq<Observation>, history: seq<Observation>, n: nat)
    requires IsSuffix(seen, history) && n <= |seen|
    ensures IsSuffix(seen[n..], history)
  {
    assert seen[n..] == history[|history| - |seen[n..]|..];
  }

  ghost predicate IsRoundedUp(n: int, x: real) {
    n as real - 1.0 < x <= n as real
  }

  class RouteMeter {
    const profile: Profile
    var up: bool
    var seen: seq<Observation>
    /** Everything ever observed, the last reading of the clock, and whether the clock has never gone back. */
    ghost var history: seq<Observation>
    ghost var clock: real
    ghost var steady: bool

    ghost predicate Valid()
      reads this
    {
      IsSuffix(seen, history) && |seen| <= MOST_EVIDENCE
      && (steady ==> InOrder(history, clock) && LongestRecent(seen, history, clock) && CannotGrow(seen, history, clock))
    }

    constructor (profile: Profile, at: real)
      ensures Valid() && steady && clock == at && history == [] && !up
      ensures this.profile == profile
    {
      this.profile := profile;
      up, seen, history, clock, steady := false, [], [], at, true;
    }

    method MarkUp()
      requires Valid()
      modifies this`up
      ensures Valid() && up
    {
      up := true;
    }

    /** A request's first byte was seen: the route is up, and this counts as the newest evidence. */
    method ObserveFirstByte(at: real, firstByteMs: real)
      requires Valid()
      modifies this
      ensures Valid() && up && clock == at && steady == (old(steady) && at >= old(clock))
      ensures history == old(history) + [Observation(at, firstByteMs)]
    {
      hide LongestRecent, Recent;
      up := true;
      ghost var was := history;
      ghost var before := seen;
      seen := seen + [Observation(at, firstByteMs)];
      history := history + [Observation(at, firstByteMs)];
      assert seen == history[|history| - |seen|..];
      assert steady && |before| < |was| ==> history[|history| - |seen| - 1] == was[|was| - |before| - 1];
      Forget(at);
    }

    /** Drops what is too old from the front, then what is too many. */
    method Forget(at: real)
      requires IsSuffix(seen, history) && |seen| <= MOST_EVIDENCE + 1
      requires steady && at >= clock ==> InOrder(history, at)
      requires steady && at >= clock ==>
                 |seen| >= MOST_EVIDENCE || CannotGrow(seen, history, at)
      modifies this`seen, this`clock, this`steady
      ensures Valid() && clock == at && steady == (old(steady) && at >= old(clock))
    {
      ghost var keeps := steady && at >= clock;
      while |seen| > 0 && at - seen[0].at > EVIDENCE_KEPT_MS
        invariant IsSuffix(seen, history) && |seen| <= MOST_EVIDENCE + 1
        invariant keeps ==> |seen| >= MOST_EVIDENCE || CannotGrow(seen, history, at)
        decreases |seen|
      {
        SuffixStepsBack(seen, history);
        seen := seen[1..];
      }
      if |seen| > MOST_EVIDENCE {
        SuffixCut(seen, history, |seen| - MOST_EVIDENCE);
        seen := seen[|seen| - MOST_EVIDENCE..];
      }
      steady, clock := keeps, at;
      if keeps {
        OldestIsFirst(seen, history, at);
        CannotGrowIsLongest(seen, history, at);
      }
    }

    /** How many times a direct wait this route waits: within its range, and at its floor once no evidence is recent. */
    method Scale(at: real) returns (scale: real)
      requires Valid()
      modifies this`seen, this`clock, this`steady
      ensures Valid() && clock == at && steady == (old(steady) && at >= old(clock))
      ensures scale == ScaleOf(profile, seen) && FloorOf(profile) <= scale <= MAX_WIDENING * FloorOf(profile)
      ensures steady && (forall i :: 0 <= i < |history| ==> at - history[i].at > EVIDENCE_KEPT_MS) ==> scale == FloorOf(profile)
    {
      if steady && at >= clock {
        ClockMovesOn(seen, history, clock, at);
      }
      Forget(at);
      ScaleIsBounded(profile, seen);
      var floor, slowest := FloorOf(profile), 0.0;
      for i := 0 to |seen|
        invariant slowest == Slowest(seen[..i])
      {
        assert seen[..i + 1][..i] == seen[..i];
        slowest := Max(slowest, seen[i].firstByteMs);
      }
      assert seen[..|seen|] == seen;
      var measured := EVIDENCE_MARGIN * slowest / REFERENCE_FIRST_BYTE_MS;
      scale := Min(Max(floor, measured), floor * MAX_WIDENING);
      assert steady && seen != [] ==> history[|history| - |seen|] == seen[0];
    }

    method Wait(at: real, directMs: Millis) returns (waitMs: int)
      requires Valid()
      modifies this`seen, this`clock, this`steady
      ensures Valid() && clock == at && steady == (old(steady) && at >= old(clock))
      ensures waitMs == WaitOf(profile, seen, directMs) && waitMs as real <= CeilingWait(profile, directMs)
    {
      var scale := Scale(at);
      WaitsStayUnderTheCeiling(profile, seen, directMs);
      waitMs := Stretch(directMs, scale);
    }

    /** A wait, and what a route that has carried nothing may need to come up. */
    method FirstWait(at: real, directMs: Millis) returns (waitMs: real)
      requires Valid()
      modifies this`seen, this`clock, this`steady
      ensures Valid() && clock == at && steady == (old(steady) && at >= old(clock))
      ensures waitMs == WaitOf(profile, seen, directMs) as real + if up then 0.0 else profile.coldStartMs
      ensures waitMs <= CeilingWait(profile, directMs)
    {
      var wait := Wait(at, directMs);
      WaitsStayUnderTheCeiling(profile, seen, directMs);
      waitMs := wait as real + if up then 0.0 else profile.coldStartMs;
    }

    method Slow(at: real) returns (slow: bool)
      requires Valid()
      modifies this`seen, this`clock, this`steady
      ensures Valid() && clock == at && steady == (old(steady) && at >= old(clock))
      ensures slow == (ScaleOf(profile, seen) > SLOW_SCALE)
    {
      var scale := Scale(at);
      slow := scale > SLOW_SCALE;
    }

    /** The most a body may take: a stall, and four times the whole seconds its size needs at the declared rate. */
    method TransferMs(at: real, bytes: nat) returns (most: real, ghost seconds: int)
      requires Valid()
      modifies this`seen, this`clock, this`steady
      ensures Valid() && clock == at && steady == (old(steady) && at >= old(clock))
      ensures most >= WaitOf(profile, seen, DIRECT_STALL_MS) as real + TRANSFER_MARGIN * (1000.0 * (bytes as real / profile.bytesPerSecond))
      ensures IsRoundedUp(seconds, bytes as real / profile.bytesPerSecond)
      ensures most == WaitOf(profile, seen, DIRECT_STALL_MS) as real + 4000.0 * seconds as real
    {
      var scale := Scale(at);
      most := Stretch(DIRECT_STALL_MS, scale) as real + Ceil(bytes as real / profile.bytesPerSecond) as real * 1000.0 * TRANSFER_MARGIN;
      CeilIsAbove(bytes as real / profile.bytesPerSecond);
      seconds := Ceil(bytes as real / profile.bytesPerSecond);
    }
  }

  lemma CeilIsAbove(x: real)
    ensures Ceil(x) as real >= x
  {
  }

  /** Where the clock has not gone back, the first kept is the oldest kept. */
  lemma OldestIsFirst(seen: seq<Observation>, history: seq<Observation>, at: real)
    requires IsSuffix(seen, history) && |seen| <= MOST_EVIDENCE && InOrder(history, at)
    requires seen == [] || at - seen[0].at <= EVIDENCE_KEPT_MS
    ensures Recent(seen, at)
  {
    forall i | 0 <= i < |seen|
      ensures at - seen[i].at <= EVIDENCE_KEPT_MS
    {
      assert seen[i] == history[|history| - |seen| + i] && seen[0] == history[|history| - |seen|];
    }
  }

  lemma ClockMovesOn(seen: seq<Observation>, history: seq<Observation>, clock: real, at: real)
    requires CannotGrow(seen, history, clock) && InOrder(history, clock) && clock <= at
    ensures CannotGrow(seen, history, at) && InOrder(history, at)
  {
  }
}
