/**
 `powerSaveBlocker` over the page's wake lock. Each event is one turn of the event loop: a call, a visibility change, the
 answer to a request, or the browser taking a lock back. A sentinel stands for one granted lock.
 */
module PowerSaveBlocker {
  import opened Results

  type Sentinel = nat

  datatype Refusal = InvalidUsage(given: string)

  /** What asking for a lock comes to at once: the page may have none to ask for, and asking may throw. */
  datatype Request = Unsupported | Throws | Made

  const TYPES: set<string> := {"prevent-app-suspension", "prevent-display-sleep"}

  /** `issued` is every id ever given out, `granted` every lock ever granted, `live` those neither released nor taken back. */
  datatype State = State(
    started: set<nat>,
    nextId: nat,
    held: Option<Sentinel>,
    requesting: bool,
    issued: set<nat>,
    granted: set<Sentinel>,
    live: set<Sentinel>)

  const INITIAL := State({}, 1, None, false, {}, {}, {})

  datatype Event =
    | Start(kind: string, visible: bool, request: Request)
    | Stop(id: nat)
    | VisibilityChanged(visible: bool, request: Request)
    | Granted(sentinel: Sentinel)
    | Refused
    | TakenBack(sentinel: Sentinel)

  /** Asks for the lock when an id is started, the page is visible and nothing is held or pending. */
  function Acquired(s: State, visible: bool, request: Request): State {
    if s.started == {} || s.held.Some? || s.requesting || !visible then s else s.(requesting := request.Made?)
  }

  /** Gives the lock back when nothing is started. */
  function Released(s: State): State {
    if s.started != {} || s.held.None? then s else s.(held := None, live := s.live - {s.held.value})
  }

  /** A request is answered once, with a lock of its own; a lock is taken back only after it was granted. */
  predicate Enabled(s: State, e: Event) {
    match e
    case Granted(sentinel) => s.requesting && sentinel !in s.granted
    case Refused => s.requesting
    case TakenBack(sentinel) => sentinel in s.granted
    case _ => true
  }

  function Next(s: State, e: Event): State
    requires Enabled(s, e)
  {
    match e
    case Start(kind, visible, request) =>
      if kind !in TYPES then s
      else Acquired(s.(started := s.started + {s.nextId}, issued := s.issued + {s.nextId}, nextId := s.nextId + 1), visible, request)
    case Stop(id) => Released(s.(started := s.started - {id}))
    case VisibilityChanged(visible, request) => Acquired(s, visible, request)
    case Granted(sentinel) =>
      var s' := s.(requesting := false, granted := s.granted + {sentinel});
      if s.started == {} then s' else s'.(held := Some(sentinel), live := s.live + {sentinel})
    case Refused => s.(requesting := false)
    case TakenBack(sentinel) => s.(live := s.live - {sentinel}, held := if s.held == Some(sentinel) then None else s.held)
  }

  /** No lock is live but the one held, none is held while one is asked for, and none is kept for nobody. */
  ghost predicate Valid(s: State) {
    && s.live == (if s.held.Some? then {s.held.value} else {}) && s.live <= s.granted
    && !(s.requesting && s.held.Some?)
    && (s.started == {} ==> s.held.None?)
    && s.started <= s.issued && (forall id :: id in s.issued ==> 1 <= id < s.nextId) && s.nextId >= 1
  }

  lemma NextKeepsValid(s: State, e: Event)
    requires Valid(s) && Enabled(s, e)
    ensures Valid(Next(s, e)) && s.issued <= Next(s, e).issued && s.granted <= Next(s, e).granted
  {
  }

  ghost predicate Run(s: State, events: seq<Event>, s': State)
    decreases |events|
  {
    if events == [] then s' == s else Enabled(s, events[0]) && Run(Next(s, events[0]), events[1..], s')
  }

  lemma {:induction false} RunKeepsValid(s: State, events: seq<Event>, s': State)
    requires Valid(s) && Run(s, events, s')
    ensures Valid(s') && s.issued <= s'.issued
    decreases |events|
  {
    if events != [] {
      NextKeepsValid(s, events[0]);
      RunKeepsValid(Next(s, events[0]), events[1..], s');
    }
  }

  /** In every interleaving: one live lock at most, none while one is asked for, none with nothing started. */
  lemma LocksDoNotLeak(events: seq<Event>, s: State)
    requires Run(INITIAL, events, s)
    ensures |s.live| <= 1
    ensures s.requesting ==> s.live == {}
    ensures s.started == {} ==> s.live == {}
    ensures forall lock :: lock in s.live <==> s.held == Some(lock)
  {
    RunKeepsValid(INITIAL, events, s);
  }

  // ---------------------------------------------------------------- when a lock is held

  predicate GivesId(e: Event) {
    e.Start? && e.kind in TYPES
  }

  /** How many ids these events give out: 1, 2, and so on. */
  function IdsGiven(events: seq<Event>): nat {
    if events == [] then 0 else IdsGiven(events[..|events| - 1]) + if GivesId(events[|events| - 1]) then 1 else 0
  }

  /** The ids started and not stopped since, read off the events alone. */
  function StartedBy(events: seq<Event>): set<nat> {
    if events == [] then {}
    else
      var before, last := events[..|events| - 1], events[|events| - 1];
      if GivesId(last) then StartedBy(before) + {IdsGiven(before) + 1} else if last.Stop? then StartedBy(before) - {last.id} else StartedBy(before)
  }

  /** The lock was granted at `i`, with something started. */
  ghost predicate TakenAt(events: seq<Event>, i: nat, lock: Sentinel)
    requires i < |events|
  {
    events[i] == Granted(lock) && StartedBy(events[..i]) != {}
  }

  /** At `j` the browser takes the lock back, or a stop leaves nothing started. */
  ghost predicate EndsAt(events: seq<Event>, j: nat, lock: Sentinel)
    requires j < |events|
  {
    events[j] == TakenBack(lock) || (events[j].Stop? && StartedBy(events[..j + 1]) == {})
  }

  ghost predicate InForce(events: seq<Event>, lock: Sentinel) {
    exists i: nat :: i < |events| && TakenAt(events, i, lock) && forall j: nat :: i < j < |events| ==> !EndsAt(events, j, lock)
  }

  lemma InForceOneMore(events: seq<Event>, lock: Sentinel)
    requires events != []
    ensures var n := |events| - 1;
      InForce(events, lock) <==> TakenAt(events, n, lock) || (InForce(events[..n], lock) && !EndsAt(events, n, lock))
  {
    hide StartedBy;
    var n := |events| - 1;
    var before := events[..n];
    forall i: nat | i < n
      ensures TakenAt(before, i, lock) <==> TakenAt(events, i, lock)
      ensures EndsAt(before, i, lock) <==> EndsAt(events, i, lock)
    {
      assert before[..i] == events[..i] && before[..i + 1] == events[..i + 1];
    }
    hide TakenAt, EndsAt;
    if InForce(before, lock) && !EndsAt(events, n, lock) {
      var i: nat :| i < |before| && TakenAt(before, i, lock) && forall j: nat :: i < j < |before| ==> !EndsAt(before, j, lock);
      assert TakenAt(events, i, lock);
    }
    if InForce(events, lock) && !TakenAt(events, n, lock) {
      var i: nat :| i < |events| && TakenAt(events, i, lock) && forall j: nat :: i < j < |events| ==> !EndsAt(events, j, lock);
      assert TakenAt(before, i, lock);
    }
  }

  lemma {:induction false} RunBefore(s: State, events: seq<Event>, s': State) returns (m: State)
    requires events != [] && Run(s, events, s')
    ensures Run(s, events[..|events| - 1], m) && Enabled(m, events[|events| - 1]) && s' == Next(m, events[|events| - 1])
    decreases |events|
  {
    if |events| == 1 {
      m := s;
      assert events[1..] == [];
    } else {
      var rest := events[1..];
      m := RunBefore(Next(s, events[0]), rest, s');
      assert events[..|events| - 1][1..] == rest[..|rest| - 1];
    }
  }

  /**
   In every run, read off its events alone: what is started; and which locks are live, namely just those granted while something
   was started that neither were taken back since nor saw a stop that left nothing started. The live one is the one held.
   */
  lemma {:induction false} LocksAreHeldWhileWanted(events: seq<Event>, s: State, lock: Sentinel)
    requires Run(INITIAL, events, s)
    ensures s.started == StartedBy(events) && s.nextId == IdsGiven(events) + 1
    ensures lock in s.live <==> InForce(events, lock)
    ensures s.held == Some(lock) <==> InForce(events, lock)
    decreases |events|
  {
    RunKeepsValid(INITIAL, events, s);
    if events != [] {
      var n := |events| - 1;
      var m := RunBefore(INITIAL, events, s);
      LocksAreHeldWhileWanted(events[..n], m, lock);
      RunKeepsValid(INITIAL, events[..n], m);
      InForceOneMore(events, lock);
      assert events[..n + 1] == events;
      LiveNext(events, m, lock);
    }
  }

  lemma LiveNext(events: seq<Event>, m: State, lock: Sentinel)
    requires events != [] && Valid(m) && Enabled(m, events[|events| - 1]) && m.started == StartedBy(events[..|events| - 1])
    requires m.nextId == IdsGiven(events[..|events| - 1]) + 1
    ensures var n := |events| - 1; var s := Next(m, events[n]);
      && s.started == StartedBy(events)
      && (lock in s.live <==> TakenAt(events, n, lock) || (lock in m.live && !EndsAt(events, n, lock)))
  {
    var n := |events| - 1;
    assert events[..n + 1] == events;
  }

  /** Once an id has been given out no later start gives it again, stopped or not. */
  lemma IdsAreNeverReused(events: seq<Event>, between: seq<Event>, s: State, s': State, first: Event, again: Event)
    requires Run(INITIAL, events, s) && first.Start? && first.kind in TYPES && Run(Next(s, first), between, s')
    requires again.Start? && again.kind in TYPES
    ensures s.nextId in Next(s, first).started && s'.nextId in Next(s', again).started && s.nextId != s'.nextId
  {
    RunKeepsValid(INITIAL, events, s);
    NextKeepsValid(s, first);
    RunKeepsValid(Next(s, first), between, s');
  }

  /** A lock is asked for exactly at a start or a change of visibility that leaves something started on a visible page with no lock held or pending. */
  lemma LocksAreAskedForWhenWanted(s: State, e: Event)
    requires Enabled(s, e)
    ensures Next(s, e).requesting && !s.requesting
       <==> (e.VisibilityChanged? || (e.Start? && e.kind in TYPES)) && e.visible && e.request.Made?
            && !s.requesting && s.held.None? && Next(s, e).started != {}
  {
    if e.Start? && e.kind in TYPES {
      assert s.nextId in Next(s, e).started;
    }
  }

  /** A start, or a change of visibility, that leaves something started on a visible page. */
  ghost predicate Wants(s: State, e: Event)
    requires Enabled(s, e)
  {
    (e.VisibilityChanged? || (e.Start? && e.kind in TYPES)) && e.visible && e.request.Made? && Next(s, e).started != {}
  }

  ghost predicate EverWants(s: State, events: seq<Event>)
    decreases |events|
  {
    events != [] && Enabled(s, events[0]) && (Wants(s, events[0]) || EverWants(Next(s, events[0]), events[1..]))
  }

  /** No lock is held or asked for from here to the end. */
  ghost predicate GoesWithout(s: State, events: seq<Event>)
    decreases |events|
  {
    s.held.None? && !s.requesting && (events != [] ==> Enabled(s, events[0]) && GoesWithout(Next(s, events[0]), events[1..]))
  }

  lemma {:induction false} WithoutUntilWanted(s: State, events: seq<Event>, s': State)
    requires s.held.None? && !s.requesting && Run(s, events, s')
    ensures GoesWithout(s, events) <==> !EverWants(s, events)
    decreases |events|
  {
    if events != [] {
      var e := events[0];
      if e.Start? && e.kind in TYPES {
        assert s.nextId in Next(s, e).started;
      }
      if !Wants(s, e) {
        WithoutUntilWanted(Next(s, e), events[1..], s');
      }
    }
  }

  /** After a refusal, or when the browser takes the lock back, an app goes without one exactly until the next such call or change. */
  lemma LostLocksWait(events: seq<Event>, s: State, lost: Event, more: seq<Event>, s': State)
    requires Run(INITIAL, events, s) && Enabled(s, lost) && (lost.Refused? || (lost.TakenBack? && s.held == Some(lost.sentinel)))
    requires Run(Next(s, lost), more, s')
    ensures GoesWithout(Next(s, lost), more) <==> !EverWants(Next(s, lost), more)
    ensures Next(s, lost).started == s.started
  {
    RunKeepsValid(INITIAL, events, s);
    WithoutUntilWanted(Next(s, lost), more, s');
  }

  class Blocker {
    var started: set<nat>
    var nextId: nat
    var held: Option<Sentinel>
    var requesting: bool
    ghost var issued: set<nat>
    ghost var granted: set<Sentinel>
    ghost var live: set<Sentinel>

    ghost function Now(): State
      reads this
    {
      State(started, nextId, held, requesting, issued, granted, live)
    }

    constructor ()
      ensures Now() == INITIAL && Valid(Now())
    {
      started, nextId, held, requesting := {}, 1, None, false;
      issued, granted, live := {}, {}, {};
    }

    method Acquire(visible: bool, request: Request)
      modifies this`requesting
      ensures Now() == Acquired(old(Now()), visible, request)
    {
      if started == {} || held.Some? || requesting || !visible || request.Unsupported? {
        return;
      }
      requesting := true;
      if request.Throws? {
        requesting := false;
      }
    }

    method ReleaseIfIdle()
      modifies this`held, this`live
      ensures Now() == Released(old(Now()))
    {
      if started != {} || held.None? {
        return;
      }
      live := live - {held.value};
      held := None;
    }

    method Start(kind: string, visible: bool, request: Request) returns (r: Result<nat, Refusal>)
      requires Valid(Now())
      modifies this
      ensures Now() == Next(old(Now()), Event.Start(kind, visible, request)) && Valid(Now())
      ensures r == if kind in TYPES then Ok(old(nextId)) else Err(InvalidUsage(kind))
    {
      NextKeepsValid(Now(), Event.Start(kind, visible, request));
      if kind !in TYPES {
        return Err(InvalidUsage(kind));
      }
      var id := nextId;
      nextId := nextId + 1;
      started, issued := started + {id}, issued + {id};
      Acquire(visible, request);
      r := Ok(id);
    }

    method Stop(id: nat) returns (had: bool)
      requires Valid(Now())
      modifies this
      ensures Now() == Next(old(Now()), Event.Stop(id)) && Valid(Now())
      ensures had == old(IsStarted(id)) && !IsStarted(id)
    {
      NextKeepsValid(Now(), Event.Stop(id));
      had := id in started;
      started := started - {id};
      ReleaseIfIdle();
    }

    predicate IsStarted(id: nat)
      reads this
    {
      id in started
    }

    method VisibilityChange(visible: bool, request: Request)
      requires Valid(Now())
      modifies this
      ensures Now() == Next(old(Now()), VisibilityChanged(visible, request)) && Valid(Now())
    {
      NextKeepsValid(Now(), VisibilityChanged(visible, request));
      Acquire(visible, request);
    }

    /** The browser granted the lock asked for: kept while something is started, and given straight back otherwise. */
    method RequestGranted(sentinel: Sentinel)
      requires Valid(Now()) && Enabled(Now(), Granted(sentinel))
      modifies this
      ensures Now() == Next(old(Now()), Granted(sentinel)) && Valid(Now())
    {
      NextKeepsValid(Now(), Granted(sentinel));
      requesting := false;
      granted := granted + {sentinel};
      if started == {} {
        return;
      }
      held, live := Some(sentinel), live + {sentinel};
    }

    method RequestRefused()
      requires Valid(Now()) && Enabled(Now(), Refused)
      modifies this
      ensures Now() == Next(old(Now()), Refused) && Valid(Now())
    {
      NextKeepsValid(Now(), Refused);
      requesting := false;
    }

    /** The browser took a lock back: one already given back is none of ours any more. */
    method LockTakenBack(sentinel: Sentinel)
      requires Valid(Now()) && Enabled(Now(), TakenBack(sentinel))
      modifies this
      ensures Now() == Next(old(Now()), TakenBack(sentinel)) && Valid(Now())
    {
      NextKeepsValid(Now(), TakenBack(sentinel));
      live := live - {sentinel};
      if held == Some(sentinel) {
        held := None;
      }
    }
  }
}
