/**
 A page's one connection to its app's child host: asked for with the first start, shared by those made meanwhile, and
 asked for afresh once it failed or went away. An attempt is one handshake; its number tells it from a newer one.
 */
module ChildHost {
  import opened Results

  type Attempt = nat
  type StartId = nat
  type ChildId = nat

  datatype Outcome = Started(child: ChildId) | Failed

  datatype Message = StartChild(attempt: Attempt, child: ChildId) | ToChild(child: ChildId, payload: string) | Terminate(child: ChildId)

  /**
   `hostPort` is the cached attempt, `listening` the one whose answer is awaited, `waiting` the starts that share it. `asked`
   counts the handshakes sent, `open` holds the connected ports whose host end is there, and `posted` is all that was sent.
   */
  datatype State = State(
    hostPort: Option<Attempt>,
    listening: Option<Attempt>,
    waiting: seq<StartId>,
    asked: nat,
    open: set<Attempt>,
    outcomes: map<StartId, Outcome>,
    nextStart: nat,
    children: set<ChildId>,
    nextChildId: nat,
    posted: seq<Message>)

  const INITIAL := State(None, None, [], 0, {}, map[], 0, {}, 0, [])

  datatype Event =
    | Start
    | Answered(carriesPort: bool)
    | TimedOut
    | HostClosed(attempt: Attempt)
    | ChildClosed(child: ChildId)
    | Send(child: ChildId, payload: string)
    | Kill(child: ChildId)

  predicate Enabled(s: State, e: Event) {
    match e
    case TimedOut => s.listening.Some?
    case HostClosed(attempt) => attempt in s.open
    case _ => true
  }

  /** One child, over one port, for one start. */
  function MintedOne(s: State, a: Attempt, id: StartId): State {
    s.(outcomes := s.outcomes[id := Outcome.Started(s.nextChildId)], children := s.children + {s.nextChildId},
       nextChildId := s.nextChildId + 1, posted := s.posted + [StartChild(a, s.nextChildId)])
  }

  /** Starts children over a connected port, one for each start, in their order. */
  function Minted(s: State, a: Attempt, starts: seq<StartId>): State
    decreases |starts|
  {
    if starts == [] then s else Minted(MintedOne(s, a, starts[0]), a, starts[1..])
  }

  function AllFailed(outcomes: map<StartId, Outcome>, starts: seq<StartId>): map<StartId, Outcome> {
    outcomes + map id | id in starts :: Failed
  }

  /** The awaited handshake came to nothing: every start that shared it fails, and the cache forgets it if it is still the one. */
  function AttemptFailed(s: State): State
    requires s.listening.Some?
  {
    s.(listening := None, hostPort := if s.hostPort == s.listening then None else s.hostPort,
       outcomes := AllFailed(s.outcomes, s.waiting), waiting := [])
  }

  function Next(s: State, e: Event): State
    requires Enabled(s, e)
  {
    match e
    case Start =>
      var id, s' := s.nextStart, s.(nextStart := s.nextStart + 1);
      if s.hostPort.None? then s'.(hostPort := Some(s.asked), listening := Some(s.asked), asked := s.asked + 1, waiting := [id])
      else if s.listening == s.hostPort then s'.(waiting := s.waiting + [id])
      else Minted(s', s.hostPort.value, [id])
    case Answered(carriesPort) =>
      if s.listening.None? then s
      else if !carriesPort then AttemptFailed(s)
      else Minted(s.(listening := None, open := s.open + {s.listening.value}, waiting := []), s.listening.value, s.waiting)
    case TimedOut => AttemptFailed(s)
    case HostClosed(attempt) => s.(open := s.open - {attempt}, hostPort := if s.hostPort == Some(attempt) then None else s.hostPort)
    case ChildClosed(child) => s.(children := s.children - {child})
    case Send(child, payload) => if child in s.children then s.(posted := s.posted + [ToChild(child, payload)]) else s
    case Kill(child) =>
      if child in s.children then s.(posted := s.posted + [Terminate(child)], children := s.children - {child}) else s
  }

  // ---------------------------------------------------------------- what always holds

  ghost predicate StartsOk(s: State) {
    && (forall id :: id in s.outcomes ==> id < s.nextStart && id !in s.waiting)
    && (forall id :: id in s.waiting ==> id < s.nextStart)
    && (forall id: nat :: id < s.nextStart ==> id in s.outcomes || id in s.waiting)
  }

  ghost predicate ChildrenOk(s: State) {
    && (forall child :: child in s.children ==> child < s.nextChildId)
    && (forall id :: id in s.outcomes && s.outcomes[id].Started? ==> s.outcomes[id].child < s.nextChildId)
    && (forall id, other :: id in s.outcomes && other in s.outcomes && s.outcomes[id].Started? && s.outcomes[id] == s.outcomes[other] ==> id == other)
  }

  /** The awaited handshake is the cached one; a cached one not awaited is connected; nothing waits but for the awaited one. */
  ghost predicate PortOk(s: State) {
    && (s.listening.Some? ==> s.hostPort == s.listening)
    && (s.hostPort.Some? && s.listening.None? ==> s.hostPort.value in s.open)
    && (s.waiting != [] ==> s.listening.Some?)
    && (forall a :: a in s.open ==> a < s.asked && Some(a) != s.listening)
    && (s.hostPort.Some? ==> s.hostPort.value < s.asked)
  }

  ghost predicate Distinct(starts: seq<StartId>) {
    forall i, j :: 0 <= i < j < |starts| ==> starts[i] != starts[j]
  }

  ghost predicate Valid(s: State) {
    StartsOk(s) && ChildrenOk(s) && PortOk(s) && Distinct(s.waiting)
  }

  lemma MintedOneKeepsChildren(s: State, a: Attempt, id: StartId)
    requires ChildrenOk(s) && id !in s.outcomes
    ensures ChildrenOk(MintedOne(s, a, id))
  {
  }

  /** What minting changes: an answer for each of the starts, children of new ids, and messages for just those. */
  lemma {:induction false} MintedAnswers(s: State, a: Attempt, starts: seq<StartId>)
    requires ChildrenOk(s) && Distinct(starts) && forall id :: id in starts ==> id !in s.outcomes
    ensures var s' := Minted(s, a, starts);
      && ChildrenOk(s')
      && s'.outcomes.Keys == s.outcomes.Keys + (set id | id in starts)
      && (forall id :: id in s.outcomes ==> s'.outcomes[id] == s.outcomes[id])
      && (forall id :: id in starts ==> s'.outcomes[id].Started? && s'.outcomes[id].child >= s.nextChildId)
      && s' == s.(outcomes := s'.outcomes, children := s'.children, nextChildId := s'.nextChildId, posted := s'.posted)
      && s'.nextChildId == s.nextChildId + |starts| && s.children <= s'.children && s.posted <= s'.posted
    decreases |starts|
  {
    if starts != [] {
      MintedOneKeepsChildren(s, a, starts[0]);
      hide ChildrenOk;
      assert forall id :: id in starts[1..] ==> id in starts && id != starts[0];
      MintedAnswers(MintedOne(s, a, starts[0]), a, starts[1..]);
      assert forall id :: id in starts <==> id == starts[0] || id in starts[1..];
      assert starts[0] in MintedOne(s, a, starts[0]).outcomes;
    }
  }

  lemma FailureKeepsValid(s: State)
    requires Valid(s) && s.listening.Some?
    ensures Valid(AttemptFailed(s)) && AttemptFailed(s).hostPort.None?
    ensures forall id :: id in s.waiting ==> id in AttemptFailed(s).outcomes && AttemptFailed(s).outcomes[id] == Failed
    ensures forall id :: id in s.outcomes ==> id in AttemptFailed(s).outcomes && AttemptFailed(s).outcomes[id] == s.outcomes[id]
  {
  }

  ghost predicate Grows(s: State, s': State) {
    && (forall id :: id in s.outcomes ==> id in s'.outcomes && s'.outcomes[id] == s.outcomes[id])
    && s.nextStart <= s'.nextStart && s.nextChildId <= s'.nextChildId && s.asked <= s'.asked
  }

  lemma StartKeepsValid(s: State)
    requires Valid(s)
    ensures Valid(Next(s, Start)) && Grows(s, Next(s, Start))
  {
    var id := s.nextStart;
    if s.hostPort.None? {
      assert forall other :: other in [id] <==> other == id;
    } else if s.listening == s.hostPort {
      hide ChildrenOk;
      OneMoreWaits(s.waiting, id);
    } else {
      MintedAnswers(s.(nextStart := id + 1), s.hostPort.value, [id]);
    }
  }

  lemma OneMoreWaits(waiting: seq<StartId>, id: StartId)
    requires Distinct(waiting) && forall other :: other in waiting ==> other < id
    ensures Distinct(waiting + [id]) && forall other :: other in waiting + [id] <==> other in waiting || other == id
  {
    forall i | 0 <= i < |waiting|
      ensures waiting[i] != id
    {
      assert waiting[i] in waiting;
    }
  }

  lemma AnswerKeepsValid(s: State, carriesPort: bool)
    requires Valid(s)
    ensures Valid(Next(s, Answered(carriesPort))) && Grows(s, Next(s, Answered(carriesPort)))
  {
    if s.listening.Some? {
      if carriesPort {
        MintedAnswers(s.(listening := None, open := s.open + {s.listening.value}, waiting := []), s.listening.value, s.waiting);
      } else {
        FailureKeepsValid(s);
      }
    }
  }

  lemma NextKeepsValid(s: State, e: Event)
    requires Valid(s) && Enabled(s, e)
    ensures Valid(Next(s, e)) && Grows(s, Next(s, e))
  {
    match e
    case Start => StartKeepsValid(s);
    case Answered(carriesPort) => AnswerKeepsValid(s, carriesPort);
    case TimedOut => FailureKeepsValid(s);
    case _ =>
  }

  ghost predicate Run(s: State, events: seq<Event>, s': State)
    decreases |events|
  {
    if events == [] then s' == s else Enabled(s, events[0]) && Run(Next(s, events[0]), events[1..], s')
  }

  lemma {:induction false} RunKeepsValid(s: State, events: seq<Event>, s': State)
    requires Valid(s) && Run(s, events, s')
    ensures Valid(s') && Grows(s, s')
    decreases |events|
  {
    hide Valid, Enabled;
    if events != [] {
      NextKeepsValid(s, events[0]);
      hide Next;
      RunKeepsValid(Next(s, events[0]), events[1..], s');
    }
  }

  // ---------------------------------------------------------------- what the page can rely on

  /** One handshake is out at a time: a start asks only where nothing is cached, and is then answered with those that share it. */
  lemma OneHandshakeAtATime(events: seq<Event>, s: State, e: Event)
    requires Run(INITIAL, events, s) && Enabled(s, e)
    ensures Next(s, e).asked == s.asked + (if e.Start? && s.hostPort.None? then 1 else 0)
    ensures Next(s, e).asked > s.asked ==> s.listening.None? && s.waiting == []
    ensures s.listening.Some? && e.Start? ==> Next(s, e).listening == s.listening && s.nextStart in Next(s, e).waiting
  {
    RunKeepsValid(INITIAL, events, s);
    if e.Start? && s.hostPort.Some? && s.listening != s.hostPort {
      MintedAnswers(s.(nextStart := s.nextStart + 1), s.hostPort.value, [s.nextStart]);
    } else if e.Answered? && s.listening.Some? && e.carriesPort {
      MintedAnswers(s.(listening := None, open := s.open + {s.listening.value}, waiting := []), s.listening.value, s.waiting);
    }
  }

  /** No start hangs or is answered twice: each waits for the awaited handshake, or has one answer for good. */
  lemma EveryStartIsAnsweredOnce(events: seq<Event>, s: State, more: seq<Event>, s': State, id: StartId)
    requires Run(INITIAL, events, s) && Run(s, more, s') && id < s.nextStart
    ensures id in s.waiting <==> id !in s.outcomes
    ensures id in s.outcomes ==> id in s'.outcomes && s'.outcomes[id] == s.outcomes[id]
    ensures s'.listening.None? ==> id in s'.outcomes
  {
    RunKeepsValid(INITIAL, events, s);
    RunKeepsValid(s, more, s');
  }

  /** A failure or a close of one attempt forgets that attempt alone; and once forgotten, the next start asks afresh. */
  lemma OnlyTheCachedAttemptIsForgotten(s: State, e: Event)
    requires Valid(s) && Enabled(s, e) && (e.HostClosed? || e.TimedOut? || (e.Answered? && !e.carriesPort && s.listening.Some?))
    ensures var gone := if e.HostClosed? then e.attempt else s.listening.value;
      var s' := Next(s, e);
      && s'.hostPort == (if s.hostPort == Some(gone) then None else s.hostPort)
      && (s'.hostPort.None? ==> Next(s', Start).asked == s.asked + 1 && Next(s', Start).hostPort == Some(s.asked) && s.asked != gone)
      && (s'.hostPort.Some? ==> Next(s', Start).asked == s.asked)
  {
    if Next(s, e).hostPort.Some? {
      var s' := Next(s, e);
      if s'.listening != s'.hostPort {
        assert Valid(s') by { NextKeepsValid(s, e); }
        MintedAnswers(s'.(nextStart := s'.nextStart + 1), s'.hostPort.value, [s'.nextStart]);
      }
    }
  }

  /** No two starts are given one child, in any run. */
  lemma ChildIdsAreUnique(events: seq<Event>, s: State, id: StartId, other: StartId)
    requires Run(INITIAL, events, s) && id in s.outcomes && other in s.outcomes && id != other
    ensures s.outcomes[id].Started? ==> s.outcomes[id] != s.outcomes[other]
  {
    RunKeepsValid(INITIAL, events, s);
  }

  /** A message or a kill for a child that has ended, or never was, does nothing; and an ended child stays ended. */
  lemma {:induction false} EndedChildrenStayEnded(s: State, events: seq<Event>, s': State, child: ChildId, payload: string)
    requires Valid(s) && Run(s, events, s') && child !in s.children && child < s.nextChildId
    ensures child !in s'.children
    ensures Next(s', Send(child, payload)) == s' && Next(s', Kill(child)) == s'
    decreases |events|
  {
    if events != [] {
      NextKeepsValid(s, events[0]);
      NewChildrenOnly(s, events[0]);
      hide Valid, Enabled;
      EndedChildrenStayEnded(Next(s, events[0]), events[1..], s', child, payload);
    }
  }

  lemma {:induction false} MintedChildrenAreNew(s: State, a: Attempt, starts: seq<StartId>)
    ensures forall child :: child in Minted(s, a, starts).children ==> child in s.children || child >= s.nextChildId
    decreases |starts|
  {
    if starts != [] {
      MintedChildrenAreNew(MintedOne(s, a, starts[0]), a, starts[1..]);
    }
  }

  lemma NewChildrenOnly(s: State, e: Event)
    requires Enabled(s, e)
    ensures forall child :: child in Next(s, e).children ==> child in s.children || child >= s.nextChildId
  {
    if e.Start? && s.hostPort.Some? && s.listening != s.hostPort {
      MintedChildrenAreNew(s.(nextStart := s.nextStart + 1), s.hostPort.value, [s.nextStart]);
    } else if e.Answered? && s.listening.Some? && e.carriesPort {
      MintedChildrenAreNew(s.(listening := None, open := s.open + {s.listening.value}, waiting := []), s.listening.value, s.waiting);
    }
  }

  // ---------------------------------------------------------------- what the host is told

  function Announced(posted: seq<Message>): seq<ChildId> {
    if posted == [] then []
    else
      var last := posted[|posted| - 1];
      Announced(posted[..|posted| - 1]) + if last.StartChild? then [last.child] else []
  }

  function UpTo(n: nat): seq<ChildId> {
    seq(n, (i: nat) => i)
  }

  /** Nothing goes to a child once it was told to terminate. */
  ghost predicate QuietOnceTerminated(posted: seq<Message>, children: set<ChildId>) {
    && (forall i, c :: 0 <= i < |posted| && posted[i] == Terminate(c) ==> c !in children)
    && (forall i, j, c :: 0 <= i < j < |posted| && posted[i] == Terminate(c) ==> posted[j] != Terminate(c) && !(posted[j].ToChild? && posted[j].child == c))
  }

  ghost predicate ToldInOrder(s: State) {
    && Announced(s.posted) == UpTo(s.nextChildId)
    && QuietOnceTerminated(s.posted, s.children)
    && (forall i :: 0 <= i < |s.posted| ==> s.posted[i].child < s.nextChildId)
  }

  lemma OneIsAnnounced(s: State, a: Attempt, id: StartId)
    requires ToldInOrder(s)
    ensures ToldInOrder(MintedOne(s, a, id))
  {
    var s' := MintedOne(s, a, id);
    AnnouncedNext(s.posted, a, s.nextChildId);
    hide Announced, UpTo;
    NewChildIsQuiet(s.posted, s.children, StartChild(a, s.nextChildId));
    assert forall i :: 0 <= i < |s.posted| ==> s'.posted[i] == s.posted[i];
  }

  lemma AnnouncedNext(posted: seq<Message>, a: Attempt, next: ChildId)
    requires Announced(posted) == UpTo(next)
    ensures Announced(posted + [StartChild(a, next)]) == UpTo(next + 1)
  {
    assert (posted + [StartChild(a, next)])[..|posted|] == posted;
    assert UpTo(next + 1) == UpTo(next) + [next];
  }

  lemma NewChildIsQuiet(posted: seq<Message>, children: set<ChildId>, m: Message)
    requires QuietOnceTerminated(posted, children) && m.StartChild?
    requires forall i :: 0 <= i < |posted| ==> posted[i].child < m.child
    ensures QuietOnceTerminated(posted + [m], children + {m.child})
  {
    assert forall i :: 0 <= i < |posted| ==> (posted + [m])[i] == posted[i];
  }

  lemma {:induction false} MintedAreAnnounced(s: State, a: Attempt, starts: seq<StartId>)
    requires ToldInOrder(s)
    ensures ToldInOrder(Minted(s, a, starts))
    decreases |starts|
  {
    hide ToldInOrder;
    if starts != [] {
      OneIsAnnounced(s, a, starts[0]);
      hide MintedOne;
      MintedAreAnnounced(MintedOne(s, a, starts[0]), a, starts[1..]);
    }
  }

  lemma PostingKeepsOrder(s: State, m: Message, children: set<ChildId>)
    requires ToldInOrder(s) && !m.StartChild? && m.child in s.children && m.child < s.nextChildId
    requires children == if m.Terminate? then s.children - {m.child} else s.children
    ensures ToldInOrder(s.(posted := s.posted + [m], children := children))
  {
    assert (s.posted + [m])[..|s.posted|] == s.posted;
  }

  lemma {:induction false} RunKeepsOrder(s: State, events: seq<Event>, s': State)
    requires Valid(s) && ToldInOrder(s) && Run(s, events, s')
    ensures ToldInOrder(s')
    decreases |events|
  {
    if events != [] {
      var e := events[0];
      NextKeepsValid(s, e);
      NextKeepsOrder(s, e);
      hide Valid, ToldInOrder, Enabled;
      RunKeepsOrder(Next(s, e), events[1..], s');
    }
  }

  /** Children are announced to the host in the order of their ids, each once, and one told to terminate is told no more. */
  lemma HostIsToldInOrder(events: seq<Event>, s: State)
    requires Run(INITIAL, events, s)
    ensures ToldInOrder(s)
  {
    assert UpTo(0) == [];
    RunKeepsOrder(INITIAL, events, s);
  }

  lemma NextKeepsOrder(s: State, e: Event)
    requires Valid(s) && ToldInOrder(s) && Enabled(s, e)
    ensures ToldInOrder(Next(s, e))
  {
    hide StartsOk, PortOk, Distinct, Announced, UpTo;
    match e
    case Start =>
      if s.hostPort.Some? && s.listening != s.hostPort {
        MintedAreAnnounced(s.(nextStart := s.nextStart + 1), s.hostPort.value, [s.nextStart]);
      }
    case Answered(carriesPort) =>
      if s.listening.Some? && carriesPort {
        MintedAreAnnounced(s.(listening := None, open := s.open + {s.listening.value}, waiting := []), s.listening.value, s.waiting);
      }
    case Send(child, payload) =>
      if child in s.children { PostingKeepsOrder(s, ToChild(child, payload), s.children); }
    case Kill(child) =>
      if child in s.children { PostingKeepsOrder(s, Terminate(child), s.children - {child}); }
    case _ =>
  }

  /** An answer that comes after its own handshake was given up is taken by the next one, and that one's own is dropped. */
  lemma LateAnswersServeTheNextAttempt()
    ensures var s := Next(Next(Next(Next(INITIAL, Start), TimedOut), Start), Answered(true));
      && s.asked == 2 && s.outcomes == map[0 := Failed, 1 := Outcome.Started(0)] && s.posted == [StartChild(1, 0)]
      && Next(s, Answered(true)) == s
  {
    var s2 := Next(Next(INITIAL, Start), TimedOut);
    assert s2.outcomes == map[0 := Failed];
    var s3 := Next(s2, Start);
    var before := s3.(listening := None, open := s3.open + {1}, waiting := []);
    var s4 := Next(s3, Answered(true));
    assert s3.waiting == [1];
    assert Minted(before, 1, [1]) == before.(outcomes := before.outcomes[1 := Outcome.Started(0)], children := {0}, nextChildId := 1, posted := [StartChild(1, 0)]) by {
      assert [1][1..] == [];
    }
  }

  // ---------------------------------------------------------------- what each turn does

  /** The announcements of `n` new children over one port, in the order of their ids. */
  function Announcements(a: Attempt, first: ChildId, n: nat): seq<Message> {
    seq(n, (k: nat) => StartChild(a, first + k))
  }

  /** Each of the starts got its child, in their order: it is there, and was announced over the port. */
  ghost predicate GotChildren(s: State, s': State, a: Attempt, starts: seq<StartId>) {
    && s'.posted == s.posted + Announcements(a, s.nextChildId, |starts|)
    && s'.nextChildId == s.nextChildId + |starts|
    && (forall c: ChildId :: c in s'.children <==> c in s.children || s.nextChildId <= c < s.nextChildId + |starts|)
    && (forall k: nat :: k < |starts| ==> starts[k] in s'.outcomes && s'.outcomes[starts[k]] == Outcome.Started(s.nextChildId + k))
    && (forall id :: id in s'.outcomes <==> id in s.outcomes || id in starts)
    && (forall id :: id in s.outcomes && id !in starts ==> s'.outcomes[id] == s.outcomes[id])
  }

  lemma {:induction false} MintedGetChildren(s: State, a: Attempt, starts: seq<StartId>)
    requires Distinct(starts)
    ensures GotChildren(s, Minted(s, a, starts), a, starts)
    decreases |starts|
  {
    if starts == [] {
      assert Announcements(a, s.nextChildId, 0) == [];
    } else {
      var s1, rest := MintedOne(s, a, starts[0]), starts[1..];
      assert Distinct(rest) by {
        assert forall i :: 0 <= i < |rest| ==> rest[i] == starts[i + 1];
      }
      MintedGetChildren(s1, a, rest);
      OneMoreGotChild(s, Minted(s1, a, rest), a, starts);
    }
  }

  lemma OneMoreGotChild(s: State, s': State, a: Attempt, starts: seq<StartId>)
    requires starts != [] && Distinct(starts) && GotChildren(MintedOne(s, a, starts[0]), s', a, starts[1..])
    ensures GotChildren(s, s', a, starts)
  {
    var s1, rest := MintedOne(s, a, starts[0]), starts[1..];
    assert starts == [starts[0]] + rest && starts[0] !in rest;
    assert Announcements(a, s.nextChildId, |starts|) == [StartChild(a, s.nextChildId)] + Announcements(a, s1.nextChildId, |rest|);
    forall k: nat | k < |starts|
      ensures starts[k] in s'.outcomes && s'.outcomes[starts[k]] == Outcome.Started(s.nextChildId + k)
    {
      if k == 0 {
        assert starts[0] in s1.outcomes;
      } else {
        assert starts[k] == rest[k - 1];
      }
    }
  }

  lemma OneIsDistinct(id: StartId)
    ensures Distinct([id])
  {
  }

  /** Nothing happens to the children and nothing is told to the host. */
  ghost predicate ChildrenLeft(s: State, s': State) {
    s'.children == s.children && s'.nextChildId == s.nextChildId && s'.posted == s.posted
  }

  /**
   A start over a connected port gets its child at once. Without one it waits, for the handshake under way or for one it sends
   itself under a new number.
   */
  lemma StartDoes(s: State)
    requires Valid(s)
    ensures var s', id := Next(s, Start), s.nextStart;
      && s'.nextStart == id + 1 && s'.open == s.open
      && (s.hostPort.Some? && s.listening.None? ==>
            GotChildren(s, s', s.hostPort.value, [id]) && s'.hostPort == s.hostPort && s'.listening.None? && s'.waiting == s.waiting && s'.asked == s.asked)
      && (s.listening.Some? ==>
            ChildrenLeft(s, s') && s'.outcomes == s.outcomes && s'.waiting == s.waiting + [id] && s'.listening == s'.hostPort == s.listening && s'.asked == s.asked)
      && (s.hostPort.None? ==>
            ChildrenLeft(s, s') && s'.outcomes == s.outcomes && s'.waiting == [id] && s'.listening == s'.hostPort == Some(s.asked) && s'.asked == s.asked + 1)
  {
    if s.hostPort.Some? && s.listening.None? {
      var s0 := s.(nextStart := s.nextStart + 1);
      OneIsDistinct(s.nextStart);
      MintedGetChildren(s0, s.hostPort.value, [s.nextStart]);
      MintedAnswers(s0, s.hostPort.value, [s.nextStart]);
      GotFrom(s, s0, Next(s, Start), s.hostPort.value, [s.nextStart]);
      hide GotChildren, Minted, ChildrenOk, StartsOk;
    }
  }

  lemma GotFrom(s: State, s0: State, s': State, a: Attempt, starts: seq<StartId>)
    requires GotChildren(s0, s', a, starts) && s0.posted == s.posted && s0.children == s.children && s0.nextChildId == s.nextChildId && s0.outcomes == s.outcomes
    ensures GotChildren(s, s', a, starts)
  {
  }

  /** Every start that shared the handshake fails, and the next start asks afresh. */
  ghost predicate AllFail(s: State, s': State) {
    && ChildrenLeft(s, s') && s'.open == s.open && s'.asked == s.asked && s'.nextStart == s.nextStart
    && s'.hostPort.None? && s'.listening.None? && s'.waiting == []
    && (forall id :: id in s.waiting ==> id in s'.outcomes && s'.outcomes[id] == Failed)
    && (forall id :: id in s'.outcomes && id !in s.waiting ==> id in s.outcomes && s'.outcomes[id] == s.outcomes[id])
    && (forall id :: id in s.outcomes && id !in s.waiting ==> id in s'.outcomes)
  }

  /** An awaited answer with a port gives every waiting start its child over it, in order, and keeps it; one without fails them. One not awaited is dropped. */
  lemma AnswerDoes(s: State, carriesPort: bool)
    requires Valid(s)
    ensures var s' := Next(s, Answered(carriesPort));
      && (s.listening.None? ==> s' == s)
      && (s.listening.Some? && !carriesPort ==> AllFail(s, s'))
      && (s.listening.Some? && carriesPort ==>
            && GotChildren(s, s', s.listening.value, s.waiting)
            && s'.hostPort == s.listening && s'.listening.None? && s'.waiting == [] && s'.open == s.open + {s.listening.value}
            && s'.asked == s.asked && s'.nextStart == s.nextStart)
  {
    if s.listening.Some? && carriesPort {
      var a := s.listening.value;
      var s0 := s.(listening := None, open := s.open + {a}, waiting := []);
      MintedGetChildren(s0, a, s.waiting);
      MintedAnswers(s0, a, s.waiting);
      GotFrom(s, s0, Next(s, Answered(true)), a, s.waiting);
      hide GotChildren, Minted, ChildrenOk;
    }
  }

  lemma TimeoutDoes(s: State)
    requires Valid(s) && s.listening.Some?
    ensures AllFail(s, Next(s, TimedOut))
  {
  }

  /** A host's port that closes is open no more, and is forgotten where it is the cached one; the children and the starts are left alone. */
  lemma HostClosedDoes(s: State, a: Attempt)
    requires Valid(s) && a in s.open
    ensures var s' := Next(s, HostClosed(a));
      && s' == s.(open := s'.open, hostPort := s'.hostPort) && (forall b :: b in s'.open <==> b in s.open && b != a)
      && s'.hostPort == if s.hostPort == Some(a) then None else s.hostPort
  {
  }

  /** A message to a child that is there is posted to it, and it stays; a kill is too, and takes it away; an end takes it away in silence. */
  lemma ChildTurnsDo(s: State, child: ChildId, payload: string)
    requires child in s.children
    ensures Next(s, Send(child, payload)) == s.(posted := s.posted + [ToChild(child, payload)])
    ensures Next(s, Kill(child)) == s.(posted := s.posted + [Terminate(child)], children := s.children - {child})
    ensures Next(s, ChildClosed(child)) == s.(children := s.children - {child})
  {
  }

  /** A child that is there stays, whatever happens to the host, its port or other children, exactly until it ends or is killed. */
  lemma {:induction false} ChildrenStayUntilEnded(s: State, events: seq<Event>, s': State, child: ChildId)
    requires Valid(s) && Run(s, events, s') && child in s.children
    ensures child in s'.children <==> forall i :: 0 <= i < |events| ==> events[i] != ChildClosed(child) && events[i] != Kill(child)
    decreases |events|
  {
    if events != [] {
      var e, s1 := events[0], Next(s, events[0]);
      NextKeepsValid(s, e);
      ChildStaysOneTurn(s, e, child);
      assert forall i :: 0 <= i < |events| - 1 ==> events[1..][i] == events[i + 1];
      if child in s1.children {
        hide Valid, Next;
        ChildrenStayUntilEnded(s1, events[1..], s', child);
        assert forall i :: 1 <= i < |events| ==> events[i] == events[1..][i - 1];
      } else {
        assert child < s1.nextChildId;
        EndedChildrenStayEnded(s1, events[1..], s', child, "");
      }
    }
  }

  lemma ChildStaysOneTurn(s: State, e: Event, child: ChildId)
    requires Valid(s) && Enabled(s, e) && child in s.children
    ensures child in Next(s, e).children <==> e != ChildClosed(child) && e != Kill(child)
    ensures child < Next(s, e).nextChildId
  {
    match e
    case Start => StartDoes(s);
    case Answered(carriesPort) => AnswerDoes(s, carriesPort);
    case _ =>
  }

  // ---------------------------------------------------------------- the bridge

  lemma CachedMeansConnected(s: State)
    requires Valid(s)
    ensures s.listening.Some? ==> s.listening == s.hostPort
  {
  }

  class ChildrenBridge {
    var state: State

    ghost predicate Ok()
      reads this
    {
      Valid(state)
    }

    constructor ()
      ensures state == INITIAL && Ok()
    {
      state := INITIAL;
    }

    /** One child over a connected port. */
    method StartChildOver(attempt: Attempt, id: StartId) returns (child: ChildId)
      modifies this
      ensures state == Minted(old(state), attempt, [id]) && child == old(state).nextChildId
    {
      assert [id][1..] == [];
      child := state.nextChildId;
      state := state.(nextChildId := child + 1, children := state.children + {child});
      state := state.(posted := state.posted + [StartChild(attempt, child)]);
      state := state.(outcomes := state.outcomes[id := Outcome.Started(child)]);
    }

    /** A child is started at once over a connected port; otherwise the start waits for the handshake, its own or the one under way. */
    method StartOne() returns (child: Option<ChildId>)
      requires Ok()
      modifies this
      ensures state == Next(old(state), Start) && Ok()
      ensures child == if old(state).hostPort.Some? && old(state).listening.None? then Some(old(state).nextChildId) else None
    {
      hide Valid;
      NextKeepsValid(state, Start);
      CachedMeansConnected(state);
      var id := state.nextStart;
      state := state.(nextStart := id + 1);
      if state.hostPort.None? {
        state := state.(hostPort := Some(state.asked), listening := Some(state.asked), asked := state.asked + 1, waiting := [id]);
        return None;
      }
      if state.listening == state.hostPort {
        state := state.(waiting := state.waiting + [id]);
        return None;
      }
      var minted := StartChildOver(state.hostPort.value, id);
      child := Some(minted);
    }

    /** The awaited answer: without a port the attempt fails, with one every start that shared it gets its child. An answer nobody awaits is dropped. */
    method AnswerArrived(carriesPort: bool)
      requires Ok()
      modifies this
      ensures state == Next(old(state), Answered(carriesPort)) && Ok()
    {
      hide Valid;
      NextKeepsValid(state, Answered(carriesPort));
      if state.listening.None? {
        return;
      }
      if !carriesPort {
        FailAttempt();
        return;
      }
      var attempt, starts := state.listening.value, state.waiting;
      state := state.(listening := None, open := state.open + {attempt}, waiting := []);
      ghost var connected := state;
      for i := 0 to |starts|
        invariant Minted(connected, attempt, starts) == Minted(state, attempt, starts[i..])
      {
        MintedFirst(state, attempt, starts[i..]);
        assert starts[i..][1..] == starts[i + 1..];
        var _ := StartChildOver(attempt, starts[i]);
      }
    }

    method FailAttempt()
      requires state.listening.Some?
      modifies this
      ensures state == AttemptFailed(old(state))
    {
      var attempt, starts := state.listening, state.waiting;
      state := state.(listening := None, waiting := []);
      if state.hostPort == attempt {
        state := state.(hostPort := None);
      }
      state := state.(outcomes := AllFailed(state.outcomes, starts));
    }

    method HandshakeTimedOut()
      requires Ok() && Enabled(state, TimedOut)
      modifies this
      ensures state == Next(old(state), TimedOut) && Ok()
    {
      hide Valid;
      NextKeepsValid(state, TimedOut);
      FailAttempt();
    }

    /** A connected port's host end went away; a newer attempt stays cached. */
    method HostWentAway(attempt: Attempt)
      requires Ok() && Enabled(state, HostClosed(attempt))
      modifies this
      ensures state == Next(old(state), HostClosed(attempt)) && Ok()
    {
      hide Valid;
      NextKeepsValid(state, HostClosed(attempt));
      state := state.(open := state.open - {attempt});
      if state.hostPort == Some(attempt) {
        state := state.(hostPort := None);
      }
    }

    method ChildEnded(child: ChildId)
      requires Ok()
      modifies this
      ensures state == Next(old(state), ChildClosed(child)) && Ok()
    {
      hide Valid;
      NextKeepsValid(state, ChildClosed(child));
      state := state.(children := state.children - {child});
    }

    method SendTo(child: ChildId, payload: string)
      requires Ok()
      modifies this
      ensures state == Next(old(state), Send(child, payload)) && Ok()
    {
      hide Valid;
      NextKeepsValid(state, Send(child, payload));
      if child in state.children {
        state := state.(posted := state.posted + [ToChild(child, payload)]);
      }
    }

    method KillChild(child: ChildId)
      requires Ok()
      modifies this
      ensures state == Next(old(state), Kill(child)) && Ok()
    {
      hide Valid;
      NextKeepsValid(state, Kill(child));
      if child !in state.children {
        return;
      }
      state := state.(posted := state.posted + [Terminate(child)]);
      state := state.(children := state.children - {child});
    }
  }

  lemma MintedFirst(s: State, a: Attempt, starts: seq<StartId>)
    requires starts != []
    ensures Minted(s, a, starts) == Minted(Minted(s, a, [starts[0]]), a, starts[1..])
  {
    assert [starts[0]][1..] == [];
  }
}
