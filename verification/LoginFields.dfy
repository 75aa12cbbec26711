/**
 Grouping password boxes by the page element that scopes them: a union-find over a parent array that is updated in
 place, with neither rank nor index order, so a smaller index may come to point at a larger one.
 */
module LoginFields {

  /** Password boxes that belong together, and the scope that holds them all. */
  datatype ScopeGroup<T> = ScopeGroup(scope: T, members: seq<nat>)

  /** Two boxes share a group when their scopes are one element or one holds the other. */
  predicate Related<T(==)>(scopes: seq<T>, holds: (T, T) -> bool, i: nat, j: nat)
    requires i < |scopes| && j < |scopes|
  {
    scopes[i] == scopes[j] || holds(scopes[i], scopes[j]) || holds(scopes[j], scopes[i])
  }

  ghost predicate Chain<T>(scopes: seq<T>, holds: (T, T) -> bool, path: seq<nat>) {
    && |path| > 0
    && (forall k :: 0 <= k < |path| ==> path[k] < |scopes|)
    && (forall k :: 0 < k < |path| ==> Related(scopes, holds, path[k - 1], path[k]))
  }

  ghost predicate ChainFromTo<T>(scopes: seq<T>, holds: (T, T) -> bool, path: seq<nat>, a: nat, b: nat) {
    Chain(scopes, holds, path) && path[0] == a && path[|path| - 1] == b
  }

  /** A chain of related scopes joins the two boxes. */
  ghost predicate Joined<T>(scopes: seq<T>, holds: (T, T) -> bool, a: nat, b: nat) {
    exists path :: ChainFromTo(scopes, holds, path, a, b)
  }

  lemma JoinedToItself<T>(scopes: seq<T>, holds: (T, T) -> bool, a: nat)
    requires a < |scopes|
    ensures Joined(scopes, holds, a, a)
  {
    assert ChainFromTo(scopes, holds, [a], a, a);
  }

  lemma RelatedAreJoined<T>(scopes: seq<T>, holds: (T, T) -> bool, a: nat, b: nat)
    requires a < |scopes| && b < |scopes| && Related(scopes, holds, a, b)
    ensures Joined(scopes, holds, a, b)
  {
    assert ChainFromTo(scopes, holds, [a, b], a, b);
  }

  lemma JoinedBackwards<T>(scopes: seq<T>, holds: (T, T) -> bool, a: nat, b: nat)
    requires Joined(scopes, holds, a, b)
    ensures Joined(scopes, holds, b, a)
  {
    var path :| ChainFromTo(scopes, holds, path, a, b);
    var back := seq(|path|, k requires 0 <= k < |path| => path[|path| - 1 - k]);
    assert ChainFromTo(scopes, holds, back, b, a);
  }

  lemma JoinedThrough<T>(scopes: seq<T>, holds: (T, T) -> bool, a: nat, b: nat, c: nat)
    requires Joined(scopes, holds, a, b) && Joined(scopes, holds, b, c)
    ensures Joined(scopes, holds, a, c)
  {
    var path :| ChainFromTo(scopes, holds, path, a, b);
    var next :| ChainFromTo(scopes, holds, next, b, c);
    assert ChainFromTo(scopes, holds, path + next[1..], a, c);
  }

  // ---------------------------------------------------------------- the parent array is a forest

  /**
   One index of the parent array: `rep` names the root above it, and `rank`, never above `top`, grows along its link
   unless the link is a root's own.
   */
  ghost predicate Linked(root: seq<nat>, rep: seq<nat>, rank: seq<nat>, top: nat, i: nat)
    requires |root| == |rep| == |rank| && i < |root|
  {
    && root[i] < |root| && rep[i] < |root| && rank[i] <= top
    && root[rep[i]] == rep[i] && rep[root[i]] == rep[i]
    && (root[i] == i ==> rep[i] == i)
    && (root[i] != i ==> rank[i] < rank[root[i]])
  }

  /** No links close a cycle: along them the rank grows. */
  ghost predicate Forest(root: seq<nat>, rep: seq<nat>, rank: seq<nat>, top: nat) {
    && |root| == |rep| == |rank|
    && (forall i :: 0 <= i < |root| ==> Linked(root, rep, rank, top, i))
  }

  method Find(root: array<nat>, index: nat, ghost rep: seq<nat>, ghost rank: seq<nat>, ghost top: nat) returns (at: nat)
    requires Forest(root[..], rep, rank, top) && index < root.Length
    ensures at == rep[index]
  {
    at := index;
    assert Linked(root[..], rep, rank, top, at);
    while root[at] != at
      invariant at < root.Length && rep[at] == rep[index]
      invariant rank[at] <= top
      decreases top - rank[at]
    {
      assert Linked(root[..], rep, rank, top, at);
      assert Linked(root[..], rep, rank, top, root[at]);
      at := root[at];
    }
    assert Linked(root[..], rep, rank, top, at);
  }

  ghost function Merged(rep: seq<nat>, from: nat, into: nat): seq<nat> {
    seq(|rep|, k requires 0 <= k < |rep| => if rep[k] == from then into else rep[k])
  }

  lemma LinkKeepsForest(root: seq<nat>, rep: seq<nat>, rank: seq<nat>, top: nat, i: nat, j: nat)
    requires Forest(root, rep, rank, top) && i < |root| && j < |root| && rep[i] != rep[j]
    requires rep[i] < |root| && rep[j] < |root|
    ensures Forest(root[rep[j] := rep[i]], Merged(rep, rep[j], rep[i]), rank[rep[i] := top + 1], top + 1)
  {
    var above, below := rep[i], rep[j];
    assert Linked(root, rep, rank, top, i) && Linked(root, rep, rank, top, j);
    assert Linked(root, rep, rank, top, above) && Linked(root, rep, rank, top, below);
    var top' := top + 1;
    var linked, merged, ranked := root[below := above], Merged(rep, below, above), rank[above := top'];
    forall k | 0 <= k < |root|
      ensures Linked(linked, merged, ranked, top', k)
    {
      assert Linked(root, rep, rank, top, k);
      assert Linked(root, rep, rank, top, root[k]) && Linked(root, rep, rank, top, rep[k]);
    }
  }

  // ---------------------------------------------------------------- representatives against chains

  ghost predicate SoundReps<T>(scopes: seq<T>, holds: (T, T) -> bool, rep: seq<nat>) {
    && |rep| == |scopes|
    && (forall a, b :: 0 <= a < |rep| && 0 <= b < |rep| && rep[a] == rep[b] ==> Joined(scopes, holds, a, b))
  }

  /** Every related pair seen so far, in the order of the two loops, has one representative. */
  ghost predicate SeenPairs<T>(scopes: seq<T>, holds: (T, T) -> bool, rep: seq<nat>, i: nat, j: nat) {
    && |rep| == |scopes|
    && (forall a: nat, b: nat :: a < b < |rep| && (a < i || (a == i && b < j)) && Related(scopes, holds, a, b) ==> rep[a] == rep[b])
  }

  lemma LinkKeepsSoundness<T>(scopes: seq<T>, holds: (T, T) -> bool, rep: seq<nat>, i: nat, j: nat)
    requires SoundReps(scopes, holds, rep) && i < |rep| && j < |rep| && Related(scopes, holds, i, j)
    ensures SoundReps(scopes, holds, Merged(rep, rep[j], rep[i]))
  {
    var merged := Merged(rep, rep[j], rep[i]);
    RelatedAreJoined(scopes, holds, i, j);
    JoinedBackwards(scopes, holds, i, j);
    forall a, b | 0 <= a < |rep| && 0 <= b < |rep| && merged[a] == merged[b]
      ensures Joined(scopes, holds, a, b)
    {
      if rep[a] != rep[b] {
        if rep[a] == rep[j] {
          JoinedThrough(scopes, holds, a, j, i);
          JoinedThrough(scopes, holds, a, i, b);
        } else {
          JoinedThrough(scopes, holds, a, i, j);
          JoinedThrough(scopes, holds, a, j, b);
        }
      }
    }
  }

  lemma {:induction false} ChainKeepsRepresentative<T>(scopes: seq<T>, holds: (T, T) -> bool, rep: seq<nat>, path: seq<nat>)
    requires SeenPairs(scopes, holds, rep, |scopes|, 0) && Chain(scopes, holds, path)
    ensures rep[path[0]] == rep[path[|path| - 1]]
  {
    if |path| > 1 {
      var a, b := path[|path| - 2], path[|path| - 1];
      assert Related(scopes, holds, a, b) && Related(scopes, holds, b, a);
      ChainKeepsRepresentative(scopes, holds, rep, path[..|path| - 1]);
    }
  }

  /** Once both loops are done, two boxes have one representative exactly when a chain joins them. */
  lemma RepresentativesAreComponents<T>(scopes: seq<T>, holds: (T, T) -> bool, rep: seq<nat>, a: nat, b: nat)
    requires SoundReps(scopes, holds, rep) && SeenPairs(scopes, holds, rep, |scopes|, 0)
    requires a < |scopes| && b < |scopes|
    ensures rep[a] == rep[b] <==> Joined(scopes, holds, a, b)
  {
    if Joined(scopes, holds, a, b) {
      var path :| ChainFromTo(scopes, holds, path, a, b);
      ChainKeepsRepresentative(scopes, holds, rep, path);
    }
  }

  // ---------------------------------------------------------------- collecting the groups

  /** An insertion-ordered map from representative to members, with one more member. */
  function Collect(groups: seq<(nat, seq<nat>)>, key: nat, index: nat): seq<(nat, seq<nat>)> {
    if groups == [] then [(key, [index])]
    else if groups[0].0 == key then [(key, groups[0].1 + [index])] + groups[1..]
    else [groups[0]] + Collect(groups[1..], key, index)
  }

  ghost predicate Ascending(s: seq<nat>) {
    forall p, q :: 0 <= p < q < |s| ==> s[p] < s[q]
  }

  ghost predicate Within(members: seq<nat>, n: nat) {
    forall k :: 0 <= k < |members| ==> members[k] < n
  }

  /** A collected group: all of the first `n` indices with its representative, in ascending order. */
  ghost predicate Collected(rep: seq<nat>, n: nat, key: nat, members: seq<nat>)
    requires n <= |rep|
  {
    && |members| > 0 && Ascending(members) && Within(members, n)
    && (forall k :: 0 <= k < |members| ==> rep[members[k]] == key)
    && (forall i :: 0 <= i < n && rep[i] == key ==> i in members)
  }

  ghost predicate HasKey(groups: seq<(nat, seq<nat>)>, key: nat) {
    exists g :: 0 <= g < |groups| && groups[g].0 == key
  }

  /** The first `n` indices, grouped by representative, groups in order of their first member. */
  ghost predicate Grouped(rep: seq<nat>, n: nat, groups: seq<(nat, seq<nat>)>) {
    && n <= |rep|
    && (forall g :: 0 <= g < |groups| ==> Collected(rep, n, groups[g].0, groups[g].1))
    && (forall i :: 0 <= i < n ==> HasKey(groups, rep[i]))
    && (forall g, h :: 0 <= g < h < |groups| ==> groups[g].0 != groups[h].0)
    && (forall g, h :: 0 <= g < h < |groups| ==> groups[g].1[0] < groups[h].1[0])
  }

  lemma {:induction false} CollectNewKey(groups: seq<(nat, seq<nat>)>, key: nat, index: nat)
    requires !HasKey(groups, key)
    ensures Collect(groups, key, index) == groups + [(key, [index])]
  {
    if groups != [] {
      assert forall g :: 0 <= g < |groups| - 1 ==> groups[1..][g] == groups[g + 1];
      CollectNewKey(groups[1..], key, index);
    }
  }

  lemma {:induction false} CollectKnownKey(groups: seq<(nat, seq<nat>)>, key: nat, index: nat, at: nat)
    requires at < |groups| && groups[at].0 == key
    requires forall g :: 0 <= g < at ==> groups[g].0 != key
    ensures Collect(groups, key, index) == groups[at := (key, groups[at].1 + [index])]
  {
    if at > 0 {
      CollectKnownKey(groups[1..], key, index, at - 1);
    }
  }

  lemma CollectedGrows(rep: seq<nat>, n: nat, key: nat, members: seq<nat>)
    requires n < |rep| && Collected(rep, n, key, members)
    ensures rep[n] != key ==> Collected(rep, n + 1, key, members)
    ensures rep[n] == key ==> Collected(rep, n + 1, key, members + [n])
  {
  }

  lemma CollectKeepsGrouped(rep: seq<nat>, n: nat, groups: seq<(nat, seq<nat>)>)
    requires n < |rep| && Grouped(rep, n, groups)
    ensures Grouped(rep, n + 1, Collect(groups, rep[n], n))
  {
    hide Collected;
    var key, after := rep[n], Collect(groups, rep[n], n);
    if HasKey(groups, key) {
      var at :| 0 <= at < |groups| && groups[at].0 == key;
      CollectKnownKey(groups, key, n, at);
      assert after[at].0 == key;
    } else {
      CollectNewKey(groups, key, n);
      FirstOfItsKey(rep, n, groups);
      assert after[|groups|].0 == key;
    }
    KeysRemain(rep, n, groups, after);
    forall g | 0 <= g < |after|
      ensures Collected(rep, n + 1, after[g].0, after[g].1)
    {
      if g < |groups| {
        CollectedGrows(rep, n, groups[g].0, groups[g].1);
      }
    }
    forall g | 0 <= g < |groups|
      ensures |groups[g].1| > 0 && after[g].1 != [] && after[g].1[0] == groups[g].1[0] < n
    {
      CollectedIsNonempty(rep, n, groups[g].0, groups[g].1);
    }
  }

  lemma CollectedIsNonempty(rep: seq<nat>, n: nat, key: nat, members: seq<nat>)
    requires n <= |rep| && Collected(rep, n, key, members)
    ensures |members| > 0 && members[0] < n
  {
  }

  lemma FirstOfItsKey(rep: seq<nat>, n: nat, groups: seq<(nat, seq<nat>)>)
    requires n < |rep| && Grouped(rep, n, groups) && !HasKey(groups, rep[n])
    ensures Collected(rep, n + 1, rep[n], [n])
  {
  }

  lemma KeysRemain(rep: seq<nat>, n: nat, groups: seq<(nat, seq<nat>)>, after: seq<(nat, seq<nat>)>)
    requires n < |rep| && (forall i :: 0 <= i < n ==> HasKey(groups, rep[i])) && HasKey(after, rep[n])
    requires |groups| <= |after| && forall g :: 0 <= g < |groups| ==> groups[g].0 == after[g].0
    ensures forall i :: 0 <= i < n + 1 ==> HasKey(after, rep[i])
  {
    forall i | 0 <= i < n
      ensures HasKey(after, rep[i])
    {
      var g :| 0 <= g < |groups| && groups[g].0 == rep[i];
      assert after[g].0 == rep[i];
    }
  }

  // ---------------------------------------------------------------- the scope of a group

  predicate Covers<T(==)>(scopes: seq<T>, holds: (T, T) -> bool, members: seq<nat>, candidate: nat)
    requires candidate < |scopes| && Within(members, |scopes|)
  {
    forall k :: 0 <= k < |members| ==> scopes[members[k]] == scopes[candidate] || holds(scopes[candidate], scopes[members[k]])
  }

  /** The scope of the first member from `from` on that covers every member, else the first member's. */
  function ScopeOf<T(==)>(scopes: seq<T>, holds: (T, T) -> bool, members: seq<nat>, from: nat): T
    requires |members| > 0 && Within(members, |scopes|)
    decreases |members| - from
  {
    if from >= |members| then scopes[members[0]]
    else if Covers(scopes, holds, members, members[from]) then scopes[members[from]]
    else ScopeOf(scopes, holds, members, from + 1)
  }

  lemma {:induction false} ScopeCoversIfAnyDoes<T>(scopes: seq<T>, holds: (T, T) -> bool, members: seq<nat>, from: nat, some: nat)
    requires |members| > 0 && Within(members, |scopes|)
    requires from <= some < |members| && Covers(scopes, holds, members, members[some])
    ensures exists c :: c in members && Covers(scopes, holds, members, c) && ScopeOf(scopes, holds, members, from) == scopes[c]
    decreases some - from
  {
    if !Covers(scopes, holds, members, members[from]) {
      ScopeCoversIfAnyDoes(scopes, holds, members, from + 1, some);
    }
  }

  // ---------------------------------------------------------------- the whole function

  ghost predicate Placed<T>(groups: seq<ScopeGroup<T>>, i: nat) {
    exists g :: 0 <= g < |groups| && i in groups[g].members
  }

  ghost predicate GroupHasScope<T>(scopes: seq<T>, holds: (T, T) -> bool, group: ScopeGroup<T>) {
    && |group.members| > 0 && Within(group.members, |scopes|)
    && group.scope == ScopeOf(scopes, holds, group.members, 0)
  }

  /** The groups are the connected components of `Related`, in order, each with a covering scope when it has one. */
  ghost predicate AreComponents<T>(scopes: seq<T>, holds: (T, T) -> bool, groups: seq<ScopeGroup<T>>) {
    && (forall g :: 0 <= g < |groups| ==> GroupHasScope(scopes, holds, groups[g]) && Ascending(groups[g].members))
    && (forall i: nat :: i < |scopes| ==> Placed(groups, i))
    && (forall g, h, a, b :: 0 <= g < |groups| && 0 <= h < |groups| && a in groups[g].members && b in groups[h].members
                             ==> (g == h <==> Joined(scopes, holds, a, b)))
    && (forall g, h :: 0 <= g < h < |groups| ==> groups[g].members[0] < groups[h].members[0])
  }

  function WithScope<T(==)>(scopes: seq<T>, holds: (T, T) -> bool, members: seq<nat>): ScopeGroup<T>
    requires |members| > 0 && Within(members, |scopes|)
  {
    ScopeGroup(ScopeOf(scopes, holds, members, 0), members)
  }

  lemma GroupedAreComponents<T>(scopes: seq<T>, holds: (T, T) -> bool, rep: seq<nat>, collected: seq<(nat, seq<nat>)>, groups: seq<ScopeGroup<T>>)
    requires SoundReps(scopes, holds, rep) && SeenPairs(scopes, holds, rep, |scopes|, 0)
    requires Grouped(rep, |scopes|, collected) && |groups| == |collected|
    requires forall g :: 0 <= g < |groups| ==> groups[g] == WithScope(scopes, holds, collected[g].1)
    ensures AreComponents(scopes, holds, groups)
  {
    hide SoundReps, SeenPairs, ScopeOf, Joined;
    forall g, h, a, b | 0 <= g < |groups| && 0 <= h < |groups| && a in groups[g].members && b in groups[h].members
      ensures g == h <==> Joined(scopes, holds, a, b)
    {
      assert rep[a] == collected[g].0 && rep[b] == collected[h].0;
      RepresentativesAreComponents(scopes, holds, rep, a, b);
    }
    forall i: nat | i < |scopes|
      ensures Placed(groups, i)
    {
      assert HasKey(collected, rep[i]);
      var g :| 0 <= g < |collected| && collected[g].0 == rep[i];
      assert Collected(rep, |scopes|, collected[g].0, collected[g].1);
      assert i in groups[g].members;
    }
  }

  /** What the two loops keep: a forest, representatives that only join chained boxes, and every pair seen so far joined. */
  ghost predicate Progress<T>(scopes: seq<T>, holds: (T, T) -> bool, root: seq<nat>, rep: seq<nat>, rank: seq<nat>, top: nat, i: nat, j: nat) {
    && |root| == |scopes| && Forest(root, rep, rank, top)
    && SoundReps(scopes, holds, rep) && SeenPairs(scopes, holds, rep, i, j)
  }

  lemma ProgressStarts<T>(scopes: seq<T>, holds: (T, T) -> bool, root: seq<nat>) returns (rep: seq<nat>, rank: seq<nat>)
    requires |root| == |scopes| && forall i :: 0 <= i < |root| ==> root[i] == i
    ensures Progress(scopes, holds, root, rep, rank, 0, 0, 0)
  {
    rep, rank := root, seq(|root|, (i: nat) => 0);
    forall a | 0 <= a < |scopes|
      ensures Joined(scopes, holds, a, a)
    {
      JoinedToItself(scopes, holds, a);
    }
  }

  lemma ProgressSkips<T>(scopes: seq<T>, holds: (T, T) -> bool, root: seq<nat>, rep: seq<nat>, rank: seq<nat>, top: nat, i: nat, j: nat)
    requires Progress(scopes, holds, root, rep, rank, top, i, j)
    requires i < |scopes| && j < |scopes| && !(i < j && Related(scopes, holds, i, j))
    ensures Progress(scopes, holds, root, rep, rank, top, i, j + 1)
  {
  }

  lemma ProgressWraps<T>(scopes: seq<T>, holds: (T, T) -> bool, root: seq<nat>, rep: seq<nat>, rank: seq<nat>, top: nat, i: nat)
    requires Progress(scopes, holds, root, rep, rank, top, i, |scopes|)
    ensures Progress(scopes, holds, root, rep, rank, top, i + 1, 0)
  {
  }

  lemma ProgressLinks<T>(scopes: seq<T>, holds: (T, T) -> bool, root: seq<nat>, rep: seq<nat>, rank: seq<nat>, top: nat, i: nat, j: nat)
      returns (rep': seq<nat>, rank': seq<nat>, top': nat)
    requires Progress(scopes, holds, root, rep, rank, top, i, j)
    requires i < |scopes| && j < |scopes| && Related(scopes, holds, i, j)
    requires |rep| == |root| && rep[i] < |root| && rep[j] < |root|
    ensures Progress(scopes, holds, root[rep[j] := rep[i]], rep', rank', top', i, j + 1)
  {
    var above, below := rep[i], rep[j];
    LinkKeepsSoundness(scopes, holds, rep, i, j);
    rep' := Merged(rep, below, above);
    if above != below {
      LinkKeepsForest(root, rep, rank, top, i, j);
      rank', top' := rank[above := top + 1], top + 1;
    } else {
      assert Linked(root, rep, rank, top, j);
      assert rep' == rep && root[below := above] == root;
      rank', top' := rank, top;
    }
  }

  method GroupByScope<T(==)>(scopes: seq<T>, holds: (T, T) -> bool) returns (groups: seq<ScopeGroup<T>>)
    ensures AreComponents(scopes, holds, groups)
  {
    hide SoundReps, SeenPairs, Grouped, Related, AreComponents;
    var n := |scopes|;
    var root: array<nat> := new nat[n](index => index);
    ghost var top := 0;
    ghost var rep, rank := ProgressStarts(scopes, holds, root[..]);
    for i := 0 to n
      invariant Progress(scopes, holds, root[..], rep, rank, top, i, 0)
    {
      for j := 0 to n
        invariant Progress(scopes, holds, root[..], rep, rank, top, i, j)
      {
        if i < j && Related(scopes, holds, i, j) {
          var below := Find(root, j, rep, rank, top);
          var above := Find(root, i, rep, rank, top);
          ghost var was := root[..];
          assert Linked(was, rep, rank, top, i) && Linked(was, rep, rank, top, j);
          rep, rank, top := ProgressLinks(scopes, holds, was, rep, rank, top, i, j);
          root[below] := above;
          assert root[..] == was[below := above];
        } else {
          ProgressSkips(scopes, holds, root[..], rep, rank, top, i, j);
        }
      }
      ProgressWraps(scopes, holds, root[..], rep, rank, top, i);
    }

    var collected: seq<(nat, seq<nat>)> := [];
    NothingGrouped(rep);
    for index := 0 to n
      invariant Progress(scopes, holds, root[..], rep, rank, top, n, 0) && Grouped(rep, index, collected)
    {
      var key := Find(root, index, rep, rank, top);
      CollectKeepsGrouped(rep, index, collected);
      collected := Collect(collected, key, index);
    }
    GroupsAreReadable(rep, n, collected);
    groups := seq(|collected|, g requires 0 <= g < |collected| => WithScope(scopes, holds, collected[g].1));
    GroupedAreComponents(scopes, holds, rep, collected, groups);
  }

  lemma NothingGrouped(rep: seq<nat>)
    ensures Grouped(rep, 0, [])
  {
  }

  lemma GroupsAreReadable(rep: seq<nat>, n: nat, collected: seq<(nat, seq<nat>)>)
    requires Grouped(rep, n, collected)
    ensures forall g :: 0 <= g < |collected| ==> |collected[g].1| > 0 && Within(collected[g].1, n)
  {
  }

  // ---------------------------------------------------------------- over a page's element tree

  /** Containment between elements of one tree: transitive, and any two elements that hold a third are nested or one. */
  ghost predicate Containment<T(!new)>(holds: (T, T) -> bool) {
    && (forall a, b, c :: holds(a, b) && holds(b, c) ==> holds(a, c))
    && (forall a, b, c :: holds(a, c) && holds(b, c) ==> a == b || holds(a, b) || holds(b, a))
  }

  ghost predicate AtOrAbove<T>(holds: (T, T) -> bool, outer: T, inner: T) {
    outer == inner || holds(outer, inner)
  }

  /** A chain of related elements has one of its own elements at or above its two ends. */
  lemma {:induction false} ChainHasCover<T(!new)>(scopes: seq<T>, holds: (T, T) -> bool, path: seq<nat>) returns (at: nat)
    requires Containment(holds) && Chain(scopes, holds, path)
    ensures at < |path|
    ensures AtOrAbove(holds, scopes[path[at]], scopes[path[0]]) && AtOrAbove(holds, scopes[path[at]], scopes[path[|path| - 1]])
  {
    if |path| == 1 {
      at := 0;
    } else {
      var front := path[..|path| - 1];
      at := ChainHasCover(scopes, holds, front);
      var cover, last, next := scopes[path[at]], scopes[front[|front| - 1]], scopes[path[|path| - 1]];
      assert Related(scopes, holds, path[|path| - 2], path[|path| - 1]);
      if !AtOrAbove(holds, cover, next) {
        assert holds(next, last);
        at := |path| - 1;
      }
    }
  }

  lemma ChainPrefixIsJoined<T>(scopes: seq<T>, holds: (T, T) -> bool, path: seq<nat>, at: nat)
    requires Chain(scopes, holds, path) && at < |path|
    ensures Joined(scopes, holds, path[0], path[at])
  {
    assert ChainFromTo(scopes, holds, path[..at + 1], path[0], path[at]);
  }

  lemma {:induction false} GroupHasCover<T(!new)>(scopes: seq<T>, holds: (T, T) -> bool, members: seq<nat>) returns (cover: nat)
    requires Containment(holds) && |members| > 0 && Within(members, |scopes|)
    requires forall a, b :: a in members && b in members ==> Joined(scopes, holds, a, b)
    ensures cover < |scopes| && Joined(scopes, holds, members[0], cover) && Covers(scopes, holds, members, cover)
  {
    if |members| == 1 {
      cover := members[0];
      JoinedToItself(scopes, holds, cover);
    } else {
      var front, last := members[..|members| - 1], members[|members| - 1];
      var below := GroupHasCover(scopes, holds, front);
      JoinedBackwards(scopes, holds, members[0], below);
      JoinedThrough(scopes, holds, below, members[0], last);
      var path :| ChainFromTo(scopes, holds, path, below, last);
      var at := ChainHasCover(scopes, holds, path);
      ChainPrefixIsJoined(scopes, holds, path, at);
      JoinedThrough(scopes, holds, members[0], below, path[at]);
      cover := path[at];
      forall k | 0 <= k < |members|
        ensures AtOrAbove(holds, scopes[cover], scopes[members[k]])
      {
        if k < |front| {
          assert AtOrAbove(holds, scopes[below], scopes[front[k]]);
        }
      }
    }
  }

  /** Over one element tree the scope of every group holds, or is, the scope of each of its members. */
  lemma EveryGroupIsHeldByItsScope<T(!new)>(scopes: seq<T>, holds: (T, T) -> bool, groups: seq<ScopeGroup<T>>, g: nat, m: nat)
    requires Containment(holds) && AreComponents(scopes, holds, groups)
    requires g < |groups| && m in groups[g].members
    ensures AtOrAbove(holds, groups[g].scope, scopes[m])
  {
    var members := groups[g].members;
    var cover := GroupHasCover(scopes, holds, members);
    assert Placed(groups, cover);
    var h :| 0 <= h < |groups| && cover in groups[h].members;
    assert cover in members;
    var some :| 0 <= some < |members| && members[some] == cover;
    ScopeCoversIfAnyDoes(scopes, holds, members, 0, some);
  }
}
