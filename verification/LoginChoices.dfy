/** Which of a page's boxes is the username, and which get a strong password, from what the page says of each box. */
module LoginChoices {
  import opened Results

  /** What the page says of a password box: that it asks for the current password, or for a new one. */
  datatype PasswordBox = PasswordBox(saysCurrent: bool, saysNew: bool)

  /** Whether an input could hold a username at all, and whether the page labels it as one. */
  datatype Input = Input(canBeUsername: bool, saysUsername: bool)

  // ---------------------------------------------------------------- the username

  predicate IsLabelled(input: Input) {
    input.canBeUsername && input.saysUsername
  }

  /** Of the inputs before a password box, the last that is labelled, else the last that could be one; -1 when none could. */
  method ChooseUsername(before: seq<Input>) returns (chosen: int)
    ensures chosen == -1 <==> forall i :: 0 <= i < |before| ==> !before[i].canBeUsername
    ensures chosen != -1 ==> 0 <= chosen < |before| && before[chosen].canBeUsername
    ensures chosen != -1 && IsLabelled(before[chosen]) ==> forall i :: chosen < i < |before| ==> !IsLabelled(before[i])
    ensures chosen != -1 && !IsLabelled(before[chosen]) ==>
              (forall i :: 0 <= i < |before| ==> !IsLabelled(before[i])) && (forall i :: chosen < i < |before| ==> !before[i].canBeUsername)
  {
    var labelled, nearest := -1, -1;
    for i := 0 to |before|
      invariant -1 <= labelled <= nearest < i
      invariant nearest >= 0 ==> before[nearest].canBeUsername
      invariant labelled >= 0 ==> IsLabelled(before[labelled])
      invariant forall k :: nearest < k < i ==> !before[k].canBeUsername
      invariant forall k :: labelled < k < i ==> !IsLabelled(before[k])
    {
      if before[i].canBeUsername {
        nearest := i;
        if before[i].saysUsername {
          labelled := i;
        }
      }
    }
    chosen := if labelled != -1 then labelled else nearest;
  }

  // ---------------------------------------------------------------- the new password

  predicate IsOpen(boxes: seq<PasswordBox>, i: int) {
    0 <= i < |boxes| && !boxes[i].saysCurrent
  }

  function NextOpen(boxes: seq<PasswordBox>, from: nat): (next: Option<nat>)
    ensures next.Some? ==> from <= next.value && IsOpen(boxes, next.value) && forall i :: from <= i < next.value ==> !IsOpen(boxes, i)
    ensures next.None? ==> forall i :: from <= i ==> !IsOpen(boxes, i)
    decreases |boxes| - from
  {
    if from >= |boxes| then None else if IsOpen(boxes, from) then Some(from) else NextOpen(boxes, from + 1)
  }

  function LastOpen(boxes: seq<PasswordBox>, below: nat): (last: Option<nat>)
    ensures last.Some? ==> last.value < below && IsOpen(boxes, last.value) && forall i :: last.value < i < below ==> !IsOpen(boxes, i)
    ensures last.None? ==> forall i :: 0 <= i < below ==> !IsOpen(boxes, i)
  {
    if below == 0 then None else if IsOpen(boxes, below - 1) then Some(below - 1) else LastOpen(boxes, below - 1)
  }

  function FirstNew(boxes: seq<PasswordBox>, from: nat): (found: Option<nat>)
    ensures found.Some? ==> IsOpen(boxes, found.value) && boxes[found.value].saysNew
    ensures found.Some? ==> forall i :: from <= i < found.value ==> !(IsOpen(boxes, i) && boxes[i].saysNew)
    ensures found.None? ==> forall i :: from <= i < |boxes| ==> !(IsOpen(boxes, i) && boxes[i].saysNew)
    decreases |boxes| - from
  {
    if from >= |boxes| then None
    else if IsOpen(boxes, from) && boxes[from].saysNew then Some(from)
    else FirstNew(boxes, from + 1)
  }

  /** The new password: the first box the page calls new, else the middle one of three, else the first not called current. */
  function Leader(boxes: seq<PasswordBox>): Option<nat> {
    if FirstNew(boxes, 0).Some? then FirstNew(boxes, 0)
    else if |boxes| == 3 && IsOpen(boxes, 1) then Some(1)
    else NextOpen(boxes, 0)
  }

  /** A box and its confirmation: the next one, or the one before it when it is the last. */
  function PairOf(boxes: seq<PasswordBox>, at: nat): seq<nat> {
    var next, before := NextOpen(boxes, at + 1), LastOpen(boxes, at);
    if next.Some? then [at, next.value] else if before.Some? then [before.value, at] else [at]
  }

  function NewPasswordBoxes(boxes: seq<PasswordBox>, touched: int): seq<nat> {
    var leader := Leader(boxes);
    if leader.None? then []
    else
      var usual := PairOf(boxes, leader.value);
      if IsOpen(boxes, touched) && touched !in usual then PairOf(boxes, touched) else usual
  }

  /** Boxes in page order, none called current, with no such box passed over between them. */
  ghost predicate IsPair(boxes: seq<PasswordBox>, chosen: seq<nat>) {
    && 1 <= |chosen| <= 2
    && (forall k :: 0 <= k < |chosen| ==> IsOpen(boxes, chosen[k]))
    && (|chosen| == 2 ==> chosen[0] < chosen[1] && forall i :: chosen[0] < i < chosen[1] ==> !IsOpen(boxes, i))
    && (|chosen| == 1 ==> forall i :: IsOpen(boxes, i) ==> i == chosen[0])
  }

  lemma PairOfIsPair(boxes: seq<PasswordBox>, at: nat)
    requires IsOpen(boxes, at)
    ensures IsPair(boxes, PairOf(boxes, at)) && at in PairOf(boxes, at)
  {
    assert at in PairOf(boxes, at) by {
      assert PairOf(boxes, at)[0] == at || PairOf(boxes, at)[|PairOf(boxes, at)| - 1] == at;
    }
  }

  /**
   A page with a box not called current gets two neighbours of those, or its only one, and no other page any; the box the
   person is in is always among them if it is one, and the new password is unless that box draws them away.
   */
  lemma ChosenBoxes(boxes: seq<PasswordBox>, touched: int)
    ensures var chosen := NewPasswordBoxes(boxes, touched);
      && (chosen == [] <==> forall i :: !IsOpen(boxes, i))
      && (chosen != [] ==> IsPair(boxes, chosen))
      && (IsOpen(boxes, touched) ==> touched in chosen)
      && (chosen != [] ==> Leader(boxes).Some? && IsOpen(boxes, Leader(boxes).value))
      && (chosen != [] && Leader(boxes).value !in chosen ==> IsOpen(boxes, touched) && touched !in PairOf(boxes, Leader(boxes).value))
  {
    var leader := Leader(boxes);
    if leader.Some? {
      assert IsOpen(boxes, leader.value);
      PairOfIsPair(boxes, leader.value);
      if IsOpen(boxes, touched) {
        PairOfIsPair(boxes, touched);
      }
    }
  }

  // ---------------------------------------------------------------- which boxes they are

  /** A box not called current that the page says is for a new password. */
  ghost predicate IsFresh(boxes: seq<PasswordBox>, i: int) {
    0 <= i < |boxes| && !boxes[i].saysCurrent && boxes[i].saysNew
  }

  /** Where the new password goes: the first such box; with none, the middle one of three; else the first not called current. */
  ghost predicate LeadsAt(boxes: seq<PasswordBox>, at: int) {
    && 0 <= at < |boxes| && !boxes[at].saysCurrent
    && (if exists i :: IsFresh(boxes, i) then IsFresh(boxes, at) && forall i :: i < at ==> !IsFresh(boxes, i)
        else if |boxes| == 3 && !boxes[1].saysCurrent then at == 1
        else forall i :: 0 <= i < at ==> boxes[i].saysCurrent)
  }

  /** A box with its confirmation: the next one not called current, or where it is the last the one before it. */
  ghost predicate PairedAt(boxes: seq<PasswordBox>, at: nat, chosen: seq<nat>) {
    IsPair(boxes, chosen) && at in chosen && ((exists i :: i > at && IsOpen(boxes, i)) ==> chosen[0] == at)
  }

  lemma PairIsPairedAt(boxes: seq<PasswordBox>, at: nat)
    requires IsOpen(boxes, at)
    ensures PairedAt(boxes, at, PairOf(boxes, at))
  {
    PairOfIsPair(boxes, at);
  }

  lemma LeaderLeads(boxes: seq<PasswordBox>, at: nat)
    ensures Leader(boxes) == Some(at) <==> LeadsAt(boxes, at)
  {
    var found := FirstNew(boxes, 0);
    if found.Some? {
      assert IsFresh(boxes, found.value);
    } else {
      assert forall i :: IsFresh(boxes, i) ==> IsOpen(boxes, i);
    }
    assert (exists i :: IsFresh(boxes, i)) <==> found.Some?;
    if found.Some? {
      assert forall i :: 0 <= i < found.value ==> !(IsOpen(boxes, i) && boxes[i].saysNew) && !IsFresh(boxes, i);
      assert IsFresh(boxes, at) ==> IsOpen(boxes, at) && boxes[at].saysNew;
    } else {
      var first := NextOpen(boxes, 0);
      assert IsOpen(boxes, at) ==> first.Some? && first.value <= at;
      if first.Some? {
        assert IsOpen(boxes, first.value) && IsOpen(boxes, 1) == (|boxes| > 1 && !boxes[1].saysCurrent);
        forall i | 0 <= i < first.value
          ensures boxes[i].saysCurrent
        {
          assert !IsOpen(boxes, i);
        }
      }
    }
  }

  /**
   The boxes chosen are the pair of the one the new password goes to; or, where the person is in a box not called current and
   outside that pair, that box's own pair.
   */
  lemma ChosenArePaired(boxes: seq<PasswordBox>, touched: int, at: nat) returns (usual: seq<nat>)
    requires LeadsAt(boxes, at)
    ensures PairedAt(boxes, at, usual)
    ensures if IsOpen(boxes, touched) && touched !in usual then PairedAt(boxes, touched, NewPasswordBoxes(boxes, touched))
            else NewPasswordBoxes(boxes, touched) == usual
  {
    LeaderLeads(boxes, at);
    usual := PairOf(boxes, at);
    PairIsPairedAt(boxes, at);
    if IsOpen(boxes, touched) {
      PairIsPairedAt(boxes, touched);
    }
  }

  /** A box has only one such pair. */
  lemma OnePairEach(boxes: seq<PasswordBox>, at: nat, a: seq<nat>, b: seq<nat>)
    requires PairedAt(boxes, at, a) && PairedAt(boxes, at, b)
    ensures a == b
  {
    assert a[0] == at || a[|a| - 1] == at;
    assert b[0] == at || b[|b| - 1] == at;
    assert IsOpen(boxes, a[0]) && IsOpen(boxes, b[0]) && IsOpen(boxes, a[|a| - 1]) && IsOpen(boxes, b[|b| - 1]);
  }
}
