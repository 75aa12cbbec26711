/** Every call the broker answers, and what holds throughout every run of them, whatever writes fail. */
module BrokerRuns {
  import opened Results
  import opened HandleTable
  import opened GrantLedger
  import opened BrokerState

  datatype Call =
    | Granted(key: Origin, capability: Capability, patterns: seq<Pattern>, now: nat, writeFails: bool)
    | GrantRevoked(key: Origin, id: GrantId, writeFails: bool)
    | CapabilityRevoked(key: Origin, capability: Capability, writeFails: bool)
    | Registered(key: Origin, manifest: Manifest, writeFails: bool)
    | Pinned(key: Origin, manifest: Manifest)
    | Picked(key: Origin)
    | PickOpened(key: Origin, pick: PickId)
    | PickFailed(key: Origin, pick: PickId)
    | PickRevoked(key: Origin, pick: PickId)
    | Began(key: Origin, capability: Capability)
    | Finished(key: Origin, op: OperationId, got: Resource)
    | Derived(key: Origin, parent: HandleId, allowance: nat)
    | Released(key: Origin, id: HandleId)
    | Dropped(key: Origin)
    | ScriptSet(key: Origin, source: string)
    | RecordForgotten(key: Origin, deleted: nat)

  ghost predicate Step(policy: Policy, w: World, call: Call, w': World) {
    match call
    case Granted(key, capability, patterns, now, writeFails) => w' == GrantStep(policy, w, key, capability, patterns, now, writeFails)
    case GrantRevoked(key, id, writeFails) => w' == RevokeStep(policy, w, key, id, writeFails)
    case CapabilityRevoked(key, capability, writeFails) => w' == RevokePersistedStep(w, key, capability, writeFails)
    case Registered(key, manifest, writeFails) => RegisterStep(policy, w, key, manifest, writeFails, w')
    case Pinned(key, manifest) => PinStep(policy, w, key, manifest, w')
    case Picked(key) => w' == PickStep(w, key)
    case PickOpened(key, pick) => pick in w.opening && w.opening[pick] == key && w' == PickOpenedStep(w, key, pick)
    case PickFailed(key, pick) => pick in w.opening && w.opening[pick] == key && w' == PickFailedStep(w, pick)
    case PickRevoked(key, pick) => w' == RevokePickStep(w, key, pick)
    case Began(key, capability) => w' == BeginStep(w, key, capability)
    case Finished(key, op, got) => w' == FinishStep(w, key, op, got)
    case Derived(key, parent, allowance) => w' == DeriveStep(w, key, parent, allowance)
    case Released(key, id) => w' == ReleaseStep(w, key, id)
    case Dropped(key) => w' == DropStep(w, key)
    case ScriptSet(key, source) => w' == ScriptStep(w, key, source)
    case RecordForgotten(key, deleted) => w' == ForgetRecordStep(w, key, deleted)
  }

  /**
   A restore looks at no stored script, and neither does dropping a record: both keep script-implies-grant on conditions of their
   own. Every other call keeps it.
   */
  ghost predicate KeepsScript(policy: Policy, w: World, call: Call) {
    match call
    case Registered(key, manifest, _) => ScriptSurvivesRestore(policy, w, key, manifest)
    case Pinned(key, manifest) => ScriptSurvivesRestore(policy, w, key, manifest)
    case RecordForgotten(key, deleted) => deleted >= ALL_DELETED ==> key !in w.scripts
    case _ => true
  }

  /** Every call keeps everything sound, touches its own origin alone, and keeps script-implies-grant exactly where the condition holds. */
  lemma StepKeepsOk(policy: Policy, w: World, call: Call, w': World)
    requires WorldOk(w) && Step(policy, w, call, w')
    ensures WorldOk(w') && OthersKept(w, w', call.key)
    ensures ScriptOk(w, call.key) ==> (ScriptOk(w', call.key) <==> KeepsScript(policy, w, call))
  {
    hide WorldOk, OthersKept, GrantStep, RevokeStep, RevokePersistedStep, RegisterStep, PinStep, ScriptSurvivesRestore;
    match call
    case Granted(key, capability, patterns, now, writeFails) => GrantKeepsOk(policy, w, key, capability, patterns, now, writeFails);
    case GrantRevoked(key, id, writeFails) => RevokeKeepsWorld(policy, w, key, id, writeFails);
    case CapabilityRevoked(key, capability, writeFails) => RevokePersistedKeepsOk(w, key, capability, writeFails);
    case Registered(key, manifest, writeFails) => RegisterKeepsOk(policy, w, key, manifest, writeFails, w');
    case Pinned(key, manifest) => PinKeepsOk(policy, w, key, manifest, w');
    case Picked(key) => PickKeepsWorld(w, key);
    case PickOpened(key, pick) => PickOpenedKeepsWorld(w, key, pick);
    case PickFailed(key, pick) => PickFailedKeepsWorld(w, key, pick);
    case PickRevoked(key, pick) => RevokePickKeepsWorld(w, key, pick);
    case Began(key, capability) => BeginKeepsWorld(w, key, capability);
    case Finished(key, op, got) => FinishKeepsWorld(w, key, op, got);
    case Derived(key, parent, allowance) => DeriveKeepsWorld(w, key, parent, allowance);
    case Released(key, id) => ReleaseKeepsWorld(w, key, id);
    case Dropped(key) => DropKeepsWorld(w, key);
    case ScriptSet(key, source) => ScriptStepKeepsWorld(w, key, source);
    case RecordForgotten(key, deleted) => ForgetRecordKeepsWorld(w, key, deleted);
  }

  /** The record a restoring call starts from. */
  function RestoredRecord(policy: Policy, w: World, call: Call): Record
    requires call.Registered? || call.Pinned?
  {
    if call.Registered? then RegisteredRecord(policy, w, call.key, call.manifest) else RecordIn(policy, w.records, w.stored, call.key)
  }

  /** The two restoring calls restore alike, and one of them also writes the floor, the other also pins. */
  lemma RestoringCall(policy: Policy, w: World, call: Call, w': World)
    requires Step(policy, w, call, w') && (call.Registered? || call.Pinned?)
    ensures RestoreStep(policy, w, call.key, RestoredRecord(policy, w, call), call.manifest, Restores(policy, w, call.key), w'.(stored := w.stored, pinned := w.pinned))
  {
    hide Hydrated, DistinctIds, RevokeEach, Elements, SupersededBy, Lost, WithIds, RecordIn, RegisteredStored, RegisteredRecord, Restores, GrantStep, RevokeStep, RevokePersistedStep, PickStep, PickOpenedStep, PickFailedStep,
      RevokePickStep, BeginStep, FinishStep, DeriveStep, ReleaseStep, DropStep, ScriptStep, ForgetRecordStep;
    if call.Registered? {
      assert w'.(stored := w.stored).pinned == w.pinned;
      assert w'.(stored := w.stored, pinned := w.pinned) == w'.(stored := w.stored);
    } else {
      assert w'.(pinned := w.pinned).stored == w.stored;
      assert w'.(stored := w.stored, pinned := w.pinned) == w'.(pinned := w.pinned);
    }
  }

  /** `ws` is what the broker holds before, between and after `calls`. */
  ghost predicate Run(policy: Policy, ws: seq<World>, calls: seq<Call>) {
    && |ws| == |calls| + 1
    && (exists stored :: ws[0] == Start(stored))
    && (forall i :: 0 <= i < |calls| ==> Step(policy, ws[i], calls[i], ws[i + 1]))
  }

  lemma {:induction false} RunKeepsOk(policy: Policy, ws: seq<World>, calls: seq<Call>, n: nat)
    requires Run(policy, ws, calls) && n < |ws|
    ensures WorldOk(ws[n])
  {
    hide Step;
    if n > 0 {
      RunKeepsOk(policy, ws, calls, n - 1);
      StepKeepsOk(policy, ws[n - 1], calls[n - 1], ws[n]);
    }
  }

  ghost predicate SameFor<V>(m: map<Origin, V>, m': map<Origin, V>, key: Origin) {
    (key in m <==> key in m') && (key in m ==> m[key] == m'[key])
  }

  /** One origin's grants, handles, picks, storage, manifest and script are as they were. */
  ghost predicate OriginKept(w: World, w': World, key: Origin) {
    && SameFor(w.records, w'.records, key) && SameFor(w.stored, w'.stored, key) && SameFor(w.tables, w'.tables, key)
    && SameFor(w.picks, w'.picks, key) && SameFor(w.pinned, w'.pinned, key) && SameFor(w.scripts, w'.scripts, key)
  }

  /** No stretch of a run changes an origin that none of its calls is for. */
  lemma {:induction false} OriginsAreApart(policy: Policy, ws: seq<World>, calls: seq<Call>, m: nat, n: nat, key: Origin)
    requires Run(policy, ws, calls) && m <= n < |ws| && forall i :: m <= i < n ==> calls[i].key != key
    ensures OriginKept(ws[m], ws[n], key)
    decreases n - m
  {
    hide Step, SameFor;
    if m < n {
      OriginsAreApart(policy, ws, calls, m, n - 1, key);
      RunKeepsOk(policy, ws, calls, n - 1);
      StepKeepsOk(policy, ws[n - 1], calls[n - 1], ws[n]);
      KeptThrough(ws[m], ws[n - 1], ws[n], calls[n - 1].key, key);
    } else {
      KeptAtOnce(ws[m], key);
    }
  }

  lemma KeptAtOnce(w: World, key: Origin)
    ensures OriginKept(w, w, key)
  {
  }

  lemma KeptThrough(w: World, w': World, w'': World, key: Origin, other: Origin)
    requires OriginKept(w, w', other) && OthersKept(w', w'', key) && other != key
    ensures OriginKept(w, w'', other)
  {
  }

  // ---------------------------------------------------------------- which handles stand, exactly

  /** A call pushed the tombstone of `g` out of the origin's queue with work in flight that answers to it. */
  ghost predicate LosesTombstone(w: World, w': World, key: Origin, g: GrantId) {
    g in Lost(TableIn(w.tables, key), TableIn(w'.tables, key))
  }

  /** What dropping a record with this call leaves in use under no grant. */
  ghost function DroppedBy(w: World, call: Call): set<GrantId> {
    if call.RecordForgotten? then DroppedWithRecord(w, call.key, call.deleted) else {}
  }

  ghost predicate LostBefore(ws: seq<World>, calls: seq<Call>, n: nat, key: Origin, g: GrantId)
    requires |ws| == |calls| + 1 && n < |ws|
  {
    exists i :: 0 <= i < n && calls[i].key == key && (LosesTombstone(ws[i], ws[i + 1], key, g) || g in DroppedBy(ws[i], calls[i]))
  }

  /** The origin took the pick back between its being picked and its file's being open. */
  ghost predicate Overtakes(w: World, call: Call, key: Origin, p: PickId) {
    call == PickRevoked(key, p) && p in w.opening && w.opening[p] == key
  }

  ghost predicate OvertakenBefore(ws: seq<World>, calls: seq<Call>, n: nat, key: Origin, p: PickId)
    requires |ws| == |calls| + 1 && n < |ws|
  {
    exists i :: 0 <= i < n && Overtakes(ws[i], calls[i], key, p)
  }

  lemma SameTombstonesLoseNothing(t: Table, t': Table)
    requires t'.tombstones == t.tombstones || t'.pending == map[]
    ensures Lost(t, t') == {}
  {
  }

  /** What the two records of exceptions gain at each call is just what it lost and overtook. */
  lemma StepRecords(policy: Policy, w: World, call: Call, w': World)
    requires Step(policy, w, call, w')
    ensures var key := call.key;
      && IdsIn(w'.forgotten, key) == IdsIn(w.forgotten, key) + Lost(TableIn(w.tables, key), TableIn(w'.tables, key)) + DroppedBy(w, call)
      && IdsIn(w'.overtaken, key) == IdsIn(w.overtaken, key) + (if call.PickRevoked? then OvertakenBy(w.opening, key, call.pick) else {})
  {
    hide Step, Lost, TableIn, RestoreStep, DroppedWithRecord;
    assert IdsIn(w.overtaken, call.key) + {} == IdsIn(w.overtaken, call.key);
    if call.Registered? || call.Pinned? {
      RestoringCall(policy, w, call, w');
      RestoreRecords(policy, w, call.key, RestoredRecord(policy, w, call), call.manifest, Restores(policy, w, call.key), w'.(stored := w.stored, pinned := w.pinned));
    } else if call.Granted? || call.GrantRevoked? || call.CapabilityRevoked? {
      GrantRecords(policy, w, call, w');
    } else if call.RecordForgotten? {
      ForgetRecords(policy, w, call, w');
    } else {
      TableRecords(policy, w, call, w');
      assert IdsIn(w.forgotten, call.key) + {} + {} == IdsIn(w.forgotten, call.key);
    }
  }

  lemma ForgetRecords(policy: Policy, w: World, call: Call, w': World)
    requires Step(policy, w, call, w') && call.RecordForgotten?
    ensures IdsIn(w'.forgotten, call.key) == IdsIn(w.forgotten, call.key) + Lost(TableIn(w.tables, call.key), TableIn(w'.tables, call.key)) + DroppedBy(w, call)
    ensures w'.overtaken == w.overtaken && Lost(TableIn(w.tables, call.key), TableIn(w'.tables, call.key)) == {}
  {
    hide Lost, DroppedWithRecord, GrantStep, RevokeStep, RevokePersistedStep, RegisterStep, PinStep, AfterDeletions, StoredIn;
    SameTombstonesLoseNothing(TableIn(w.tables, call.key), TableIn(w'.tables, call.key));
  }

  lemma GrantRecords(policy: Policy, w: World, call: Call, w': World)
    requires Step(policy, w, call, w') && (call.Granted? || call.GrantRevoked? || call.CapabilityRevoked?)
    ensures IdsIn(w'.forgotten, call.key) == IdsIn(w.forgotten, call.key) + Lost(TableIn(w.tables, call.key), TableIn(w'.tables, call.key))
    ensures w'.overtaken == w.overtaken
  {
    hide Regranted, Revoke, RevokeIn, Lost, CoversOld, RecordIn, ToStore, WithoutGrant, WithGrants, RegisterStep, PinStep, RevokePersistedResult, RevokeWrites;
  }

  lemma RestoreRecords(policy: Policy, w: World, key: Origin, record: Record, manifest: Manifest, restores: bool, w': World)
    requires RestoreStep(policy, w, key, record, manifest, restores, w')
    ensures IdsIn(w'.forgotten, key) == IdsIn(w.forgotten, key) + Lost(TableIn(w.tables, key), TableIn(w'.tables, key))
    ensures w'.overtaken == w.overtaken
  {
    hide RevokeEach, Lost, Hydrated, DistinctIds, Elements, SupersededBy;
    SameTombstonesLoseNothing(TableIn(w.tables, key), TableIn(w.tables, key));
    assert IdsIn(w.forgotten, key) + {} == IdsIn(w.forgotten, key);
  }

  lemma TableRecords(policy: Policy, w: World, call: Call, w': World)
    requires Step(policy, w, call, w') && !call.Granted? && !call.GrantRevoked? && !call.CapabilityRevoked? && !call.Registered? && !call.Pinned?
    requires !call.RecordForgotten?
    ensures w'.forgotten == w.forgotten && Lost(TableIn(w.tables, call.key), TableIn(w'.tables, call.key)) == {}
    ensures IdsIn(w'.overtaken, call.key) == IdsIn(w.overtaken, call.key) + (if call.PickRevoked? then OvertakenBy(w.opening, call.key, call.pick) else {})
  {
    hide GrantStep, RevokeStep, RevokePersistedStep, RegisterStep, PinStep, Lost;
    TombstonesStay(policy, w, call, w');
    SameTombstonesLoseNothing(TableIn(w.tables, call.key), TableIn(w'.tables, call.key));
    hide Begin, BeginStep, FinishStep, DeriveStep, ReleaseStep, OpenPicked, RevokePick, ForgetRecordStep, ScriptStep, OvertakenBy;
    if !call.PickRevoked? {
      OthersOvertakeNothing(policy, w, call, w');
      assert IdsIn(w.overtaken, call.key) + {} == IdsIn(w.overtaken, call.key);
    }
  }

  lemma TombstonesStay(policy: Policy, w: World, call: Call, w': World)
    requires Step(policy, w, call, w') && !call.Granted? && !call.GrantRevoked? && !call.CapabilityRevoked? && !call.Registered? && !call.Pinned?
    requires !call.RecordForgotten?
    ensures w'.forgotten == w.forgotten
    ensures TableIn(w'.tables, call.key).tombstones == TableIn(w.tables, call.key).tombstones || TableIn(w'.tables, call.key).pending == map[]
  {
    TablesKeepTombstones(TableIn(w.tables, call.key));
    hide GrantStep, RevokeStep, RevokePersistedStep, RegisterStep, PinStep, Begin, Acquire, Derive, Release, OpenPicked, RevokePick,
      GrantsIn, IdsIn, StoredIn, AfterDeletions, OvertakenBy, WithIds;
  }

  lemma TablesKeepTombstones(t: Table)
    ensures forall op, g :: Begin(t, op, g).tombstones == t.tombstones
    ensures forall op, id, got | op in t.pending :: Acquire(t, op, id, got).tombstones == t.tombstones
    ensures forall parent, id, allowance | parent in t.handles :: Derive(t, parent, id, allowance).tombstones == t.tombstones
    ensures forall id :: Release(t, id).tombstones == t.tombstones
    ensures forall pick, id :: OpenPicked(t, pick, id).tombstones == t.tombstones
    ensures forall pick :: RevokePick(t, pick).tombstones == t.tombstones
  {
    hide CloseTrees, Acquirable;
  }

  lemma OthersOvertakeNothing(policy: Policy, w: World, call: Call, w': World)
    requires Step(policy, w, call, w') && !call.Granted? && !call.GrantRevoked? && !call.CapabilityRevoked? && !call.Registered? && !call.Pinned?
    requires !call.PickRevoked? && !call.RecordForgotten?
    ensures w'.overtaken == w.overtaken
  {
    hide GrantStep, RevokeStep, RevokePersistedStep, RegisterStep, PinStep, RevokePickStep, GrantsIn, IdsIn, AfterDeletions, StoredIn, TableIn;
  }

  lemma {:induction false} ForgottenIsLost(policy: Policy, ws: seq<World>, calls: seq<Call>, n: nat, key: Origin, g: GrantId)
    requires Run(policy, ws, calls) && n < |ws|
    ensures g in IdsIn(ws[n].forgotten, key) <==> LostBefore(ws, calls, n, key, g)
  {
    hide Step, Lost, DroppedBy;
    if n > 0 {
      var m := n - 1;
      ForgottenIsLost(policy, ws, calls, m, key, g);
      RunKeepsOk(policy, ws, calls, m);
      StepKeepsOk(policy, ws[m], calls[m], ws[n]);
      if calls[m].key == key {
        StepRecords(policy, ws[m], calls[m], ws[n]);
        assert g in IdsIn(ws[n].forgotten, key) <==> g in IdsIn(ws[m].forgotten, key) || LosesTombstone(ws[m], ws[m + 1], key, g) || g in DroppedBy(ws[m], calls[m]);
      } else {
        SameElsewhere(ws[m].forgotten, ws[n].forgotten, calls[m].key, key);
      }
    }
  }

  lemma {:induction false} OvertakenIsOvertaken(policy: Policy, ws: seq<World>, calls: seq<Call>, n: nat, key: Origin, p: PickId)
    requires Run(policy, ws, calls) && n < |ws|
    ensures p in IdsIn(ws[n].overtaken, key) <==> OvertakenBefore(ws, calls, n, key, p)
  {
    hide Step, Lost;
    if n > 0 {
      var m := n - 1;
      OvertakenIsOvertaken(policy, ws, calls, m, key, p);
      RunKeepsOk(policy, ws, calls, m);
      StepKeepsOk(policy, ws[m], calls[m], ws[n]);
      if calls[m].key == key {
        StepRecords(policy, ws[m], calls[m], ws[n]);
        assert p in IdsIn(ws[n].overtaken, key) <==> p in IdsIn(ws[m].overtaken, key) || Overtakes(ws[m], calls[m], key, p);
      } else {
        SameElsewhere(ws[m].overtaken, ws[n].overtaken, calls[m].key, key);
      }
    }
  }

  /**
   In every run, whatever writes fail, an open handle stands under a grant its own origin holds now, exactly unless that
   grant's tombstone was pushed out with work in flight that answered to it, or its record was dropped with it in use; or under a pick its own origin holds now, exactly
   unless the origin took the pick back while the file was being opened.
   */
  lemma EveryHandleIsAuthorised(policy: Policy, ws: seq<World>, calls: seq<Call>, n: nat, key: Origin, id: HandleId)
    requires Run(policy, ws, calls) && n < |ws| && id in TableIn(ws[n].tables, key).handles
    ensures match TableIn(ws[n].tables, key).handles[id].auth
      case ByGrant(g) => Holds(GrantsIn(ws[n].records, key), g) <==> !LostBefore(ws, calls, n, key, g)
      case ByPick(p) => p in IdsIn(ws[n].picks, key) <==> !OvertakenBefore(ws, calls, n, key, p)
  {
    RunKeepsOk(policy, ws, calls, n);
    assert OriginHolds(ws[n], key);
    match TableIn(ws[n].tables, key).handles[id].auth
    case ByGrant(g) => ForgottenIsLost(policy, ws, calls, n, key, g);
    case ByPick(p) => OvertakenIsOvertaken(policy, ws, calls, n, key, p);
  }

  // ---------------------------------------------------------------- ceilings

  lemma StepKeepsShape(policy: Policy, w: World, call: Call, w': World)
    requires WorldOk(w) && Step(policy, w, call, w') && Shaped(TableIn(w.tables, call.key).handles)
    ensures Shaped(TableIn(w'.tables, call.key).handles)
  {
    hide WorldOk, Shaped, Step, TableIn;
    TablesAreTrees(w, call.key);
    if call.Registered? || call.Pinned? {
      RestoringCall(policy, w, call, w');
      RestoreKeepsShape(policy, w, call.key, RestoredRecord(policy, w, call), call.manifest, Restores(policy, w, call.key), w'.(stored := w.stored, pinned := w.pinned));
    } else if call.Granted? || call.GrantRevoked? || call.CapabilityRevoked? {
      GrantsKeepShape(policy, w, call, w');
    } else {
      HandlesKeepShape(policy, w, call, w');
    }
  }

  lemma RestoreKeepsShape(policy: Policy, w: World, key: Origin, record: Record, manifest: Manifest, restores: bool, w': World)
    requires RestoreStep(policy, w, key, record, manifest, restores, w') && Shaped(TableIn(w.tables, key).handles)
    ensures Shaped(TableIn(w'.tables, key).handles)
  {
    hide RevokeEach, Lost, Hydrated, DistinctIds, Elements, SupersededBy, Shaped;
    if restores {
      var t, was, held, after := TableIn(w.tables, key), GrantsIn(w.records, key), StoredIn(w.stored, key).grants, GrantsIn(w'.records, key);
      var order :| && Elements(order) == SupersededBy(policy, manifest, held, was)
                   && w' == w.(records := w.records[key := record.(grants := after)], tables := w.tables[key := RevokeEach(t, order)],
                               forgotten := WithIds(w.forgotten, key, Lost(t, RevokeEach(t, order))), nextId := w'.nextId);
      RevokeEachLeavesFewer(t, order);
      FewerAreShaped(t.handles, RevokeEach(t, order).handles);
    }
  }

  lemma GrantsKeepShape(policy: Policy, w: World, call: Call, w': World)
    requires Step(policy, w, call, w') && (call.Granted? || call.GrantRevoked? || call.CapabilityRevoked?) && Shaped(TableIn(w.tables, call.key).handles)
    ensures Shaped(TableIn(w'.tables, call.key).handles)
  {
    hide Revoke, Replace, CoversOld, GrantsIn, RecordIn, StoredIn, RegisterStep, PinStep, Lost, WithIds, WithGrants, WithoutGrant, ToStore, Shaped, Fewer,
      RevokeWrites, RevokePersistedResult;
    var t, was := TableIn(w.tables, call.key), GrantsIn(w.records, call.key);
    match call
    case Granted(_, capability, patterns, now, _) =>
      if capability in was {
        var coversAll := CoversOld(policy, was, capability, patterns);
        ReplaceLeavesFewer(t, was[capability].id, w.nextId, patterns, coversAll);
        FewerAreShaped(t.handles, Replace(t, was[capability].id, w.nextId, patterns, coversAll).handles);
      }
    case GrantRevoked(_, id, _) =>
      RevokeLeavesFewer(t, id);
      FewerAreShaped(t.handles, Revoke(t, id).handles);
    case CapabilityRevoked(_, capability, _) =>
      if capability in was {
        RevokeLeavesFewer(t, was[capability].id);
        FewerAreShaped(t.handles, Revoke(t, was[capability].id).handles);
      }
  }

  lemma NothingIsShaped()
    ensures Shaped(map[])
  {
    forall budget
      ensures |Counted(map[], budget)| <= Ceiling(budget)
    {
      assert Counted(map[], budget) == {};
    }
  }

  lemma HandlesKeepShape(policy: Policy, w: World, call: Call, w': World)
    requires Step(policy, w, call, w') && !call.Granted? && !call.GrantRevoked? && !call.CapabilityRevoked? && !call.Registered? && !call.Pinned?
    requires Shaped(TableIn(w.tables, call.key).handles) && TreeOk(TableIn(w.tables, call.key).handles) && w.nextId !in TableIn(w.tables, call.key).handles
    ensures Shaped(TableIn(w'.tables, call.key).handles)
  {
    hide RegisterStep, PinStep, GrantStep, RevokeStep, RevokePersistedStep, RevokePick, Acquire, Derive, Release, OpenPicked, GrantsIn, IdsIn, WithIds, StoredIn,
      AfterDeletions, OvertakenBy, ByteLength, Shaped, TreeOk, Fewer;
    var t := TableIn(w.tables, call.key);
    NothingIsShaped();
    match call
    case PickOpened(_, pick) => AddingKeepsShape(t, 0, 0, pick, w.nextId, NOTHING, 0);
    case Finished(_, op, got) => AddingKeepsShape(t, op, 0, 0, w.nextId, got, 0);
    case Derived(_, parent, allowance) => AddingKeepsShape(t, 0, parent, 0, w.nextId, NOTHING, allowance);
    case PickRevoked(_, pick) =>
      RevokePickLeavesFewer(t, pick);
      FewerAreShaped(t.handles, RevokePick(t, pick).handles);
    case Released(_, id) =>
      ReleaseLeavesFewer(t, id);
      FewerAreShaped(t.handles, Release(t, id).handles);
    case _ =>
  }

  /**
   In every run: no origin passes a ceiling; a picked file's handle is a file and nothing is derived from it; and what is derived
   is a connection, from a socket that stands under the same grant.
   */
  lemma {:induction false} CeilingsHold(policy: Policy, ws: seq<World>, calls: seq<Call>, n: nat, key: Origin)
    requires Run(policy, ws, calls) && n < |ws|
    ensures Shaped(TableIn(ws[n].tables, key).handles)
  {
    hide Step, Shaped;
    if n == 0 {
      NothingIsShaped();
    } else {
      CeilingsHold(policy, ws, calls, n - 1, key);
      RunKeepsOk(policy, ws, calls, n - 1);
      if calls[n - 1].key == key {
        StepKeepsShape(policy, ws[n - 1], calls[n - 1], ws[n]);
      } else {
        StepKeepsOk(policy, ws[n - 1], calls[n - 1], ws[n]);
        SameElsewhere(ws[n - 1].tables, ws[n].tables, calls[n - 1].key, key);
      }
    }
  }

  lemma TablesAreTrees(w: World, key: Origin)
    requires WorldOk(w)
    ensures TreeOk(TableIn(w.tables, key).handles) && w.nextId !in TableIn(w.tables, key).handles
  {
    assert OriginHolds(w, key);
  }

  // ---------------------------------------------------------------- losing takes a full queue

  lemma {:induction false} RememberAllGrows(memory: seq<GrantId>, gs: set<GrantId>, n: nat)
    ensures |memory| <= |RememberAll(memory, gs, n)|
    ensures |RememberAll(memory, gs, n)| < REVOKED_GRANT_MEMORY ==> forall g :: g in memory ==> g in RememberAll(memory, gs, n)
  {
    if n > 0 {
      RememberAllGrows(memory, gs, n - 1);
    }
  }

  /** A queue of revoked grants that has room left has dropped none of them. */
  ghost predicate KeepsWithRoom(t: Table, t': Table) {
    && |t.tombstones| <= |t'.tombstones|
    && (|t'.tombstones| < REVOKED_GRANT_MEMORY ==> forall g :: g in t.tombstones ==> g in t'.tombstones)
  }

  lemma RevokeEvictsWhenFull(t: Table, g: GrantId)
    ensures KeepsWithRoom(t, Revoke(t, g))
  {
    hide CloseTrees, RememberAll;
    RememberAllGrows(Remember(t.tombstones, g), AliasesOf(t, g), g);
  }

  lemma {:induction false} RevokeEachEvictsWhenFull(t: Table, order: seq<GrantId>)
    ensures KeepsWithRoom(t, RevokeEach(t, order))
  {
    hide Revoke;
    if order != [] {
      RevokeEachEvictsWhenFull(t, order[..|order| - 1]);
      RevokeEvictsWhenFull(RevokeEach(t, order[..|order| - 1]), order[|order| - 1]);
    }
  }

  lemma ReplaceEvictsWhenFull(t: Table, was: map<Capability, GrantRecord>, c: Capability, g: GrantRecord, coversAll: bool)
    ensures KeepsWithRoom(t, Regranted(t, was, c, g, coversAll))
  {
    hide CloseTrees, Uncovered;
  }

  lemma RestoreEvictsWhenFull(policy: Policy, w: World, key: Origin, record: Record, manifest: Manifest, restores: bool, w': World)
    requires RestoreStep(policy, w, key, record, manifest, restores, w')
    ensures KeepsWithRoom(TableIn(w.tables, key), TableIn(w'.tables, key))
  {
    hide RevokeEach, Lost, Hydrated, DistinctIds, Elements, SupersededBy, KeepsWithRoom;
    var t := TableIn(w.tables, key);
    SameTableHasRoom(t);
    if restores {
      var was, held, after := GrantsIn(w.records, key), StoredIn(w.stored, key).grants, GrantsIn(w'.records, key);
      var order :| && Elements(order) == SupersededBy(policy, manifest, held, was)
                   && w' == w.(records := w.records[key := record.(grants := after)], tables := w.tables[key := RevokeEach(t, order)],
                               forgotten := WithIds(w.forgotten, key, Lost(t, RevokeEach(t, order))), nextId := w'.nextId);
      RevokeEachEvictsWhenFull(t, order);
    }
  }

  lemma SameTableHasRoom(t: Table)
    ensures KeepsWithRoom(t, t)
  {
  }

  lemma GrantsEvictWhenFull(policy: Policy, w: World, call: Call, w': World)
    requires Step(policy, w, call, w') && (call.Granted? || call.GrantRevoked? || call.CapabilityRevoked?)
    ensures KeepsWithRoom(TableIn(w.tables, call.key), TableIn(w'.tables, call.key))
  {
    hide Revoke, Regranted, CoversOld, GrantsIn, RecordIn, StoredIn, KeepsWithRoom, RegisterStep, PinStep, Lost, WithIds, WithGrants, WithoutGrant, ToStore;
    var t, was := TableIn(w.tables, call.key), GrantsIn(w.records, call.key);
    SameTableHasRoom(t);
    match call
    case Granted(_, capability, patterns, now, _) =>
      ReplaceEvictsWhenFull(t, was, capability, GrantRecord(w.nextId, patterns, now), CoversOld(policy, was, capability, patterns));
    case GrantRevoked(_, id, _) => RevokeEvictsWhenFull(t, id);
    case CapabilityRevoked(_, capability, _) =>
      if capability in was {
        RevokeEvictsWhenFull(t, was[capability].id);
      }
  }

  /** A call that leaves room in the queue has lost no tombstone. */
  lemma LosingNeedsAFullQueue(policy: Policy, w: World, call: Call, w': World, g: GrantId)
    requires Step(policy, w, call, w') && LosesTombstone(w, w', call.key, g)
    ensures |TableIn(w'.tables, call.key).tombstones| >= REVOKED_GRANT_MEMORY
  {
    hide Step, TableIn, RestoreStep;
    if call.Registered? || call.Pinned? {
      RestoringCall(policy, w, call, w');
      RestoreEvictsWhenFull(policy, w, call.key, RestoredRecord(policy, w, call), call.manifest, Restores(policy, w, call.key), w'.(stored := w.stored, pinned := w.pinned));
    } else if call.Granted? || call.GrantRevoked? || call.CapabilityRevoked? {
      GrantsEvictWhenFull(policy, w, call, w');
    } else if call.RecordForgotten? {
      ForgetRecords(policy, w, call, w');
    } else {
      TableRecords(policy, w, call, w');
    }
  }

  // ---------------------------------------------------------------- scripts

  /** A stored script has had a live grant all through a run exactly if every restore brought `web.embed` back where a script was stored. */
  lemma {:induction false} ScriptImpliesGrant(policy: Policy, ws: seq<World>, calls: seq<Call>, n: nat, key: Origin)
    requires Run(policy, ws, calls) && n < |ws|
    ensures (forall i :: 0 <= i <= n ==> ScriptOk(ws[i], key))
       <==> (forall i :: 0 <= i < n && calls[i].key == key ==> KeepsScript(policy, ws[i], calls[i]))
  {
    hide Step, KeepsScript;
    if n > 0 {
      var m := n - 1;
      ScriptImpliesGrant(policy, ws, calls, m, key);
      RunKeepsOk(policy, ws, calls, m);
      StepKeepsOk(policy, ws[m], calls[m], ws[n]);
      if calls[m].key != key {
        SameElsewhere(ws[m].records, ws[n].records, calls[m].key, key);
        SameElsewhere(ws[m].scripts, ws[n].scripts, calls[m].key, key);
      }
    }
  }

  // ---------------------------------------------------------------- storage, the person, and the version floor

  /** What storage holds for an origin is just what is live for it. */
  ghost predicate InStep(w: World, key: Origin) {
    StoredIn(w.stored, key).grants == ToStore(GrantsIn(w.records, key))
  }

  ghost predicate Writes(call: Call) {
    match call
    case Granted(_, _, _, _, writeFails) => !writeFails
    case GrantRevoked(_, _, writeFails) => !writeFails
    case CapabilityRevoked(_, _, writeFails) => !writeFails
    case RecordForgotten(_, deleted) => deleted < 3 || deleted >= ALL_DELETED
    case _ => true
  }

  lemma GrantsStayInStep(policy: Policy, w: World, call: Call, w': World)
    requires Step(policy, w, call, w') && policy.persistable(call.key) && Writes(call)
    requires call.Granted? || call.GrantRevoked? || call.CapabilityRevoked?
    ensures InStep(w, call.key) || call.Granted? ==> InStep(w', call.key)
  {
    hide Regranted, Lost, Revoke, RevokeIn, RecordIn, RegisterStep, PinStep, CoversOld, RevokePersistedResult, WithIds;
    if call.CapabilityRevoked? {
      var was := GrantsIn(w.records, call.key);
      assert ToStore(was - {call.capability}) == ToStore(was) - {call.capability};
    } else if call.GrantRevoked? {
      WithoutGrantIsSmaller(GrantsIn(w.records, call.key), call.id);
    }
  }

  /** From a grant on, while the origin's writes succeed and nothing is restored for it, storage holds just what is live for it. */
  lemma {:induction false} WhatIsWrittenIsLive(policy: Policy, ws: seq<World>, calls: seq<Call>, m: nat, n: nat, key: Origin)
    requires Run(policy, ws, calls) && m < n < |ws| && policy.persistable(key) && calls[m].Granted? && calls[m].key == key
    requires forall i :: m <= i < n && calls[i].key == key ==> Writes(calls[i]) && !calls[i].Registered? && !calls[i].Pinned?
    ensures InStep(ws[n], key)
    decreases n - m
  {
    hide Step, InStep;
    var k := n - 1;
    if m < k {
      WhatIsWrittenIsLive(policy, ws, calls, m, k, key);
    }
    var call := calls[k];
    if call.key != key {
      RunKeepsOk(policy, ws, calls, k);
      StepKeepsOk(policy, ws[k], call, ws[n]);
      InStepElsewhere(ws[k], ws[n], call.key, key);
    } else if call.Granted? || call.GrantRevoked? || call.CapabilityRevoked? {
      GrantsStayInStep(policy, ws[k], call, ws[n]);
    } else {
      RecordsStay(policy, ws[k], call, ws[n]);
    }
  }

  lemma InStepElsewhere(w: World, w': World, key: Origin, other: Origin)
    requires OthersKept(w, w', key) && other != key && InStep(w, other)
    ensures InStep(w', other)
  {
  }

  /** A call that may change an origin's grants without `grantsChanged` being told: a restore, or a revocation that cannot be written. */
  ghost predicate Untold(w: World, call: Call) {
    call.Registered? || call.Pinned?
    || (call.CapabilityRevoked? && call.writeFails && call.capability in StoredIn(w.stored, call.key).grants)
  }

  lemma ChangeIsTold(policy: Policy, w: World, call: Call, w': World)
    requires Step(policy, w, call, w')
    ensures w'.changes == w.changes || w'.changes == w.changes + [call.key]
    ensures GrantsIn(w'.records, call.key) != GrantsIn(w.records, call.key) && !Untold(w, call) ==> w'.changes == w.changes + [call.key]
  {
    if call.CapabilityRevoked? {
      hide RegisterStep, PinStep, GrantStep, RevokeStep, RevokePersistedStep;
      RevocationIsTold(w, call.key, call.capability, call.writeFails);
    } else {
      hide Step, GrantsIn;
      OtherChangesAreTold(policy, w, call, w');
    }
  }

  lemma OtherChangesAreTold(policy: Policy, w: World, call: Call, w': World)
    requires Step(policy, w, call, w') && !call.CapabilityRevoked?
    ensures w'.changes == w.changes || w'.changes == w.changes + [call.key]
    ensures GrantsIn(w'.records, call.key) != GrantsIn(w.records, call.key) ==> call.Registered? || call.Pinned? || w'.changes == w.changes + [call.key]
  {
    if call.Registered? || call.Pinned? {
      RestoringCall(policy, w, call, w');
      hide Step, Hydrated, DistinctIds, RevokeEach, Elements, SupersededBy, Lost, WithIds, RestoredRecord;
    } else if call.Granted? || call.GrantRevoked? {
      hide RegisterStep, PinStep, RevokePersistedStep, Regranted, Revoke, WithGrants, WithoutGrant, RecordIn, ToStore, StoredIn, Lost, WithIds;
    } else {
      RecordsStay(policy, w, call, w');
    }
  }

  lemma RecordsStay(policy: Policy, w: World, call: Call, w': World)
    requires Step(policy, w, call, w') && !call.Granted? && !call.GrantRevoked? && !call.CapabilityRevoked? && !call.Registered? && !call.Pinned?
    ensures w'.changes == w.changes || w'.changes == w.changes + [call.key]
    ensures GrantsIn(w'.records, call.key) != GrantsIn(w.records, call.key) ==> w'.changes == w.changes + [call.key]
    ensures InStep(w, call.key) && Writes(call) ==> InStep(w', call.key)
  {
    if call.RecordForgotten? {
      hide RegisterStep, PinStep, RevokePersistedStep, GrantStep, RevokeStep, PickStep, PickOpenedStep, RevokePickStep, TableStep, DroppedWithRecord, WithIds;
    } else {
      hide InStep, GrantsIn;
      LedgerStays(policy, w, call, w');
    }
  }

  const NOTHING := Resource(File, None, 0)

  ghost predicate SameLedger(w: World, w': World, key: Origin) {
    w'.records == w.records && w'.stored == w.stored && (w'.changes == w.changes || w'.changes == w.changes + [key])
  }

  lemma LedgerStays(policy: Policy, w: World, call: Call, w': World)
    requires Step(policy, w, call, w') && !call.Granted? && !call.GrantRevoked? && !call.CapabilityRevoked? && !call.Registered? && !call.Pinned?
    requires !call.RecordForgotten?
    ensures SameLedger(w, w', call.key)
  {
    TableStepsLeaveLedger(w, call.key);
    hide RegisterStep, PinStep, RevokePersistedStep, GrantStep, RevokeStep, BeginStep, FinishStep, DeriveStep, ReleaseStep, DropStep,
      PickStep, PickOpenedStep, PickFailedStep, RevokePickStep, ScriptStep, ForgetRecordStep, SameLedger, GrantsIn;
    match call
    case Began(key, capability) => HandlesLeaveLedger(w, key, capability, 0, NOTHING, 0, 0);
    case Finished(key, op, got) => HandlesLeaveLedger(w, key, WebEmbed, op, got, 0, 0);
    case Derived(key, parent, allowance) => HandlesLeaveLedger(w, key, WebEmbed, 0, NOTHING, parent, allowance);
    case Released(key, id) => HandlesLeaveLedger(w, key, WebEmbed, 0, NOTHING, id, 0);
    case Picked(key) => PicksLeaveLedger(w, key, 0, "");
    case PickOpened(key, pick) => PicksLeaveLedger(w, key, pick, "");
    case PickFailed(key, pick) => PicksLeaveLedger(w, key, pick, "");
    case PickRevoked(key, pick) => PicksLeaveLedger(w, key, pick, "");
    case ScriptSet(key, source) => PicksLeaveLedger(w, key, 0, source);
    case _ =>
  }

  lemma TableStepsLeaveLedger(w: World, key: Origin)
    ensures SameLedger(w, w, key) && SameLedger(w, DropStep(w, key), key)
    ensures forall t, next :: SameLedger(w, TableStep(w, key, t, next), key)
  {
  }

  lemma HandlesLeaveLedger(w: World, key: Origin, capability: Capability, op: OperationId, got: Resource, id: HandleId, allowance: nat)
    ensures SameLedger(w, BeginStep(w, key, capability), key) && SameLedger(w, FinishStep(w, key, op, got), key)
    ensures SameLedger(w, DeriveStep(w, key, id, allowance), key) && SameLedger(w, ReleaseStep(w, key, id), key)
  {
    TableStepsLeaveLedger(w, key);
    hide SameLedger, TableStep, Begin, Acquire, Derive, Release, TableIn, GrantsIn;
  }

  lemma PicksLeaveLedger(w: World, key: Origin, pick: PickId, source: string)
    ensures SameLedger(w, PickStep(w, key), key) && SameLedger(w, PickOpenedStep(w, key, pick), key) && SameLedger(w, PickFailedStep(w, pick), key)
    ensures SameLedger(w, RevokePickStep(w, key, pick), key) && SameLedger(w, ScriptStep(w, key, source), key)
  {
    hide OpenPicked, RevokePick, TableIn, IdsIn, WithIds, OvertakenBy, GrantsIn;
  }

  lemma RevocationIsTold(w: World, key: Origin, capability: Capability, writeFails: bool)
    ensures var w' := RevokePersistedStep(w, key, capability, writeFails);
      && (w'.changes == w.changes || w'.changes == w.changes + [key])
      && (GrantsIn(w'.records, key) != GrantsIn(w.records, key) && !(capability in StoredIn(w.stored, key).grants && writeFails)
          ==> w'.changes == w.changes + [key])
  {
    hide RevokeIn, Lost, StoredIn;
    var was := GrantsIn(w.records, key);
    assert capability !in was ==> was - {capability} == was;
  }

  /** Over any stretch of a run without such calls for an origin, whoever watches was told of it if its grants changed. */
  lemma {:induction false} ChangesAreTold(policy: Policy, ws: seq<World>, calls: seq<Call>, m: nat, n: nat, key: Origin)
    requires Run(policy, ws, calls) && m <= n < |ws|
    ensures ws[m].changes <= ws[n].changes
    ensures (forall i :: m <= i < n && calls[i].key == key ==> !Untold(ws[i], calls[i])) && GrantsIn(ws[n].records, key) != GrantsIn(ws[m].records, key)
            ==> key in ws[n].changes[|ws[m].changes|..]
    decreases n - m
  {
    hide Step, Untold;
    if m < n {
      var k := n - 1;
      ChangesAreTold(policy, ws, calls, m, k, key);
      RunKeepsOk(policy, ws, calls, k);
      StepKeepsOk(policy, ws[k], calls[k], ws[n]);
      ChangeIsTold(policy, ws[k], calls[k], ws[n]);
      TellingGrows(ws[m].changes, ws[k].changes, ws[n].changes, calls[k].key, key);
      if calls[k].key != key {
        SameElsewhere(ws[k].records, ws[n].records, calls[k].key, key);
      }
    }
  }

  lemma TellingGrows(a: seq<Origin>, b: seq<Origin>, c: seq<Origin>, key: Origin, other: Origin)
    requires a <= b && (c == b || c == b + [key])
    ensures a <= c
    ensures other in b[|a|..] ==> other in c[|a|..]
    ensures c == b + [key] ==> key in c[|a|..]
  {
    if c == b + [key] {
      assert c[|a|..] == b[|a|..] + [key];
    }
  }

  /** Registering raises an origin's version floor to the app's version where that is newer, and nothing else moves it while the record stands. */
  lemma FloorOnlyRises(policy: Policy, w: World, call: Call, w': World)
    requires Step(policy, w, call, w') && call.key in w.records && call.key in w'.records
    ensures w'.records[call.key].floor
         == if call.Registered? && policy.newer(call.manifest.version, w.records[call.key].floor) then call.manifest.version else w.records[call.key].floor
  {
    hide GrantStep, RevokeStep, RevokePersistedStep, RestoreStep, PickStep, PickOpenedStep, RevokePickStep, TableStep, ScriptStep, ForgetRecordStep, StoredIn, GrantsIn;
    match call
    case Registered(key, manifest, _) =>
      RestoreSetsFloor(policy, w, key, RegisteredRecord(policy, w, key, manifest), manifest, Restores(policy, w, key), w'.(stored := w.stored));
    case Pinned(key, manifest) =>
      RestoreSetsFloor(policy, w, key, RecordIn(policy, w.records, w.stored, key), manifest, Restores(policy, w, key), w'.(pinned := w.pinned));
    case _ => FloorStays(policy, w, call, w');
  }

  /** Newer than newer is newer, and no version is newer than itself, as `Versions.NewerIsAnOrder` shows of semantic versions. */
  ghost predicate NewerIsAnOrder(policy: Policy) {
    && (forall a :: !policy.newer(a, a))
    && (forall a, b, c :: policy.newer(a, b) && policy.newer(b, c) ==> policy.newer(a, c))
  }

  ghost predicate RecordStands(ws: seq<World>, m: nat, n: nat, key: Origin)
    requires m <= n < |ws|
  {
    forall i :: m <= i <= n ==> key in ws[i].records
  }

  /**
   While an origin's record stands its floor never falls: it is the one it was or a newer one, and no version registered meanwhile
   is newer than it.
   */
  lemma {:induction false} FloorNeverFalls(policy: Policy, ws: seq<World>, calls: seq<Call>, m: nat, n: nat, key: Origin)
    requires Run(policy, ws, calls) && m <= n < |ws| && NewerIsAnOrder(policy) && RecordStands(ws, m, n, key)
    ensures ws[n].records[key].floor == ws[m].records[key].floor || policy.newer(ws[n].records[key].floor, ws[m].records[key].floor)
    ensures forall i :: m <= i < n && calls[i].key == key && calls[i].Registered? ==> !policy.newer(calls[i].manifest.version, ws[n].records[key].floor)
    decreases n - m
  {
    hide Step;
    if m < n {
      var k := n - 1;
      FloorNeverFalls(policy, ws, calls, m, k, key);
      RunKeepsOk(policy, ws, calls, k);
      StepKeepsOk(policy, ws[k], calls[k], ws[n]);
      if calls[k].key == key {
        FloorOnlyRises(policy, ws[k], calls[k], ws[n]);
      } else {
        SameElsewhere(ws[k].records, ws[n].records, calls[k].key, key);
      }
    }
  }

  lemma RestoreSetsFloor(policy: Policy, w: World, key: Origin, record: Record, manifest: Manifest, restores: bool, w': World)
    requires RestoreStep(policy, w, key, record, manifest, restores, w')
    ensures key in w'.records && w'.records[key].floor == record.floor
  {
    hide RevokeEach, Hydrated, DistinctIds, Elements, SupersededBy;
  }

  lemma FloorStays(policy: Policy, w: World, call: Call, w': World)
    requires Step(policy, w, call, w') && !call.Registered? && !call.Pinned? && call.key in w.records && call.key in w'.records
    ensures w'.records[call.key].floor == w.records[call.key].floor
  {
    hide Revoke, RevokeIn, RevokePick, Begin, Acquire, Derive, Release, OpenPicked, Regranted, Lost, ToStore, WithoutGrant, RegisterStep, PinStep, StoredIn;
  }
}
