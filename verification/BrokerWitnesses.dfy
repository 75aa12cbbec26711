/** Runs that show where the broker's promises end: each exception the theorems about runs name does happen. */
module BrokerWitnesses {
  import opened Results
  import opened HandleTable
  import opened GrantLedger
  import opened BrokerState
  import opened BrokerRuns

  /** Some run ends with the broker holding `w`. */
  ghost predicate Reached(policy: Policy, w: World) {
    exists ws: seq<World>, calls: seq<Call> :: Run(policy, ws, calls) && ws[|calls|] == w
  }

  lemma StartIsReached(policy: Policy, stored: map<Origin, Stored>)
    ensures Reached(policy, Start(stored))
  {
    var ws, calls: seq<Call> := [Start(stored)], [];
    assert Run(policy, ws, calls) && ws[|calls|] == Start(stored);
  }

  lemma StepIsReached(policy: Policy, w: World, call: Call, w': World)
    requires Reached(policy, w) && Step(policy, w, call, w')
    ensures Reached(policy, w')
  {
    hide Step;
    var ws: seq<World>, calls: seq<Call> :| Run(policy, ws, calls) && ws[|calls|] == w;
    var ws', calls' := ws + [w'], calls + [call];
    assert ws'[0] == ws[0];
    forall i | 0 <= i < |calls'|
      ensures Step(policy, ws'[i], calls'[i], ws'[i + 1])
    {
      if i < |calls| {
        assert Step(policy, ws[i], calls[i], ws[i + 1]);
      }
    }
    assert Run(policy, ws', calls') && ws'[|calls'|] == w';
  }

  // ---------------------------------------------------------------- a handle under a dead grant

  /**
   From a start: a grant, work begun under it, a replacement that covers it and so takes the work over, and one that does
   not cover that. The grants are 0, 2 and 3, the work is 1.
   */
  ghost function TwiceReplaced(policy: Policy, key: Origin, c: Capability, p0: seq<Pattern>, p1: seq<Pattern>, p2: seq<Pattern>): World {
    var w1 := GrantStep(policy, Start(map[]), key, c, p0, 0, false);
    var w2 := BeginStep(w1, key, c);
    GrantStep(policy, GrantStep(policy, w2, key, c, p1, 0, false), key, c, p2, 0, false)
  }

  /** Then another capability granted and revoked `n` times. */
  ghost function GrantedAndRevoked(policy: Policy, w: World, key: Origin, d: Capability, n: nat): World {
    if n == 0 then w
    else
      var was := GrantedAndRevoked(policy, w, key, d, n - 1);
      RevokeStep(policy, GrantStep(policy, was, key, d, [], 0, false), key, was.nextId, false)
  }

  /** The ids those `n` grants get. */
  function LaterIds(n: nat): (ids: seq<GrantId>)
    ensures |ids| == n && forall i :: 0 <= i < n ==> ids[i] == i + 4
  {
    seq(n, i => i + 4)
  }

  /** The work still in flight answers to grant 2, which is dead; its tombstone is followed by those of the `n` grants. */
  ghost predicate AwaitsDeadGrant(w: World, key: Origin, c: Capability, p2: seq<Pattern>, n: nat) {
    && GrantsIn(w.records, key) == map[c := GrantRecord(3, p2, 0)]
    && TableIn(w.tables, key) == Table(map[], map[1 := 0], RememberEach([2], LaterIds(n)), map[0 := 2])
    && w.nextId == n + 4
  }

  lemma TwiceReplacedIsReached(policy: Policy, key: Origin, c: Capability, p0: seq<Pattern>, p1: seq<Pattern>, p2: seq<Pattern>)
    ensures Reached(policy, TwiceReplaced(policy, key, c, p0, p1, p2))
  {
    hide Reached, GrantStep, BeginStep;
    var w0 := Start(map[]);
    StartIsReached(policy, map[]);
    var w1 := GrantStep(policy, w0, key, c, p0, 0, false);
    StepIsReached(policy, w0, Granted(key, c, p0, 0, false), w1);
    var w2 := BeginStep(w1, key, c);
    StepIsReached(policy, w1, Began(key, c), w2);
    var w3 := GrantStep(policy, w2, key, c, p1, 0, false);
    StepIsReached(policy, w2, Granted(key, c, p1, 0, false), w3);
    StepIsReached(policy, w3, Granted(key, c, p2, 0, false), GrantStep(policy, w3, key, c, p2, 0, false));
  }

  /** What a grant does to the parts of the state these runs look at. */
  lemma GrantedParts(policy: Policy, w: World, key: Origin, c: Capability, patterns: seq<Pattern>)
    ensures var w', was := GrantStep(policy, w, key, c, patterns, 0, false), GrantsIn(w.records, key);
      var g := GrantRecord(w.nextId, patterns, 0);
      && GrantsIn(w'.records, key) == was[c := g] && w'.nextId == w.nextId + 1
      && TableIn(w'.tables, key) == Regranted(TableIn(w.tables, key), was, c, g, CoversOld(policy, was, c, patterns))
  {
    hide Lost, ToStore, Regranted, CoversOld, RecordIn, StoredIn, WithIds;
  }

  lemma TwiceReplacedAwaits(policy: Policy, key: Origin, c: Capability, p0: seq<Pattern>, p1: seq<Pattern>, p2: seq<Pattern>)
    requires policy.coversAll(c, p1, p0) && !policy.coversAll(c, p2, p1)
    ensures AwaitsDeadGrant(TwiceReplaced(policy, key, c, p0, p1, p2), key, c, p2, 0)
  {
    hide GrantStep, CloseTrees, Uncovered;
    var w1 := GrantStep(policy, Start(map[]), key, c, p0, 0, false);
    GrantedParts(policy, Start(map[]), key, c, p0);
    var w2 := BeginStep(w1, key, c);
    GrantedParts(policy, w2, key, c, p1);
    GrantedParts(policy, GrantStep(policy, w2, key, c, p1, 0, false), key, c, p2);
    ReplacedTables(p1, p2);
    assert LaterIds(0) == [];
  }

  /** With one acquisition in flight under 0, grant 2 covers it and takes it over, and grant 3 leaves 2 dead and the work be. */
  lemma ReplacedTables(p1: seq<Pattern>, p2: seq<Pattern>)
    ensures Replace(EMPTY.(pending := map[1 := 0]), 0, 2, p1, true) == Table(map[], map[1 := 0], [], map[0 := 2])
    ensures Replace(Table(map[], map[1 := 0], [], map[0 := 2]), 2, 3, p2, false) == Table(map[], map[1 := 0], [2], map[0 := 2])
  {
  }

  lemma {:induction false} RememberNone(memory: seq<GrantId>, n: nat)
    ensures RememberAll(memory, {}, n) == memory
  {
    if n > 0 {
      RememberNone(memory, n - 1);
    }
  }

  /** Revoking a grant nothing was done under is only remembered. */
  lemma RevokeUnused(t: Table, g: GrantId)
    requires t.handles == map[] && (forall op :: op in t.pending ==> t.pending[op] != g) && (forall a :: a in t.aliases ==> t.aliases[a] != g)
    ensures Revoke(t, g) == t.(tombstones := Remember(t.tombstones, g))
  {
    assert AliasesOf(t, g) == {};
    RememberNone(Remember(t.tombstones, g), g);
    assert Revoke(t, g).pending == t.pending;
    assert Revoke(t, g).aliases == t.aliases;
  }

  /** A grant of a capability not held yet leaves the table as it was; revoking it leaves the ledger as it was before. */
  lemma GrantedThenRevoked(policy: Policy, w: World, key: Origin, d: Capability)
    requires d !in GrantsIn(w.records, key) && forall c :: c in GrantsIn(w.records, key) ==> GrantsIn(w.records, key)[c].id < w.nextId
    ensures var granted := GrantStep(policy, w, key, d, [], 0, false);
      var w' := RevokeStep(policy, granted, key, w.nextId, false);
      && GrantsIn(w'.records, key) == GrantsIn(w.records, key) && w'.nextId == w.nextId + 1
      && TableIn(w'.tables, key) == Revoke(TableIn(w.tables, key), w.nextId)
  {
    hide Lost, ToStore, Revoke, RecordIn, StoredIn, WithIds, RevokeWrites, Holds;
    var was := GrantsIn(w.records, key);
    assert WithoutGrant(was[d := GrantRecord(w.nextId, [], 0)], w.nextId) == was;
  }

  lemma {:induction false} GrantedAndRevokedAwaits(policy: Policy, w: World, key: Origin, c: Capability, d: Capability, p2: seq<Pattern>, n: nat)
    requires Reached(policy, w) && AwaitsDeadGrant(w, key, c, p2, 0) && c != d
    ensures var w' := GrantedAndRevoked(policy, w, key, d, n); Reached(policy, w') && AwaitsDeadGrant(w', key, c, p2, n)
  {
    hide Run, Reached, GrantStep, RevokeStep, Revoke, RememberEach, Remember;
    if n > 0 {
      GrantedAndRevokedAwaits(policy, w, key, c, d, p2, n - 1);
      var was := GrantedAndRevoked(policy, w, key, d, n - 1);
      var id, granted := was.nextId, GrantStep(policy, was, key, d, [], 0, false);
      StepIsReached(policy, was, Granted(key, d, [], 0, false), granted);
      StepIsReached(policy, granted, GrantRevoked(key, id, false), RevokeStep(policy, granted, key, id, false));
      GrantedThenRevoked(policy, was, key, d);
      RevokeUnused(TableIn(was.tables, key), id);
      assert LaterIds(n)[..n - 1] == LaterIds(n - 1);
      RememberEachOneMore([2], LaterIds(n));
    }
  }

  lemma RememberEachOneMore(memory: seq<GrantId>, later: seq<GrantId>)
    requires later != []
    ensures RememberEach(memory, later) == Remember(RememberEach(memory, later[..|later| - 1]), later[|later| - 1])
  {
  }

  lemma FinishedUnderDeadGrant(w: World, key: Origin, c: Capability, p2: seq<Pattern>, n: nat, got: Resource)
    requires AwaitsDeadGrant(w, key, c, p2, n) && (BudgetOf(got.kind) == Sockets ==> got.allowance > 0)
    ensures var w' := FinishStep(w, key, 1, got);
      && !Holds(GrantsIn(w'.records, key), 2)
      && TableIn(w'.tables, key).handles == if n >= REVOKED_GRANT_MEMORY then map[w.nextId := Handle(got.kind, ByGrant(2), None, got.covered)] else map[]
  {
    hide RememberEach;
    assert [] + [2] == [2];
    TombstoneHoldsUntilEvicted([], 2, LaterIds(n), TableIn(w.tables, key), 1);
  }

  /**
   Work whose grant was replaced by one that covered it, and that again by one that does not, gets its handle all the same,
   under the dead grant in between, exactly if 576 grants or more were revoked before it is done.
   */
  lemma DeadGrantGetsAHandle(policy: Policy, key: Origin, c: Capability, d: Capability, p0: seq<Pattern>, p1: seq<Pattern>, p2: seq<Pattern>, n: nat, got: Resource)
    requires policy.coversAll(c, p1, p0) && !policy.coversAll(c, p2, p1) && c != d && (BudgetOf(got.kind) == Sockets ==> got.allowance > 0)
    ensures var w := GrantedAndRevoked(policy, TwiceReplaced(policy, key, c, p0, p1, p2), key, d, n);
      var w' := FinishStep(w, key, 1, got);
      && Reached(policy, w') && !Holds(GrantsIn(w'.records, key), 2)
      && TableIn(w'.tables, key).handles == if n >= REVOKED_GRANT_MEMORY then map[w.nextId := Handle(got.kind, ByGrant(2), None, got.covered)] else map[]
  {
    hide Reached, GrantedAndRevoked, TwiceReplaced, FinishStep, AwaitsDeadGrant, Holds;
    TwiceReplacedIsReached(policy, key, c, p0, p1, p2);
    TwiceReplacedAwaits(policy, key, c, p0, p1, p2);
    GrantedAndRevokedAwaits(policy, TwiceReplaced(policy, key, c, p0, p1, p2), key, c, d, p2, n);
    var w := GrantedAndRevoked(policy, TwiceReplaced(policy, key, c, p0, p1, p2), key, d, n);
    StepIsReached(policy, w, Finished(key, 1, got), FinishStep(w, key, 1, got));
    FinishedUnderDeadGrant(w, key, c, p2, n, got);
  }

  // ---------------------------------------------------------------- a handle under no pick

  lemma PicksAreSteps(policy: Policy, w: World, key: Origin, pick: PickId)
    ensures Step(policy, w, Picked(key), PickStep(w, key)) && Step(policy, w, PickRevoked(key, pick), RevokePickStep(w, key, pick))
    ensures pick in w.opening && w.opening[pick] == key ==> Step(policy, w, PickOpened(key, pick), PickOpenedStep(w, key, pick))
  {
    hide PickStep, RevokePickStep, PickOpenedStep;
  }

  /** A file is picked, and the pick taken back before the file is open. */
  ghost function PickedAndTakenBack(w: World, key: Origin): World {
    PickOpenedStep(RevokePickStep(PickStep(w, key), key, w.nextId), key, w.nextId)
  }

  lemma PickedAndTakenBackIsReached(policy: Policy, w: World, key: Origin)
    requires Reached(policy, w)
    ensures Reached(policy, PickedAndTakenBack(w, key))
  {
    var picked := PickStep(w, key);
    var revoked := RevokePickStep(picked, key, w.nextId);
    assert revoked.opening[w.nextId] == key;
    hide Step, Reached, PickStep, RevokePickStep, PickOpenedStep;
    PicksAreSteps(policy, w, key, w.nextId);
    PicksAreSteps(policy, picked, key, w.nextId);
    PicksAreSteps(policy, revoked, key, w.nextId);
    StepIsReached(policy, w, Picked(key), picked);
    StepIsReached(policy, picked, PickRevoked(key, w.nextId), revoked);
    StepIsReached(policy, revoked, PickOpened(key, w.nextId), PickOpenedStep(revoked, key, w.nextId));
  }

  /** From wherever a run has got to with room for a file: the pick gets its handle all the same, and nobody holds the pick. */
  lemma OvertakenPickIsReached(policy: Policy, w: World, key: Origin)
    requires Reached(policy, w) && HasRoom(TableIn(w.tables, key), File, 0)
    ensures var w' := PickedAndTakenBack(w, key);
      && Reached(policy, w') && w.nextId + 1 in TableIn(w'.tables, key).handles
      && TableIn(w'.tables, key).handles[w.nextId + 1].auth == ByPick(w.nextId) && w.nextId !in IdsIn(w'.picks, key)
  {
    hide Reached, TableIn, PickStep, RevokePickStep, PickOpenedStep, HasRoom, IdsIn;
    PickedAndTakenBackIsReached(policy, w, key);
    OvertakenPickStillOpens(w, key);
  }

  // ---------------------------------------------------------------- a script without a grant

  /** What a restore that brings nothing back leaves, the grants in `order` being revoked. */
  ghost function WithNothingRestored(w: World, key: Origin, record: Record, order: seq<GrantId>): World {
    var t, t' := TableIn(w.tables, key), RevokeEach(TableIn(w.tables, key), order);
    w.(records := w.records[key := record.(grants := map[])], tables := w.tables[key := t'], forgotten := WithIds(w.forgotten, key, Lost(t, t')))
  }

  lemma NothingRestored(policy: Policy, w: World, key: Origin, record: Record, manifest: Manifest, order: seq<GrantId>)
    requires forall c :: c in StoredIn(w.stored, key).grants ==> policy.decide(manifest, c, StoredIn(w.stored, key).grants[c].patterns).None?
    requires Elements(order) == LiveIds(GrantsIn(w.records, key))
    ensures Restored(policy, w, key, record, manifest, WithNothingRestored(w, key, record, order))
  {
    hide RevokeEach, Lost, WithIds, Elements, SamePatterns;
    var was, held := GrantsIn(w.records, key), StoredIn(w.stored, key).grants;
    assert SupersededBy(policy, manifest, held, was) == LiveIds(was);
    assert GrantsIn(WithNothingRestored(w, key, record, order).records, key) == map[];
  }

  /** An app that is not known yet registers: nothing of it is stored, so nothing is restored. */
  ghost function RegisteredAfresh(policy: Policy, w: World, key: Origin, manifest: Manifest, order: seq<GrantId>): World {
    WithNothingRestored(w, key, RegisteredRecord(policy, w, key, manifest), order).(stored := RegisteredStored(policy, w, key, manifest, false))
  }

  lemma RegisteringIsReached(policy: Policy, w: World, key: Origin, manifest: Manifest, order: seq<GrantId>)
    requires Reached(policy, w) && Restores(policy, w, key) && Elements(order) == LiveIds(GrantsIn(w.records, key))
    requires forall c :: c in StoredIn(w.stored, key).grants ==> policy.decide(manifest, c, StoredIn(w.stored, key).grants[c].patterns).None?
    ensures Reached(policy, RegisteredAfresh(policy, w, key, manifest, order))
  {
    hide Reached, Restored, Restores, RegisteredRecord, RegisteredStored, RevokeEach, Lost, WithIds, Elements, LiveIds;
    var w' := RegisteredAfresh(policy, w, key, manifest, order);
    NothingRestored(policy, w, key, RegisteredRecord(policy, w, key, manifest), manifest, order);
    assert w'.(stored := w.stored) == WithNothingRestored(w, key, RegisteredRecord(policy, w, key, manifest), order);
    StepIsReached(policy, w, Registered(key, manifest, false), w');
  }

  /** An app launched from its pin, granted `web.embed`, written out or not, with a script stored. */
  ghost function PinnedAfresh(policy: Policy, key: Origin, manifest: Manifest): World {
    WithNothingRestored(Start(map[]), key, RecordIn(policy, map[], map[], key), []).(pinned := map[key := manifest])
  }

  ghost function WithScript(policy: Policy, key: Origin, manifest: Manifest, patterns: seq<Pattern>, writeFails: bool, source: string): World {
    ScriptStep(GrantStep(policy, PinnedAfresh(policy, key, manifest), key, WebEmbed, patterns, 0, writeFails), key, source)
  }

  lemma PinnedAfreshIsReached(policy: Policy, key: Origin, manifest: Manifest)
    requires policy.persistable(key)
    ensures var w := PinnedAfresh(policy, key, manifest);
      Reached(policy, w) && GrantsIn(w.records, key) == map[] && StoredIn(w.stored, key) == NOTHING_STORED && Restores(policy, w, key) && w.nextId == 0
  {
    hide Reached, Restored, RevokeEach, Lost, WithIds;
    var w0, w := Start(map[]), PinnedAfresh(policy, key, manifest);
    StartIsReached(policy, map[]);
    NothingRestored(policy, w0, key, RecordIn(policy, map[], map[], key), manifest, []);
    assert w.(pinned := w0.pinned) == WithNothingRestored(w0, key, RecordIn(policy, map[], map[], key), []);
    StepIsReached(policy, w0, Pinned(key, manifest), w);
  }

  lemma WithScriptIsReached(policy: Policy, key: Origin, manifest: Manifest, patterns: seq<Pattern>, writeFails: bool, source: string)
    requires policy.persistable(key) && source != "" && ByteLength(source) <= EMBED_SCRIPT_BYTES
    ensures var w := WithScript(policy, key, manifest, patterns, writeFails, source);
      && Reached(policy, w) && Restores(policy, w, key) && key in w.scripts && w.scripts[key] == source
      && GrantsIn(w.records, key) == map[WebEmbed := GrantRecord(0, patterns, 0)]
      && StoredIn(w.stored, key).grants == if writeFails then map[] else map[WebEmbed := StoredGrant(patterns, 0)]
  {
    hide Reached, Lost, WithIds, Regranted;
    PinnedAfreshIsReached(policy, key, manifest);
    var w0 := PinnedAfresh(policy, key, manifest);
    hide PinnedAfresh;
    var w1 := GrantStep(policy, w0, key, WebEmbed, patterns, 0, writeFails);
    StepIsReached(policy, w0, Granted(key, WebEmbed, patterns, 0, writeFails), w1);
    StepIsReached(policy, w1, ScriptSet(key, source), ScriptStep(w1, key, source));
  }

  /**
   The app then registers, and its grant does not come back, because it was never written or its new manifest does not admit
   it. The stored script is left without a grant; the next grant of `web.embed` shows it.
   */
  lemma ScriptOutlivesItsGrant(policy: Policy, key: Origin, manifest: Manifest, manifest': Manifest, patterns: seq<Pattern>, patterns': seq<Pattern>, writeFails: bool, source: string)
    requires policy.persistable(key) && source != "" && ByteLength(source) <= EMBED_SCRIPT_BYTES && (writeFails || policy.decide(manifest', WebEmbed, patterns).None?)
    ensures var w := RegisteredAfresh(policy, WithScript(policy, key, manifest, patterns, writeFails, source), key, manifest', [0]);
      var w' := GrantStep(policy, w, key, WebEmbed, patterns', 0, false);
      && Reached(policy, w) && !ScriptOk(w, key) && ScriptIn(w.records, w.scripts, key) == None
      && Reached(policy, w') && ScriptIn(w'.records, w'.scripts, key) == Some(source)
  {
    WithScriptIsReached(policy, key, manifest, patterns, writeFails, source);
    var w0 := WithScript(policy, key, manifest, patterns, writeFails, source);
    assert Elements([0]) == LiveIds(GrantsIn(w0.records, key)) by {
      LiveIdIsLive(GrantsIn(w0.records, key), WebEmbed);
    }
    hide Reached, WithScript, RevokeEach, Lost, WithIds, RegisteredRecord, RegisteredStored, Regranted;
    RegisteringIsReached(policy, w0, key, manifest', [0]);
    var w := RegisteredAfresh(policy, w0, key, manifest', [0]);
    StepIsReached(policy, w, Granted(key, WebEmbed, patterns', 0, false), GrantStep(policy, w, key, WebEmbed, patterns', 0, false));
  }

  // ---------------------------------------------------------------- a failed forget that changes what is stored

  /** An app registers, and forgetting it deletes the stored floor and then fails: the floor in memory stands, the one stored is gone. */
  lemma FloorForgottenInStorageOnly(policy: Policy, key: Origin, manifest: Manifest)
    requires policy.persistable(key) && policy.newer(manifest.version, NO_VERSION)
    ensures var w := RegisteredAfresh(policy, Start(map[]), key, manifest, []);
      var w' := ForgetRecordStep(w, key, 1);
      && Reached(policy, w) && StoredIn(w.stored, key).floor == Some(manifest.version)
      && Reached(policy, w') && StoredIn(w'.stored, key).floor == None
      && key in w'.records && w'.records[key].floor == manifest.version
  {
    hide Reached, RevokeEach, Lost, WithIds;
    StartIsReached(policy, map[]);
    assert Elements([]) == LiveIds(map[]);
    RegisteringIsReached(policy, Start(map[]), key, manifest, []);
    var w := RegisteredAfresh(policy, Start(map[]), key, manifest, []);
    StepIsReached(policy, w, RecordForgotten(key, 1), ForgetRecordStep(w, key, 1));
  }

  // ---------------------------------------------------------------- a grant that lands while its origin is forgotten

  /** An origin with no grants and no picks is being forgotten: its handles went, and before its record does a grant lands and work begins. */
  ghost function GrantedWhileForgotten(policy: Policy, key: Origin, c: Capability, patterns: seq<Pattern>): World {
    BeginStep(GrantStep(policy, DropStep(Start(map[]), key), key, c, patterns, 0, false), key, c)
  }

  lemma GrantedWhileForgottenIsReached(policy: Policy, key: Origin, c: Capability, patterns: seq<Pattern>)
    ensures Reached(policy, GrantedWhileForgotten(policy, key, c, patterns))
  {
    hide Reached, GrantStep, BeginStep, DropStep;
    var w0 := Start(map[]);
    StartIsReached(policy, map[]);
    var w1 := DropStep(w0, key);
    StepIsReached(policy, w0, Dropped(key), w1);
    var w2 := GrantStep(policy, w1, key, c, patterns, 0, false);
    StepIsReached(policy, w1, Granted(key, c, patterns, 0, false), w2);
    StepIsReached(policy, w2, Began(key, c), BeginStep(w2, key, c));
  }

  lemma GrantedWhileForgottenWaits(policy: Policy, key: Origin, c: Capability, patterns: seq<Pattern>)
    ensures var w := GrantedWhileForgotten(policy, key, c, patterns);
      && TableIn(w.tables, key) == EMPTY.(pending := map[1 := 0]) && GrantsIn(w.records, key) == map[c := GrantRecord(0, patterns, 0)] && w.nextId == 2
  {
    hide GrantStep;
    GrantedParts(policy, DropStep(Start(map[]), key), key, c, patterns);
  }

  /** The record goes with the grant in it, which nobody revokes: the work gets its handle, under a grant nobody holds. */
  lemma DroppedGrantGetsAHandle(policy: Policy, key: Origin, c: Capability, patterns: seq<Pattern>, got: Resource)
    requires BudgetOf(got.kind) == Sockets ==> got.allowance > 0
    ensures var w := ForgetRecordStep(GrantedWhileForgotten(policy, key, c, patterns), key, ALL_DELETED);
      var w' := FinishStep(w, key, 1, got);
      && Reached(policy, w') && GrantsIn(w'.records, key) == map[]
      && TableIn(w'.tables, key).handles == map[2 := Handle(got.kind, ByGrant(0), None, got.covered)]
  {
    var w0 := GrantedWhileForgotten(policy, key, c, patterns);
    GrantedWhileForgottenIsReached(policy, key, c, patterns);
    GrantedWhileForgottenWaits(policy, key, c, patterns);
    hide Reached, GrantedWhileForgotten, DroppedWithRecord, WithIds;
    var w := ForgetRecordStep(w0, key, ALL_DELETED);
    StepIsReached(policy, w0, RecordForgotten(key, ALL_DELETED), w);
    StepIsReached(policy, w, Finished(key, 1, got), FinishStep(w, key, 1, got));
  }
}
