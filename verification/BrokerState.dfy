/**
 The whole of what the broker holds and what each of its calls makes of it. One call is one step; a parameter says
 whether a write to storage fails, and a choice the runtime makes is left open. An origin is its isolation key.
 */
module BrokerState {
  import opened Results
  import opened HandleTable
  import opened GrantLedger

  datatype World = World(
    records: map<Origin, Record>,
    stored: map<Origin, Stored>,
    tables: map<Origin, Table>,
    picks: map<Origin, set<PickId>>,
    /** Picks whose file is still being opened, and for whom. */
    opening: map<PickId, Origin>,
    pinned: map<Origin, Manifest>,
    scripts: map<Origin, string>,
    /** The origins `grantsChanged` was told about, in order. */
    changes: seq<Origin>,
    nextId: nat,
    /** Each origin's grants whose tombstone its full queue dropped with work in flight that answers to them. */
    forgotten: map<Origin, set<GrantId>>,
    /** Each origin's picks that it revoked while their file was still being opened. */
    overtaken: map<Origin, set<PickId>>)

  ghost function Start(stored: map<Origin, Stored>): World {
    World(map[], stored, map[], map[], map[], map[], map[], [], 0, map[], map[])
  }

  function StoredIn(stored: map<Origin, Stored>, key: Origin): Stored {
    if key in stored then stored[key] else NOTHING_STORED
  }

  function TableIn(tables: map<Origin, Table>, key: Origin): Table {
    if key in tables then tables[key] else EMPTY
  }

  function IdsIn(ids: map<Origin, set<nat>>, key: Origin): set<nat> {
    if key in ids then ids[key] else {}
  }

  /** The sets with some ids added to one origin's. */
  function WithIds(ids: map<Origin, set<nat>>, key: Origin, more: set<nat>): map<Origin, set<nat>> {
    ids[key := IdsIn(ids, key) + more]
  }

  function GrantsIn(records: map<Origin, Record>, key: Origin): map<Capability, GrantRecord> {
    if key in records then records[key].grants else map[]
  }

  /** The record of an origin, a new one starting from the stored version floor. */
  function RecordIn(policy: Policy, records: map<Origin, Record>, stored: map<Origin, Stored>, key: Origin): Record {
    if key in records then records[key] else Record(None, map[], false, FloorOf(policy, StoredIn(stored, key), policy.persistable(key)))
  }

  function FloorOf(policy: Policy, held: Stored, persistable: bool): Version {
    if persistable && held.floor.Some? && (!policy.orderable(held.floor.value) || policy.newer(held.floor.value, NO_VERSION))
    then held.floor.value
    else NO_VERSION
  }

  /** What a shown page is given of the stored embed script: nothing without a live grant. */
  function ScriptIn(records: map<Origin, Record>, scripts: map<Origin, string>, key: Origin): Option<string> {
    if WebEmbed in GrantsIn(records, key) && key in scripts then Some(scripts[key]) else None
  }

  // ---------------------------------------------------------------- what holds between calls

  ghost predicate OpeningOk(opening: map<PickId, Origin>, picks: map<Origin, set<PickId>>, overtaken: map<Origin, set<PickId>>, next: nat) {
    forall p :: p in opening ==> p < next && (p in IdsIn(picks, opening[p]) || p in IdsIn(overtaken, opening[p]))
  }

  ghost predicate OriginHolds(w: World, key: Origin) {
    OriginOk(GrantsIn(w.records, key), TableIn(w.tables, key), IdsIn(w.picks, key), IdsIn(w.forgotten, key), IdsIn(w.overtaken, key), w.nextId)
  }

  /** Every handle stands under a live grant or pick of its own origin, but exactly those `forgotten` and `overtaken` name. */
  ghost predicate WorldOk(w: World) {
    && (forall key :: OriginHolds(w, key))
    && OpeningOk(w.opening, w.picks, w.overtaken, w.nextId)
  }

  lemma GrantIdsAreDistinct(w: World, key: Origin)
    requires WorldOk(w)
    ensures DistinctIds(GrantsIn(w.records, key), w.nextId)
  {
    assert OriginHolds(w, key);
  }

  /** A stored embed script has a live `web.embed` grant. */
  ghost predicate ScriptOk(w: World, key: Origin) {
    key in w.scripts ==> WebEmbed in GrantsIn(w.records, key)
  }

  /** Two maps agree on every key but one. */
  ghost predicate SameExcept<V>(m: map<Origin, V>, m': map<Origin, V>, key: Origin) {
    forall o :: o != key ==> (o in m <==> o in m') && (o in m ==> m[o] == m'[o])
  }

  /** No origin but `key` sees its grants, handles, picks, storage, manifest or script change. */
  ghost predicate OthersKept(w: World, w': World, key: Origin) {
    && SameExcept(w.records, w'.records, key) && SameExcept(w.stored, w'.stored, key) && SameExcept(w.tables, w'.tables, key)
    && SameExcept(w.picks, w'.picks, key) && SameExcept(w.pinned, w'.pinned, key) && SameExcept(w.scripts, w'.scripts, key)
    && SameExcept(w.forgotten, w'.forgotten, key) && SameExcept(w.overtaken, w'.overtaken, key)
  }

  lemma NothingChanged(w: World, key: Origin)
    ensures OthersKept(w, w, key)
  {
  }

  lemma OthersKeptTwice(w: World, w': World, w'': World, key: Origin)
    requires OthersKept(w, w', key) && OthersKept(w', w'', key)
    ensures OthersKept(w, w'', key)
  {
  }

  lemma SameElsewhere<V>(m: map<Origin, V>, m': map<Origin, V>, key: Origin, other: Origin)
    requires SameExcept(m, m', key) && other != key
    ensures other in m <==> other in m'
    ensures other in m ==> m[other] == m'[other]
  {
  }

  /** One origin's new state is sound and no other origin changed: so all of it is sound. */
  lemma LocalStepKeepsOk(w: World, w': World, key: Origin)
    requires WorldOk(w) && OthersKept(w, w', key)
    requires w.nextId <= w'.nextId
    requires OriginHolds(w', key) && OpeningOk(w'.opening, w'.picks, w'.overtaken, w'.nextId)
    ensures WorldOk(w')
  {
    hide OriginOk, SameExcept, OpeningOk;
    forall o
      ensures OriginHolds(w', o)
    {
      if o != key {
        SameElsewhere(w.records, w'.records, key, o);
        SameElsewhere(w.tables, w'.tables, key, o);
        SameElsewhere(w.picks, w'.picks, key, o);
        SameElsewhere(w.forgotten, w'.forgotten, key, o);
        SameElsewhere(w.overtaken, w'.overtaken, key, o);
        assert OriginHolds(w, o);
        OriginStaysOk(GrantsIn(w.records, o), TableIn(w.tables, o), IdsIn(w.picks, o), IdsIn(w.forgotten, o), IdsIn(w.overtaken, o), w.nextId, w'.nextId);
      }
    }
  }

  // ---------------------------------------------------------------- grant and revoke

  /** Whether the new patterns cover those of the grant they replace. */
  function CoversOld(policy: Policy, was: map<Capability, GrantRecord>, capability: Capability, patterns: seq<Pattern>): bool {
    capability in was && policy.coversAll(capability, patterns, was[capability].patterns)
  }

  /** The ledger takes the grant first; the handles it no longer covers go even when the write fails. */
  ghost function GrantStep(policy: Policy, w: World, key: Origin, capability: Capability, patterns: seq<Pattern>, now: nat, writeFails: bool): World {
    var was, t, g := GrantsIn(w.records, key), TableIn(w.tables, key), GrantRecord(w.nextId, patterns, now);
    var t' := Regranted(t, was, capability, g, CoversOld(policy, was, capability, patterns));
    w.(records := w.records[key := RecordIn(policy, w.records, w.stored, key).(grants := was[capability := g])],
       stored := if policy.persistable(key) && !writeFails
                 then w.stored[key := StoredIn(w.stored, key).(grants := ToStore(was[capability := g]))] else w.stored,
       tables := w.tables[key := t'],
       forgotten := WithIds(w.forgotten, key, Lost(t, t')),
       nextId := w.nextId + 1,
       changes := w.changes + [key])
  }

  /** The ledger with one origin's grants changed; an origin it has no record of stays without one. */
  function WithGrants(records: map<Origin, Record>, key: Origin, grants: map<Capability, GrantRecord>): map<Origin, Record> {
    if key in records then records[key := records[key].(grants := grants)] else records
  }

  predicate RevokeWrites(policy: Policy, w: World, key: Origin, id: GrantId) {
    Holds(GrantsIn(w.records, key), id) && policy.persistable(key)
  }

  /** Withdraws one grant by id, whichever capability holds it; an id nobody holds is only remembered by the handle table. */
  ghost function RevokeStep(policy: Policy, w: World, key: Origin, id: GrantId, writeFails: bool): World {
    var was, t := GrantsIn(w.records, key), TableIn(w.tables, key);
    var t' := Revoke(t, id);
    w.(records := WithGrants(w.records, key, WithoutGrant(was, id)),
       stored := if RevokeWrites(policy, w, key, id) && !writeFails
                 then w.stored[key := StoredIn(w.stored, key).(grants := ToStore(WithoutGrant(was, id)))] else w.stored,
       tables := w.tables[key := t'],
       scripts := if WebEmbed in was && was[WebEmbed].id == id then w.scripts - {key} else w.scripts,
       forgotten := WithIds(w.forgotten, key, Lost(t, t')),
       nextId := if id < w.nextId then w.nextId else id + 1,
       changes := w.changes + [key])
  }

  /**
   Withdraws one capability, of an app that may not be loaded. A write that fails leaves the ledger and the handles
   changed and `grantsChanged` untold.
   */
  ghost function RevokePersistedStep(w: World, key: Origin, capability: Capability, writeFails: bool): World {
    var was, held, t := GrantsIn(w.records, key), StoredIn(w.stored, key), TableIn(w.tables, key);
    var t' := RevokeIn(t, was, capability);
    w.(records := WithGrants(w.records, key, was - {capability}),
       stored := if capability in held.grants && !writeFails then w.stored[key := held.(grants := held.grants - {capability})] else w.stored,
       tables := w.tables[key := t'],
       scripts := if capability == WebEmbed && WebEmbed in was then w.scripts - {key} else w.scripts,
       forgotten := WithIds(w.forgotten, key, Lost(t, t')),
       changes := if RevokePersistedResult(w, key, capability, writeFails) == Ok(true) then w.changes + [key] else w.changes)
  }

  function RevokePersistedResult(w: World, key: Origin, capability: Capability, writeFails: bool): Result<bool, Failure> {
    var kept := capability in StoredIn(w.stored, key).grants;
    if kept && writeFails then Err(NotPersisted) else Ok(kept || capability in GrantsIn(w.records, key))
  }

  lemma GrantsUpdate(records: map<Origin, Record>, key: Origin, grants: map<Capability, GrantRecord>)
    ensures SameExcept(records, WithGrants(records, key, grants), key)
    ensures (GrantsIn(records, key) == map[] ==> grants == map[]) ==> GrantsIn(WithGrants(records, key, grants), key) == grants
  {
  }

  lemma UpdateIsLocal<V>(m: map<Origin, V>, key: Origin, value: V)
    ensures SameExcept(m, m[key := value], key) && SameExcept(m, m, key)
  {
  }

  lemma OpeningStaysOk(opening: map<PickId, Origin>, picks: map<Origin, set<PickId>>, overtaken: map<Origin, set<PickId>>, next: nat, next': nat)
    requires OpeningOk(opening, picks, overtaken, next) && next <= next'
    ensures OpeningOk(opening, picks, overtaken, next')
  {
  }

  lemma GrantIsLocal(policy: Policy, w: World, key: Origin, capability: Capability, patterns: seq<Pattern>, now: nat, writeFails: bool)
    ensures OthersKept(w, GrantStep(policy, w, key, capability, patterns, now, writeFails), key)
  {
    hide Regranted, CoversOld, RecordIn, Lost, ToStore, GrantsIn, StoredIn, TableIn, IdsIn;
  }

  lemma RevokeIsLocal(policy: Policy, w: World, key: Origin, id: GrantId, writeFails: bool)
    ensures OthersKept(w, RevokeStep(policy, w, key, id, writeFails), key)
  {
    hide Revoke, WithoutGrant, RevokeWrites, Lost, ToStore, GrantsIn, StoredIn, TableIn, IdsIn;
  }

  lemma RevokePersistedIsLocal(w: World, key: Origin, capability: Capability, writeFails: bool)
    ensures OthersKept(w, RevokePersistedStep(w, key, capability, writeFails), key)
  {
    hide RevokeIn, Lost, RevokePersistedResult, GrantsIn, StoredIn, TableIn, IdsIn;
  }

  lemma GrantKeepsOk(policy: Policy, w: World, key: Origin, capability: Capability, patterns: seq<Pattern>, now: nat, writeFails: bool)
    requires WorldOk(w)
    ensures var w' := GrantStep(policy, w, key, capability, patterns, now, writeFails);
      WorldOk(w') && OthersKept(w, w', key) && (ScriptOk(w, key) ==> ScriptOk(w', key))
  {
    hide OriginOk, SameExcept, Regranted, OpeningOk, CoversOld, RecordIn, Lost, ToStore;
    var w' := GrantStep(policy, w, key, capability, patterns, now, writeFails);
    var was := GrantsIn(w.records, key);
    assert OriginHolds(w, key);
    GrantKeepsOrigin(was, TableIn(w.tables, key), IdsIn(w.picks, key), IdsIn(w.forgotten, key), IdsIn(w.overtaken, key), w.nextId, capability,
                     GrantRecord(w.nextId, patterns, now), CoversOld(policy, was, capability, patterns));
    OpeningStaysOk(w.opening, w.picks, w.overtaken, w.nextId, w'.nextId);
    GrantIsLocal(policy, w, key, capability, patterns, now, writeFails);
    LocalStepKeepsOk(w, w', key);
  }

  lemma RevokeKeepsWorld(policy: Policy, w: World, key: Origin, id: GrantId, writeFails: bool)
    requires WorldOk(w)
    ensures var w' := RevokeStep(policy, w, key, id, writeFails);
      WorldOk(w') && OthersKept(w, w', key) && (ScriptOk(w, key) ==> ScriptOk(w', key))
  {
    hide OriginOk, SameExcept, OpeningOk, Revoke, WithGrants, RevokeWrites, Lost, ToStore, WithoutGrant;
    var w' := RevokeStep(policy, w, key, id, writeFails);
    var was := GrantsIn(w.records, key);
    assert OriginHolds(w, key);
    RevokeKeepsOrigin(was, TableIn(w.tables, key), IdsIn(w.picks, key), IdsIn(w.forgotten, key), IdsIn(w.overtaken, key), w.nextId, id);
    WithoutGrantIsSmaller(was, id);
    GrantsUpdate(w.records, key, WithoutGrant(was, id));
    OpeningStaysOk(w.opening, w.picks, w.overtaken, w.nextId, w'.nextId);
    RevokeIsLocal(policy, w, key, id, writeFails);
    LocalStepKeepsOk(w, w', key);
  }

  lemma RevokePersistedKeepsOk(w: World, key: Origin, capability: Capability, writeFails: bool)
    requires WorldOk(w)
    ensures var w' := RevokePersistedStep(w, key, capability, writeFails);
      WorldOk(w') && OthersKept(w, w', key) && (ScriptOk(w, key) ==> ScriptOk(w', key))
  {
    hide OriginOk, SameExcept, OpeningOk, RevokeIn, WithGrants, Lost, RevokePersistedResult;
    var w' := RevokePersistedStep(w, key, capability, writeFails);
    var was := GrantsIn(w.records, key);
    assert OriginHolds(w, key);
    RevokeInKeepsOrigin(was, TableIn(w.tables, key), IdsIn(w.picks, key), IdsIn(w.forgotten, key), IdsIn(w.overtaken, key), w.nextId, capability);
    GrantsUpdate(w.records, key, was - {capability});
    RevokePersistedIsLocal(w, key, capability, writeFails);
    LocalStepKeepsOk(w, w', key);
  }

  /** A revocation holds whether or not it could be written; one that could not is left in storage and told to nobody. */
  lemma RevocationHolds(w: World, key: Origin, capability: Capability, writeFails: bool)
    requires WorldOk(w) && capability in GrantsIn(w.records, key)
    ensures var w', g := RevokePersistedStep(w, key, capability, writeFails), GrantsIn(w.records, key)[capability].id;
      && GrantsIn(w'.records, key) == GrantsIn(w.records, key) - {capability}
      && (forall id :: id in TableIn(w'.tables, key).handles <==>
            id in TableIn(w.tables, key).handles && TableIn(w.tables, key).handles[id].auth !in GrantsAsAuths({g} + AliasesOf(TableIn(w.tables, key), g)))
      && (forall op :: op in TableIn(w'.tables, key).pending ==> Current(TableIn(w.tables, key), TableIn(w.tables, key).pending[op]) != g)
      && (RevokePersistedResult(w, key, capability, writeFails).Err? ==> w'.stored == w.stored && w'.changes == w.changes)
  {
    hide Revoke, OriginOk, Lost;
    assert OriginHolds(w, key);
    TreeHolds(w, key);
    RevokeIsExact(TableIn(w.tables, key), GrantsIn(w.records, key)[capability].id);
  }

  lemma TreeHolds(w: World, key: Origin)
    requires OriginHolds(w, key)
    ensures TreeOk(TableIn(w.tables, key).handles)
  {
  }

  // ---------------------------------------------------------------- registration and hydration

  /** The origin's record becomes `record`, with what storage holds and the manifest still admits as its grants. */
  ghost predicate Restored(policy: Policy, w: World, key: Origin, record: Record, manifest: Manifest, w': World) {
    var was, held, t, after := GrantsIn(w.records, key), StoredIn(w.stored, key).grants, TableIn(w.tables, key), GrantsIn(w'.records, key);
    && w.nextId <= w'.nextId && DistinctIds(after, w'.nextId) && Hydrated(policy, manifest, held, was, after, w.nextId)
    && exists order ::
         && Elements(order) == SupersededBy(policy, manifest, held, was)
         && w' == w.(records := w.records[key := record.(grants := after)], tables := w.tables[key := RevokeEach(t, order)],
                     forgotten := WithIds(w.forgotten, key, Lost(t, RevokeEach(t, order))), nextId := w'.nextId)
  }

  ghost predicate RestoreStep(policy: Policy, w: World, key: Origin, record: Record, manifest: Manifest, restores: bool, w': World) {
    if restores then Restored(policy, w, key, record, manifest, w')
    else w' == w.(records := w.records[key := record.(grants := GrantsIn(w.records, key))])
  }

  /** A restore happens until the app itself has registered, and only for an origin whose state may be stored. */
  predicate Restores(policy: Policy, w: World, key: Origin) {
    !RecordIn(policy, w.records, w.stored, key).hydrated && policy.persistable(key)
  }

  predicate Raises(policy: Policy, w: World, key: Origin, manifest: Manifest) {
    policy.newer(manifest.version, RecordIn(policy, w.records, w.stored, key).floor)
  }

  /** The version floor rises in memory even when writing it fails. */
  function RegisteredRecord(policy: Policy, w: World, key: Origin, manifest: Manifest): Record {
    var was := RecordIn(policy, w.records, w.stored, key);
    was.(manifest := Some(manifest), hydrated := true, floor := if Raises(policy, w, key, manifest) then manifest.version else was.floor)
  }

  function RegisteredStored(policy: Policy, w: World, key: Origin, manifest: Manifest, writeFails: bool): map<Origin, Stored> {
    if Raises(policy, w, key, manifest) && policy.persistable(key) && !writeFails
    then w.stored[key := StoredIn(w.stored, key).(floor := Some(manifest.version))]
    else w.stored
  }

  ghost predicate RegisterStep(policy: Policy, w: World, key: Origin, manifest: Manifest, writeFails: bool, w': World) {
    && RestoreStep(policy, w, key, RegisteredRecord(policy, w, key, manifest), manifest, Restores(policy, w, key), w'.(stored := w.stored))
    && w'.stored == RegisteredStored(policy, w, key, manifest, writeFails)
  }

  ghost predicate PinStep(policy: Policy, w: World, key: Origin, manifest: Manifest, w': World) {
    && RestoreStep(policy, w, key, RecordIn(policy, w.records, w.stored, key), manifest, Restores(policy, w, key), w'.(pinned := w.pinned))
    && w'.pinned == w.pinned[key := manifest]
  }

  lemma RestoreKeepsOk(policy: Policy, w: World, key: Origin, record: Record, manifest: Manifest, restores: bool, w': World)
    requires WorldOk(w) && RestoreStep(policy, w, key, record, manifest, restores, w')
    ensures WorldOk(w') && OthersKept(w, w', key)
    ensures ScriptOk(w', key) <==>
              (key in w.scripts ==>
                 if restores
                 then WebEmbed in StoredIn(w.stored, key).grants && policy.decide(manifest, WebEmbed, StoredIn(w.stored, key).grants[WebEmbed].patterns).Some?
                 else WebEmbed in GrantsIn(w.records, key))
  {
    hide OriginOk, SameExcept, OpeningOk, Hydrated, KeptByHydration, TableOk, RecordIn, RevokeEach, Elements, SupersededBy, DistinctIds;
    var was, held, t, after := GrantsIn(w.records, key), StoredIn(w.stored, key).grants, TableIn(w.tables, key), GrantsIn(w'.records, key);
    assert OriginHolds(w, key);
    UpdateIsLocal(w.records, key, record.(grants := after));
    UpdateIsLocal(w.stored, key, NOTHING_STORED);
    UpdateIsLocal(w.picks, key, {});
    UpdateIsLocal(w.pinned, key, manifest);
    UpdateIsLocal(w.scripts, key, "");
    UpdateIsLocal(w.tables, key, TableIn(w'.tables, key));
    UpdateIsLocal(w.forgotten, key, IdsIn(w.forgotten, key) + Lost(t, TableIn(w'.tables, key)));
    UpdateIsLocal(w.overtaken, key, {});
    if restores {
      var order :| && Elements(order) == SupersededBy(policy, manifest, held, was)
                   && w' == w.(records := w.records[key := record.(grants := after)], tables := w.tables[key := RevokeEach(t, order)],
                               forgotten := WithIds(w.forgotten, key, Lost(t, RevokeEach(t, order))), nextId := w'.nextId);
      HydratedDecidesEmbed(policy, manifest, held, was, after, w.nextId);
      HydrationKeepsOk(t, order, policy, manifest, held, was, after, IdsIn(w.picks, key), IdsIn(w.forgotten, key), IdsIn(w.overtaken, key), w.nextId, w'.nextId);
      OpeningStaysOk(w.opening, w.picks, w.overtaken, w.nextId, w'.nextId);
    }
    LocalStepKeepsOk(w, w', key);
  }

  lemma HydratedDecidesEmbed(policy: Policy, manifest: Manifest, stored: map<Capability, StoredGrant>, grants: map<Capability, GrantRecord>, after: map<Capability, GrantRecord>, next: nat)
    requires Hydrated(policy, manifest, stored, grants, after, next)
    ensures WebEmbed in after <==> WebEmbed in stored && policy.decide(manifest, WebEmbed, stored[WebEmbed].patterns).Some?
  {
    assert HydratedAt(policy, manifest, stored, grants, after, next, WebEmbed);
  }

  lemma StoredIsNotChecked(w: World, w': World, stored: map<Origin, Stored>, pinned: map<Origin, Manifest>)
    requires WorldOk(w) && w' == w.(stored := stored, pinned := pinned)
    ensures WorldOk(w')
  {
    forall key
      ensures OriginHolds(w', key)
    {
      assert OriginHolds(w, key);
    }
  }

  /** A stored script outlives a restore that does not bring `web.embed` back: restoring clears no script. */
  ghost predicate ScriptSurvivesRestore(policy: Policy, w: World, key: Origin, manifest: Manifest) {
    key in w.scripts ==>
      if Restores(policy, w, key)
      then WebEmbed in StoredIn(w.stored, key).grants && policy.decide(manifest, WebEmbed, StoredIn(w.stored, key).grants[WebEmbed].patterns).Some?
      else WebEmbed in GrantsIn(w.records, key)
  }

  lemma RegisterKeepsOk(policy: Policy, w: World, key: Origin, manifest: Manifest, writeFails: bool, w': World)
    requires WorldOk(w) && RegisterStep(policy, w, key, manifest, writeFails, w')
    ensures WorldOk(w') && OthersKept(w, w', key)
    ensures ScriptOk(w', key) <==> ScriptSurvivesRestore(policy, w, key, manifest)
  {
    hide OriginHolds, Restored;
    var w0 := w'.(stored := w.stored);
    RestoreKeepsOk(policy, w, key, RegisteredRecord(policy, w, key, manifest), manifest, Restores(policy, w, key), w0);
    StoredIsNotChecked(w0, w', w'.stored, w'.pinned);
  }

  lemma PinKeepsOk(policy: Policy, w: World, key: Origin, manifest: Manifest, w': World)
    requires WorldOk(w) && PinStep(policy, w, key, manifest, w')
    ensures WorldOk(w') && OthersKept(w, w', key)
    ensures ScriptOk(w', key) <==> ScriptSurvivesRestore(policy, w, key, manifest)
  {
    hide OriginHolds, Restored;
    var w0 := w'.(pinned := w.pinned);
    RestoreKeepsOk(policy, w, key, RecordIn(policy, w.records, w.stored, key), manifest, Restores(policy, w, key), w0);
    StoredIsNotChecked(w0, w', w'.stored, w'.pinned);
  }

  // ---------------------------------------------------------------- picks

  /** The person picked a path: it is recorded before its file is opened. */
  ghost function PickStep(w: World, key: Origin): World {
    w.(picks := w.picks[key := IdsIn(w.picks, key) + {w.nextId}], opening := w.opening[w.nextId := key],
       nextId := w.nextId + 1, changes := w.changes + [key])
  }

  /** A picked file is open: its handle is registered where there is room, with no second look at whether the pick still stands. */
  ghost function PickOpenedStep(w: World, key: Origin, pick: PickId): World {
    w.(opening := w.opening - {pick}, tables := w.tables[key := OpenPicked(TableIn(w.tables, key), pick, w.nextId)], nextId := w.nextId + 1)
  }

  /** Its file cannot be opened: the pick stays recorded. */
  ghost function PickFailedStep(w: World, pick: PickId): World {
    w.(opening := w.opening - {pick})
  }

  /** The pick, where it is taken back by the origin its file is still being opened for. */
  function OvertakenBy(opening: map<PickId, Origin>, key: Origin, pick: PickId): set<PickId> {
    if pick in opening && opening[pick] == key then {pick} else {}
  }

  ghost function RevokePickStep(w: World, key: Origin, pick: PickId): World {
    w.(picks := w.picks[key := IdsIn(w.picks, key) - {pick}],
       tables := w.tables[key := RevokePick(TableIn(w.tables, key), pick)],
       overtaken := WithIds(w.overtaken, key, OvertakenBy(w.opening, key, pick)),
       changes := if pick in IdsIn(w.picks, key) then w.changes + [key] else w.changes)
  }

  lemma PickKeepsWorld(w: World, key: Origin)
    requires WorldOk(w)
    ensures WorldOk(PickStep(w, key)) && OthersKept(w, PickStep(w, key), key)
  {
    hide OriginOk;
    assert OriginHolds(w, key);
    PickKeepsOrigin(GrantsIn(w.records, key), TableIn(w.tables, key), IdsIn(w.picks, key), IdsIn(w.forgotten, key), IdsIn(w.overtaken, key), w.nextId);
    LocalStepKeepsOk(w, PickStep(w, key), key);
  }

  lemma PickStepsAreLocal(w: World, key: Origin, pick: PickId)
    ensures OthersKept(w, PickOpenedStep(w, key, pick), key) && OthersKept(w, RevokePickStep(w, key, pick), key)
  {
    hide OpenPicked, RevokePick, IdsIn, TableIn;
  }

  lemma PickOpenedKeepsWorld(w: World, key: Origin, pick: PickId)
    requires WorldOk(w) && pick in w.opening && w.opening[pick] == key
    ensures WorldOk(PickOpenedStep(w, key, pick)) && OthersKept(w, PickOpenedStep(w, key, pick), key)
  {
    hide TableOk, DistinctIds, ExcusesOk, OpenPicked, SameExcept;
    assert OriginHolds(w, key);
    var grants, t, held, forgotten, overtaken := GrantsIn(w.records, key), TableIn(w.tables, key), IdsIn(w.picks, key), IdsIn(w.forgotten, key), IdsIn(w.overtaken, key);
    OpenPickedKeepsOk(t, pick, w.nextId, LiveIds(grants), held, forgotten, overtaken, w.nextId);
    TableKeepsOrigin(grants, t, OpenPicked(t, pick, w.nextId), held, forgotten, overtaken, w.nextId, w.nextId + 1);
    PickStepsAreLocal(w, key, pick);
    LocalStepKeepsOk(w, PickOpenedStep(w, key, pick), key);
  }

  lemma PickFailedKeepsWorld(w: World, key: Origin, pick: PickId)
    requires WorldOk(w)
    ensures WorldOk(PickFailedStep(w, pick)) && OthersKept(w, PickFailedStep(w, pick), key)
  {
    hide OriginOk;
    assert OriginHolds(w, key);
    LocalStepKeepsOk(w, PickFailedStep(w, pick), key);
  }

  lemma RevokePickKeepsOpening(opening: map<PickId, Origin>, picks: map<Origin, set<PickId>>, overtaken: map<Origin, set<PickId>>, next: nat, key: Origin, pick: PickId)
    requires OpeningOk(opening, picks, overtaken, next)
    ensures OpeningOk(opening, picks[key := IdsIn(picks, key) - {pick}], WithIds(overtaken, key, OvertakenBy(opening, key, pick)), next)
  {
    var picks', overtaken' := picks[key := IdsIn(picks, key) - {pick}], WithIds(overtaken, key, OvertakenBy(opening, key, pick));
    forall p | p in opening
      ensures p in IdsIn(picks', opening[p]) || p in IdsIn(overtaken', opening[p])
    {
      assert p in IdsIn(picks, opening[p]) || p in IdsIn(overtaken, opening[p]);
    }
  }

  lemma RevokePickKeepsWorld(w: World, key: Origin, pick: PickId)
    requires WorldOk(w)
    ensures WorldOk(RevokePickStep(w, key, pick)) && OthersKept(w, RevokePickStep(w, key, pick), key)
  {
    hide OriginOk, RevokePick, SameExcept;
    assert OriginHolds(w, key);
    RevokePickKeepsOrigin(GrantsIn(w.records, key), TableIn(w.tables, key), IdsIn(w.picks, key), IdsIn(w.forgotten, key), IdsIn(w.overtaken, key), w.nextId,
                          pick, OvertakenBy(w.opening, key, pick));
    RevokePickKeepsOpening(w.opening, w.picks, w.overtaken, w.nextId, key, pick);
    hide OpeningOk;
    PickStepsAreLocal(w, key, pick);
    LocalStepKeepsOk(w, RevokePickStep(w, key, pick), key);
  }

  lemma RevokedPickStillOpens(w: World, key: Origin, pick: PickId)
    requires pick in w.opening && w.opening[pick] == key && HasRoom(TableIn(w.tables, key), File, 0)
    ensures var w' := PickOpenedStep(RevokePickStep(w, key, pick), key, pick);
      && w.nextId in TableIn(w'.tables, key).handles && TableIn(w'.tables, key).handles[w.nextId].auth == ByPick(pick)
      && pick !in IdsIn(w'.picks, key)
  {
    hide RevokePick, OpenPicked, HasRoom, WithIds, OvertakenBy;
    RevokePickLeavesRoom(TableIn(w.tables, key), pick);
    OpenedIsThere(RevokePick(TableIn(w.tables, key), pick), pick, w.nextId);
  }

  /** A pick taken back while its file opens: nothing stops the file opening, and its handle stands under no pick. */
  lemma OvertakenPickStillOpens(w: World, key: Origin)
    requires HasRoom(TableIn(w.tables, key), File, 0)
    ensures var picked := PickStep(w, key);
      var revoked := RevokePickStep(picked, key, w.nextId);
      var after := PickOpenedStep(revoked, key, w.nextId);
      && w.nextId in revoked.opening && revoked.opening[w.nextId] == key && revoked.nextId == w.nextId + 1
      && revoked.nextId in TableIn(after.tables, key).handles && TableIn(after.tables, key).handles[revoked.nextId].auth == ByPick(w.nextId)
      && w.nextId !in IdsIn(after.picks, key)
  {
    var picked := PickStep(w, key);
    assert picked.opening[w.nextId] == key && picked.tables == w.tables && picked.nextId == w.nextId + 1;
    hide PickStep, PickOpenedStep, TableIn, HasRoom;
    RevokedPickStillOpens(picked, key, w.nextId);
  }

  lemma OpenedIsThere(t: Table, pick: PickId, id: HandleId)
    requires HasRoom(t, File, 0)
    ensures id in OpenPicked(t, pick, id).handles && OpenPicked(t, pick, id).handles[id].auth == ByPick(pick)
  {
  }

  // ---------------------------------------------------------------- handles

  ghost function TableStep(w: World, key: Origin, t: Table, next: nat): World {
    w.(tables := w.tables[key := t], nextId := next)
  }

  /** A capability call reads the ledger and begins its work under the grant it found. */
  ghost function BeginStep(w: World, key: Origin, capability: Capability): World {
    if capability in GrantsIn(w.records, key)
    then TableStep(w, key, Begin(TableIn(w.tables, key), w.nextId, GrantsIn(w.records, key)[capability].id), w.nextId + 1)
    else w
  }

  /** The work is done: a cancelled call destroys what it made, any other asks the table to register the handle. */
  ghost function FinishStep(w: World, key: Origin, op: OperationId, got: Resource): World {
    if op in TableIn(w.tables, key).pending
    then TableStep(w, key, Acquire(TableIn(w.tables, key), op, w.nextId, got), w.nextId + 1)
    else w
  }

  /** A listening handle accepted a connection. */
  ghost function DeriveStep(w: World, key: Origin, parent: HandleId, allowance: nat): World {
    if parent in TableIn(w.tables, key).handles
    then TableStep(w, key, Derive(TableIn(w.tables, key), parent, w.nextId, allowance), w.nextId + 1)
    else w
  }

  /** Closing a handle closes everything derived from it; closing one the origin does not hold changes nothing. */
  ghost function ReleaseStep(w: World, key: Origin, id: HandleId): World {
    TableStep(w, key, Release(TableIn(w.tables, key), id), w.nextId)
  }

  /** A session ends: no grant is withdrawn, every handle and every acquisition in flight goes. */
  ghost function DropStep(w: World, key: Origin): World {
    w.(tables := w.tables - {key})
  }

  lemma TableStepKeepsOk(w: World, key: Origin, t: Table, next: nat)
    requires WorldOk(w) && w.nextId <= next
    requires TableOk(t, LiveIds(GrantsIn(w.records, key)), IdsIn(w.picks, key), IdsIn(w.forgotten, key), IdsIn(w.overtaken, key), next)
    ensures WorldOk(TableStep(w, key, t, next)) && OthersKept(w, TableStep(w, key, t, next), key)
  {
    hide OriginOk, TableOk;
    assert OriginHolds(w, key);
    TableKeepsOrigin(GrantsIn(w.records, key), TableIn(w.tables, key), t, IdsIn(w.picks, key), IdsIn(w.forgotten, key), IdsIn(w.overtaken, key), w.nextId, next);
    LocalStepKeepsOk(w, TableStep(w, key, t, next), key);
  }

  lemma BeginKeepsWorld(w: World, key: Origin, capability: Capability)
    requires WorldOk(w)
    ensures WorldOk(BeginStep(w, key, capability)) && OthersKept(w, BeginStep(w, key, capability), key)
  {
    hide TableOk, DistinctIds, Begin, LiveIds;
    var grants, t := GrantsIn(w.records, key), TableIn(w.tables, key);
    assert OriginHolds(w, key);
    if capability in grants {
      LiveIdIsLive(grants, capability);
      BeginKeepsOk(t, w.nextId, grants[capability].id, LiveIds(grants), IdsIn(w.picks, key), IdsIn(w.forgotten, key), IdsIn(w.overtaken, key), w.nextId);
      TableStepKeepsOk(w, key, Begin(t, w.nextId, grants[capability].id), w.nextId + 1);
    }
  }

  lemma FinishKeepsWorld(w: World, key: Origin, op: OperationId, got: Resource)
    requires WorldOk(w)
    ensures WorldOk(FinishStep(w, key, op, got)) && OthersKept(w, FinishStep(w, key, op, got), key)
  {
    hide TableOk, DistinctIds, Acquire, LiveIds;
    var grants, t := GrantsIn(w.records, key), TableIn(w.tables, key);
    assert OriginHolds(w, key);
    if op in t.pending {
      AcquireKeepsOk(t, op, w.nextId, got, LiveIds(grants), IdsIn(w.picks, key), IdsIn(w.forgotten, key), IdsIn(w.overtaken, key), w.nextId);
      TableStepKeepsOk(w, key, Acquire(t, op, w.nextId, got), w.nextId + 1);
    }
  }

  lemma DeriveKeepsWorld(w: World, key: Origin, parent: HandleId, allowance: nat)
    requires WorldOk(w)
    ensures WorldOk(DeriveStep(w, key, parent, allowance)) && OthersKept(w, DeriveStep(w, key, parent, allowance), key)
  {
    hide TableOk, DistinctIds, Derive, LiveIds;
    var grants, t := GrantsIn(w.records, key), TableIn(w.tables, key);
    assert OriginHolds(w, key);
    if parent in t.handles {
      DeriveKeepsOk(t, parent, w.nextId, allowance, LiveIds(grants), IdsIn(w.picks, key), IdsIn(w.forgotten, key), IdsIn(w.overtaken, key), w.nextId);
      TableStepKeepsOk(w, key, Derive(t, parent, w.nextId, allowance), w.nextId + 1);
    }
  }

  lemma ReleaseKeepsWorld(w: World, key: Origin, id: HandleId)
    requires WorldOk(w)
    ensures WorldOk(ReleaseStep(w, key, id)) && OthersKept(w, ReleaseStep(w, key, id), key)
  {
    hide TableOk, DistinctIds, Release, LiveIds;
    var grants, t := GrantsIn(w.records, key), TableIn(w.tables, key);
    assert OriginHolds(w, key);
    ReleaseKeepsOk(t, id, LiveIds(grants), IdsIn(w.picks, key), IdsIn(w.forgotten, key), IdsIn(w.overtaken, key), w.nextId);
    TableStepKeepsOk(w, key, Release(t, id), w.nextId);
  }

  lemma DropKeepsWorld(w: World, key: Origin)
    requires WorldOk(w)
    ensures WorldOk(DropStep(w, key)) && OthersKept(w, DropStep(w, key), key)
  {
    hide TableOk, DistinctIds, LiveIds;
    assert OriginHolds(w, key);
    EmptyIsOk(TableIn(w.tables, key), LiveIds(GrantsIn(w.records, key)), IdsIn(w.picks, key), IdsIn(w.forgotten, key), IdsIn(w.overtaken, key), w.nextId);
    LocalStepKeepsOk(w, DropStep(w, key), key);
  }

  // ---------------------------------------------------------------- scripts, and the end of forgetting an origin

  const EMBED_SCRIPT_BYTES: nat := 4 * 1024 * 1024

  /** How many bytes a text takes in UTF-8. */
  function ByteLength(text: string): nat {
    if text == "" then 0
    else
      var c := text[0] as int;
      (if c < 0x80 then 1 else if c < 0x800 then 2 else if c < 0x1_0000 then 3 else 4) + ByteLength(text[1..])
  }

  ghost function ScriptStep(w: World, key: Origin, source: string): World {
    if WebEmbed in GrantsIn(w.records, key) && ByteLength(source) <= EMBED_SCRIPT_BYTES
    then w.(scripts := if source == "" then w.scripts - {key} else w.scripts[key := source])
    else w
  }

  /** How many of the four deletions succeed, in their order: floor, acknowledged rollback, grants, declined capabilities. */
  const ALL_DELETED: nat := 4

  function AfterDeletions(held: Stored, deleted: nat): Stored {
    Stored(if deleted >= 3 then map[] else held.grants, if deleted >= 1 then None else held.floor)
  }

  /** The grants that go with the record, unrevoked, with something in use under them: none where the handles went first. */
  function DroppedWithRecord(w: World, key: Origin, deleted: nat): set<GrantId> {
    if deleted >= ALL_DELETED then DroppedInUse(GrantsIn(w.records, key), TableIn(w.tables, key)) else {}
  }

  /**
   The ledger's part of forgetting: what is stored first, and the record only when every deletion succeeds. It does not look
   whether a grant landed since the grants were withdrawn.
   */
  ghost function ForgetRecordStep(w: World, key: Origin, deleted: nat): World {
    w.(stored := if deleted >= ALL_DELETED then w.stored - {key} else w.stored[key := AfterDeletions(StoredIn(w.stored, key), deleted)],
       records := if deleted >= ALL_DELETED then w.records - {key} else w.records,
       forgotten := WithIds(w.forgotten, key, DroppedWithRecord(w, key, deleted)),
       changes := w.changes + [key])
  }

  lemma ScriptStepKeepsWorld(w: World, key: Origin, source: string)
    requires WorldOk(w)
    ensures WorldOk(ScriptStep(w, key, source)) && OthersKept(w, ScriptStep(w, key, source), key)
    ensures ScriptOk(w, key) ==> ScriptOk(ScriptStep(w, key, source), key)
  {
    hide OriginOk, ByteLength;
    assert OriginHolds(w, key);
    LocalStepKeepsOk(w, ScriptStep(w, key, source), key);
  }

  lemma ForgetRecordIsLocal(w: World, key: Origin, deleted: nat)
    ensures OthersKept(w, ForgetRecordStep(w, key, deleted), key)
  {
    hide DroppedWithRecord, GrantsIn, StoredIn, IdsIn, AfterDeletions;
  }

  lemma ForgetRecordKeepsWorld(w: World, key: Origin, deleted: nat)
    requires WorldOk(w)
    ensures WorldOk(ForgetRecordStep(w, key, deleted)) && OthersKept(w, ForgetRecordStep(w, key, deleted), key)
    ensures ScriptOk(w, key) ==> (ScriptOk(ForgetRecordStep(w, key, deleted), key) <==> (deleted >= ALL_DELETED ==> key !in w.scripts))
    ensures TableIn(w.tables, key) == EMPTY ==> DroppedWithRecord(w, key, deleted) == {}
  {
    hide OriginOk, OpeningOk, SameExcept, LiveIds;
    assert OriginHolds(w, key);
    var grants, t := GrantsIn(w.records, key), TableIn(w.tables, key);
    DropRecordKeepsOrigin(grants, t, IdsIn(w.picks, key), IdsIn(w.forgotten, key), IdsIn(w.overtaken, key), w.nextId);
    assert IdsIn(w.forgotten, key) + {} == IdsIn(w.forgotten, key);
    ForgetRecordIsLocal(w, key, deleted);
    LocalStepKeepsOk(w, ForgetRecordStep(w, key, deleted), key);
  }

  /** The origin's record is still there or still missing, and only its grants may differ. */
  ghost predicate RecordKept(w: World, w': World, key: Origin) {
    && (key in w.records <==> key in w'.records)
    && (key in w.records ==> w'.records[key] == w.records[key].(grants := w'.records[key].grants))
  }

  /**
   An origin's grants are withdrawn but for those in `left`, each one that storage held gone from it too but for those in
   `unwritten`; all else about the origin is as it was.
   */
  ghost predicate PartlyRevoked(w: World, w': World, key: Origin, left: set<Capability>, unwritten: set<Capability>) {
    var live, held := GrantsIn(w.records, key).Keys, StoredIn(w.stored, key);
    && left <= live && GrantsIn(w'.records, key).Keys == left
    && RecordKept(w, w', key)
    && StoredIn(w'.stored, key) == held.(grants := held.grants - (live - left - unwritten))
    && w'.picks == w.picks && w'.pinned == w.pinned
  }

  /** The withdrawing stopped at the grant of `c`: it is live no more, storage still has it, and what is left has not been touched. */
  ghost predicate StopsAt(w: World, w': World, key: Origin, c: Capability) {
    var left := GrantsIn(w'.records, key).Keys;
    c in GrantsIn(w.records, key) && c !in left && c in StoredIn(w.stored, key).grants && PartlyRevoked(w, w', key, left, {c})
  }

  lemma RevokePersistedRevokesPart(w: World, w': World, key: Origin, left: set<Capability>, capability: Capability, writeFails: bool)
    requires PartlyRevoked(w, w', key, left, {}) && capability in left
    ensures var kept := writeFails && capability in StoredIn(w.stored, key).grants;
      && PartlyRevoked(w, RevokePersistedStep(w', key, capability, writeFails), key, left - {capability}, if kept then {capability} else {})
      && (RevokePersistedResult(w', key, capability, writeFails).Err? <==> kept)
  {
    hide RevokeIn, Lost;
  }

  /**
   When a deletion fails what is stored is as it was exactly if none went before it that had something to delete: the floor
   goes first, the grants third. The record in memory, with its own floor, stays.
   */
  lemma FailedForgetKeepsStorage(w: World, key: Origin, deleted: nat)
    requires deleted < ALL_DELETED
    ensures var w', held := ForgetRecordStep(w, key, deleted), StoredIn(w.stored, key);
      && (StoredIn(w'.stored, key) == held <==> (deleted >= 1 ==> held.floor.None?) && (deleted >= 3 ==> held.grants == map[]))
      && w'.records == w.records
  {
  }
}
