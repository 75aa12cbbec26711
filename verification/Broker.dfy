/** The broker: the state it holds, changed in place by each call, and the calls that read it. */
module BrokerModel {
  import opened Results
  import opened HandleTable
  import opened GrantLedger
  import opened BrokerState

  class Broker {
    const policy: Policy
    var state: World

    ghost predicate Valid()
      reads this
    {
      WorldOk(state)
    }

    constructor (policy: Policy, stored: map<Origin, Stored>)
      ensures Valid() && state == Start(stored)
    {
      this.policy := policy;
      state := World(map[], stored, map[], map[], map[], map[], map[], [], 0, map[], map[]);
    }

    // -------------------------------------------------------------- grant and revoke

    method Grant(key: Origin, capability: Capability, patterns: seq<Pattern>, now: nat, writeFails: bool) returns (r: Result<GrantRecord, Failure>)
      requires Valid()
      modifies this
      ensures state == GrantStep(policy, old(state), key, capability, patterns, now, writeFails) && Valid()
      ensures r == if policy.persistable(key) && writeFails then Err(NotPersisted) else Ok(GrantRecord(old(state).nextId, patterns, now))
    {
      hide WorldOk, Regranted, CoversOld, RecordIn, Lost, ToStore, StoredIn, TableIn, GrantsIn;
      GrantKeepsOk(policy, state, key, capability, patterns, now, writeFails);
      var was, record, table := GrantsIn(state.records, key), RecordIn(policy, state.records, state.stored, key), TableIn(state.tables, key);
      var g := GrantRecord(state.nextId, patterns, now);
      state := state.(records := state.records[key := record.(grants := was[capability := g])], nextId := state.nextId + 1);
      var persists := policy.persistable(key);
      if persists && !writeFails {
        state := state.(stored := state.stored[key := StoredIn(state.stored, key).(grants := ToStore(was[capability := g]))]);
      }
      var table' := Regranted(table, was, capability, g, CoversOld(policy, was, capability, patterns));
      state := state.(tables := state.tables[key := table'], forgotten := WithIds(state.forgotten, key, Lost(table, table')));
      state := state.(changes := state.changes + [key]);
      r := if persists && writeFails then Err(NotPersisted) else Ok(g);
    }

    method Revoke(key: Origin, grantId: GrantId, writeFails: bool) returns (r: Result<(), Failure>)
      requires Valid()
      modifies this
      ensures state == RevokeStep(policy, old(state), key, grantId, writeFails) && Valid()
      ensures r == if RevokeWrites(policy, old(state), key, grantId) && writeFails then Err(NotPersisted) else Ok(())
    {
      hide WorldOk, HandleTable.Revoke, WithGrants, WithoutGrant, Holds, Lost, ToStore, StoredIn, TableIn, GrantsIn;
      RevokeKeepsWorld(policy, state, key, grantId, writeFails);
      var was, table, failed := GrantsIn(state.records, key), TableIn(state.tables, key), false;
      var embedded := WebEmbed in was && was[WebEmbed].id == grantId;
      state := state.(records := WithGrants(state.records, key, WithoutGrant(was, grantId)));
      if Holds(was, grantId) && policy.persistable(key) {
        if writeFails {
          failed := true;
        } else {
          state := state.(stored := state.stored[key := StoredIn(state.stored, key).(grants := ToStore(WithoutGrant(was, grantId)))]);
        }
      }
      var table' := HandleTable.Revoke(table, grantId);
      state := state.(tables := state.tables[key := table'], forgotten := WithIds(state.forgotten, key, Lost(table, table')));
      if state.nextId <= grantId {
        state := state.(nextId := grantId + 1);
      }
      if embedded {
        state := state.(scripts := state.scripts - {key});
      }
      state := state.(changes := state.changes + [key]);
      r := if failed then Err(NotPersisted) else Ok(());
    }

    method RevokePersisted(key: Origin, capability: Capability, writeFails: bool) returns (r: Result<bool, Failure>)
      requires Valid()
      modifies this
      ensures state == RevokePersistedStep(old(state), key, capability, writeFails) && Valid()
      ensures r == RevokePersistedResult(old(state), key, capability, writeFails)
    {
      hide WorldOk, RevokeIn, WithGrants, Lost, StoredIn, TableIn, GrantsIn;
      RevokePersistedKeepsOk(state, key, capability, writeFails);
      var was, held, table := GrantsIn(state.records, key), StoredIn(state.stored, key), TableIn(state.tables, key);
      var kept := capability in held.grants;
      state := state.(records := WithGrants(state.records, key, was - {capability}));
      if kept && !writeFails {
        state := state.(stored := state.stored[key := held.(grants := held.grants - {capability})]);
      }
      var table' := RevokeIn(table, was, capability);
      state := state.(tables := state.tables[key := table'], forgotten := WithIds(state.forgotten, key, Lost(table, table')));
      if capability == WebEmbed && WebEmbed in was {
        state := state.(scripts := state.scripts - {key});
      }
      if kept && writeFails {
        return Err(NotPersisted);
      }
      r := Ok(kept || capability in was);
      if r.value {
        state := state.(changes := state.changes + [key]);
      }
    }

    // -------------------------------------------------------------- registration and hydration

    /** Rebuilds an origin's grants from storage, then revokes one by one each grant the rebuilding superseded. */
    method Restore(key: Origin, record: Record, manifest: Manifest)
      requires Valid()
      modifies this
      ensures Restored(policy, old(state), key, record, manifest, state)
      ensures state.stored == old(state).stored && state.pinned == old(state).pinned
    {
      hide WorldOk, Hydrated, DistinctIds, RevokeEach, SupersededBy, Lost, WithIds, SamePatterns, Elements;
      var held, was := StoredIn(state.stored, key).grants, GrantsIn(state.records, key);
      GrantIdsAreDistinct(state, key);
      var next := state.nextId;
      var done, left, after := map[], held.Keys, map[];
      NothingHydrated(policy, manifest, was, next);
      while left != {}
        invariant left <= held.Keys && state == old(state) && state.nextId <= next
        invariant done.Keys == held.Keys - left && (forall c :: c in done ==> done[c] == held[c])
        invariant DistinctIds(after, next) && Hydrated(policy, manifest, done, was, after, state.nextId)
        decreases left
      {
        var capability :| capability in left;
        var decision := policy.decide(manifest, capability, held[capability].patterns);
        HydrateOneMore(policy, manifest, held, done, was, after, capability, state.nextId, next);
        if KeptByHydration(policy, manifest, held, was, capability) {
          after := after[capability := was[capability]];
        } else if decision.Some? {
          after := after[capability := GrantRecord(next, decision.value, held[capability].grantedAt)];
          next := next + 1;
        }
        done, left := done[capability := held[capability]], left - {capability};
      }
      assert done == held;
      state := state.(records := state.records[key := record.(grants := after)], nextId := next);
      ghost var _ := RevokeSuperseded(key, SupersededBy(policy, manifest, held, was));
    }

    /** Revokes the grants one by one, in some order. */
    method RevokeSuperseded(key: Origin, superseded: set<GrantId>) returns (ghost order: seq<GrantId>)
      modifies this
      ensures Elements(order) == superseded
      ensures var t := TableIn(old(state).tables, key);
        state == old(state).(tables := old(state).tables[key := RevokeEach(t, order)],
                             forgotten := WithIds(old(state).forgotten, key, Lost(t, RevokeEach(t, order))))
    {
      hide HandleTable.Revoke, Lost, WithIds, RevokeEach, Elements, TableIn;
      var table := TableIn(state.tables, key);
      var left, table' := superseded, table;
      NothingRevoked(table);
      order := [];
      while left != {}
        invariant state == old(state) && left <= superseded && Elements(order) == superseded - left
        invariant table' == RevokeEach(table, order)
        decreases left
      {
        var g :| g in left;
        RevokeOneMore(table, order, g);
        table', left, order := HandleTable.Revoke(table', g), left - {g}, order + [g];
      }
      state := state.(tables := state.tables[key := table'], forgotten := WithIds(state.forgotten, key, Lost(table, table')));
    }

    method RegisterApp(key: Origin, manifest: Manifest, writeFails: bool) returns (r: Result<(), Failure>)
      requires Valid()
      modifies this
      ensures RegisterStep(policy, old(state), key, manifest, writeFails, state) && Valid()
      ensures r == if Raises(policy, old(state), key, manifest) && policy.persistable(key) && writeFails then Err(NotPersisted) else Ok(())
    {
      hide WorldOk, Restored, RecordIn, StoredIn, GrantsIn;
      var was, raises := RecordIn(policy, state.records, state.stored, key), Raises(policy, state, key, manifest);
      var record := was.(manifest := Some(manifest), hydrated := true, floor := if raises then manifest.version else was.floor);
      var held := StoredIn(state.stored, key);
      if Restores(policy, state, key) {
        Restore(key, record, manifest);
      } else {
        state := state.(records := state.records[key := record.(grants := GrantsIn(state.records, key))]);
      }
      r := Ok(());
      ghost var restored := state;
      if raises && policy.persistable(key) {
        if writeFails {
          r := Err(NotPersisted);
        } else {
          state := state.(stored := state.stored[key := held.(floor := Some(manifest.version))]);
        }
      }
      assert state.(stored := old(state).stored) == restored;
      RegisterKeepsOk(policy, old(state), key, manifest, writeFails, state);
    }

    method HydrateFromPinnedManifest(key: Origin, manifest: Manifest)
      requires Valid()
      modifies this
      ensures PinStep(policy, old(state), key, manifest, state) && Valid()
    {
      hide WorldOk, Restored, RecordIn, StoredIn, GrantsIn;
      var record := RecordIn(policy, state.records, state.stored, key);
      if Restores(policy, state, key) {
        Restore(key, record, manifest);
      } else {
        state := state.(records := state.records[key := record.(grants := GrantsIn(state.records, key))]);
      }
      ghost var restored := state;
      state := state.(pinned := state.pinned[key := manifest]);
      assert state.(pinned := old(state).pinned) == restored;
      PinKeepsOk(policy, old(state), key, manifest, state);
    }

    // -------------------------------------------------------------- picks

    method RecordPick(key: Origin) returns (pick: PickId)
      requires Valid()
      modifies this
      ensures state == PickStep(old(state), key) && Valid() && pick == old(state).nextId
    {
      hide WorldOk;
      PickKeepsWorld(state, key);
      pick := state.nextId;
      state := state.(picks := state.picks[key := IdsIn(state.picks, key) + {pick}], nextId := pick + 1);
      state := state.(opening := state.opening[pick := key], changes := state.changes + [key]);
    }

    method OpenPicked(key: Origin, pick: PickId) returns (r: Result<HandleId, Failure>)
      requires Valid() && pick in state.opening && state.opening[pick] == key
      modifies this
      ensures state == PickOpenedStep(old(state), key, pick) && Valid()
      ensures r == if HasRoom(TableIn(old(state).tables, key), File, 0) then Ok(old(state).nextId) else Err(Limit)
    {
      hide WorldOk, HandleTable.OpenPicked, HasRoom, TableIn;
      PickOpenedKeepsWorld(state, key, pick);
      var id, table := state.nextId, TableIn(state.tables, key);
      state := state.(opening := state.opening - {pick}, tables := state.tables[key := HandleTable.OpenPicked(table, pick, id)], nextId := id + 1);
      r := if HasRoom(table, File, 0) then Ok(id) else Err(Limit);
    }

    method OpeningFailed(key: Origin, pick: PickId)
      requires Valid() && pick in state.opening && state.opening[pick] == key
      modifies this
      ensures state == PickFailedStep(old(state), pick) && Valid()
    {
      hide WorldOk;
      PickFailedKeepsWorld(state, key, pick);
      state := state.(opening := state.opening - {pick});
    }

    method RevokeUserSelectedPath(key: Origin, pick: PickId) returns (removed: bool)
      requires Valid()
      modifies this
      ensures state == RevokePickStep(old(state), key, pick) && Valid()
      ensures removed == (pick in IdsIn(old(state).picks, key))
    {
      hide WorldOk, RevokePick;
      RevokePickKeepsWorld(state, key, pick);
      removed := pick in IdsIn(state.picks, key);
      state := state.(picks := state.picks[key := IdsIn(state.picks, key) - {pick}]);
      state := state.(tables := state.tables[key := RevokePick(TableIn(state.tables, key), pick)]);
      state := state.(overtaken := WithIds(state.overtaken, key, OvertakenBy(state.opening, key, pick)));
      if removed {
        state := state.(changes := state.changes + [key]);
      }
    }

    // -------------------------------------------------------------- handles

    method BeginAcquire(key: Origin, capability: Capability) returns (r: Result<OperationId, Failure>)
      requires Valid()
      modifies this
      ensures state == BeginStep(old(state), key, capability) && Valid()
      ensures r == if capability in GrantsIn(old(state).records, key) then Ok(old(state).nextId) else Err(Denied)
    {
      hide WorldOk, Begin;
      BeginKeepsWorld(state, key, capability);
      var held, op := GrantsIn(state.records, key), state.nextId;
      if capability !in held {
        return Err(Denied);
      }
      state := state.(tables := state.tables[key := Begin(TableIn(state.tables, key), op, held[capability].id)], nextId := op + 1);
      r := Ok(op);
    }

    method FinishAcquire(key: Origin, op: OperationId, got: Resource) returns (r: Result<HandleId, Failure>)
      requires Valid()
      modifies this
      ensures state == FinishStep(old(state), key, op, got) && Valid()
      ensures var was := TableIn(old(state).tables, key);
        r == if op !in was.pending || !Acquirable(was, was.pending[op]) then Err(Revoked)
             else if HasRoom(was, got.kind, got.allowance) then Ok(old(state).nextId)
             else Err(Limit)
    {
      hide WorldOk, Acquire, Acquirable, HasRoom;
      FinishKeepsWorld(state, key, op, got);
      var was, id := TableIn(state.tables, key), state.nextId;
      if op !in was.pending {
        return Err(Revoked);
      }
      state := state.(tables := state.tables[key := Acquire(was, op, id, got)], nextId := id + 1);
      r := if !Acquirable(was, was.pending[op]) then Err(Revoked) else if HasRoom(was, got.kind, got.allowance) then Ok(id) else Err(Limit);
    }

    method AcquireDerived(key: Origin, parent: HandleId, allowance: nat) returns (r: Result<HandleId, Failure>)
      requires Valid()
      modifies this
      ensures state == DeriveStep(old(state), key, parent, allowance) && Valid()
      ensures var was := TableIn(old(state).tables, key);
        && (r.Ok? <==> parent in was.handles && Derivable(was, parent, allowance))
        && (r.Ok? ==> r.value == old(state).nextId)
        && (r == Err(NotHeld) <==> parent !in was.handles)
        && (r == Err(NotASocket) <==> parent in was.handles && BudgetOf(was.handles[parent].kind) != Sockets)
        && (r == Err(Limit) ==> !HasRoom(was, TcpSocket, allowance))
    {
      hide WorldOk, Derive, HasRoom, Acquirable, BudgetOf;
      DeriveKeepsWorld(state, key, parent, allowance);
      var was, id := TableIn(state.tables, key), state.nextId;
      if parent !in was.handles {
        return Err(NotHeld);
      }
      state := state.(tables := state.tables[key := Derive(was, parent, id, allowance)], nextId := id + 1);
      var from := was.handles[parent];
      if BudgetOf(from.kind) != Sockets {
        return Err(NotASocket);
      }
      if from.auth.ByGrant? && !Acquirable(was, from.auth.grant) {
        return Err(Revoked);
      }
      r := if HasRoom(was, TcpSocket, allowance) then Ok(id) else Err(Limit);
    }

    method Release(key: Origin, id: HandleId)
      requires Valid()
      modifies this
      ensures state == ReleaseStep(old(state), key, id) && Valid()
    {
      hide WorldOk, HandleTable.Release;
      ReleaseKeepsWorld(state, key, id);
      state := state.(tables := state.tables[key := HandleTable.Release(TableIn(state.tables, key), id)]);
    }

    method DropOrigin(key: Origin)
      requires Valid()
      modifies this
      ensures state == DropStep(old(state), key) && Valid()
    {
      hide WorldOk;
      DropKeepsWorld(state, key);
      state := state.(tables := state.tables - {key});
    }

    // -------------------------------------------------------------- forgetting an origin

    /**
     Takes an app away: each grant in turn, then each pick, then the handles, then the record and what is stored.
     `failing` names the capabilities whose removal cannot be written; `deleted`, how many of the last deletions can be.
     A failure among the grants stops there; one among the deletions is logged and not thrown.
     */
    method ForgetOrigin(key: Origin, failing: set<Capability>, deleted: nat) returns (r: Result<(), Failure>)
      requires Valid()
      modifies this
      ensures Valid() && OthersKept(old(state), state, key)
      ensures r.Err? <==> exists c :: c in GrantsIn(old(state).records, key) && c in StoredIn(old(state).stored, key).grants && c in failing
      ensures r.Err? ==> IdsIn(state.picks, key) == IdsIn(old(state).picks, key) && exists c :: c in failing && StopsAt(old(state), state, key, c)
      ensures r.Ok? ==> GrantsIn(state.records, key) == map[] && TableIn(state.tables, key) == EMPTY && IdsIn(state.picks, key) == {}
                        && |state.changes| > 0 && state.changes[|state.changes| - 1] == key
      ensures r.Ok? ==> var live, held := GrantsIn(old(state).records, key).Keys, StoredIn(old(state).stored, key);
        StoredIn(state.stored, key)
        == if deleted >= ALL_DELETED then NOTHING_STORED else AfterDeletions(held.(grants := held.grants - live), deleted)
      ensures r.Ok? && deleted >= ALL_DELETED ==> key !in state.records && (IsRegisteredSync(key) <==> key in old(state).pinned)
      ensures r.Ok? && deleted < ALL_DELETED ==> RecordKept(old(state), state, key)
      ensures state.pinned == old(state).pinned
      ensures ScriptOk(old(state), key) ==> ScriptOk(state, key)
    {
      r := ForgetGrants(key, failing);
      if r.Err? {
        return;
      }
      ForgetPicks(key);
      ghost var held := StoredIn(old(state).stored, key);
      assert StoredIn(state.stored, key) == held.(grants := held.grants - GrantsIn(old(state).records, key).Keys);
      assert GrantsIn(state.records, key) == map[] && RecordKept(old(state), state, key);
      hide WorldOk, OthersKept, StopsAt, PartlyRevoked;
      ghost var picked := state;
      DropKeepsWorld(state, key);
      DropOrigin(key);
      ghost var dropped := state;
      OthersKeptTwice(old(state), picked, dropped, key);
      ForgetRecordKeepsWorld(state, key, deleted);
      ForgetRecord(key, deleted);
      OthersKeptTwice(old(state), dropped, state, key);
    }

    /** What is stored goes first, and the record with it only when every deletion succeeds, whatever it holds by then. */
    method ForgetRecord(key: Origin, deleted: nat)
      requires Valid()
      modifies this
      ensures state == ForgetRecordStep(old(state), key, deleted) && Valid()
    {
      hide WorldOk, DroppedWithRecord, WithIds, StoredIn, AfterDeletions;
      ForgetRecordKeepsWorld(state, key, deleted);
      state := state.(forgotten := WithIds(state.forgotten, key, DroppedWithRecord(state, key, deleted)));
      if deleted >= ALL_DELETED {
        state := state.(stored := state.stored - {key}, records := state.records - {key});
      } else {
        state := state.(stored := state.stored[key := AfterDeletions(StoredIn(state.stored, key), deleted)]);
      }
      state := state.(changes := state.changes + [key]);
    }

    method ForgetGrants(key: Origin, failing: set<Capability>) returns (r: Result<(), Failure>)
      requires Valid()
      modifies this
      ensures Valid() && OthersKept(old(state), state, key) && (ScriptOk(old(state), key) ==> ScriptOk(state, key))
      ensures r.Ok? ==> PartlyRevoked(old(state), state, key, {}, {})
      ensures r.Err? ==> exists c :: c in failing && StopsAt(old(state), state, key, c)
      ensures state.picks == old(state).picks && state.pinned == old(state).pinned
      ensures r.Err? <==> exists c :: c in GrantsIn(old(state).records, key) && c in StoredIn(old(state).stored, key).grants && c in failing
    {
      hide WorldOk, OthersKept, RevokePersistedStep, RevokePersistedResult, ScriptOk;
      NothingChanged(state, key);
      var left := GrantsIn(state.records, key).Keys;
      while left != {}
        invariant Valid() && OthersKept(old(state), state, key) && (ScriptOk(old(state), key) ==> ScriptOk(state, key))
        invariant PartlyRevoked(old(state), state, key, left, {})
        invariant forall c :: c in GrantsIn(old(state).records, key) && c !in left ==> c !in StoredIn(old(state).stored, key).grants || c !in failing
        decreases left
      {
        var capability :| capability in left;
        RevokePersistedKeepsOk(state, key, capability, capability in failing);
        RevokePersistedRevokesPart(old(state), state, key, left, capability, capability in failing);
        ghost var before := state;
        var revoked := RevokePersisted(key, capability, capability in failing);
        OthersKeptTwice(old(state), before, state, key);
        if revoked.Err? {
          return Err(NotPersisted);
        }
        left := left - {capability};
      }
      r := Ok(());
    }

    method ForgetPicks(key: Origin)
      requires Valid()
      modifies this
      ensures Valid() && OthersKept(old(state), state, key)
      ensures IdsIn(state.picks, key) == {}
      ensures state.records == old(state).records && state.stored == old(state).stored && state.pinned == old(state).pinned && state.scripts == old(state).scripts
    {
      hide WorldOk, OthersKept;
      NothingChanged(state, key);
      var left := IdsIn(state.picks, key);
      while left != {}
        invariant Valid() && OthersKept(old(state), state, key) && left == IdsIn(state.picks, key)
        invariant state.records == old(state).records && state.stored == old(state).stored && state.pinned == old(state).pinned && state.scripts == old(state).scripts
        decreases left
      {
        var pick :| pick in left;
        RevokePickKeepsWorld(state, key, pick);
        ghost var before := state;
        var _ := RevokeUserSelectedPath(key, pick);
        OthersKeptTwice(old(state), before, state, key);
        left := left - {pick};
      }
    }

    method SetEmbedScript(key: Origin, source: string) returns (r: Result<(), Failure>)
      requires Valid()
      modifies this
      ensures state == ScriptStep(old(state), key, source) && Valid()
      ensures r == if WebEmbed !in GrantsIn(state.records, key) then Err(Denied)
                   else if ByteLength(source) > EMBED_SCRIPT_BYTES then Err(Limit)
                   else Ok(())
    {
      hide WorldOk;
      ScriptStepKeepsWorld(state, key, source);
      if WebEmbed !in GrantsIn(state.records, key) {
        return Err(Denied);
      }
      if ByteLength(source) > EMBED_SCRIPT_BYTES {
        return Err(Limit);
      }
      state := state.(scripts := if source == "" then state.scripts - {key} else state.scripts[key := source]);
      r := Ok(());
    }

    /** What a shown page is given: never a script without a live grant, whatever is stored. */
    function ScriptSync(key: Origin): (script: Option<string>)
      reads this
      ensures script.Some? <==> WebEmbed in GrantsIn(state.records, key) && key in state.scripts
      ensures script.Some? ==> script.value == state.scripts[key]
    {
      ScriptIn(state.records, state.scripts, key)
    }

    // -------------------------------------------------------------- queries

    function RegisteredManifest(key: Origin): Option<Manifest>
      reads this
    {
      if key in state.records && state.records[key].manifest.Some? then state.records[key].manifest
      else if key in state.pinned then Some(state.pinned[key])
      else None
    }

    /** Lists exactly the origins with a manifest, the ledger's or a pinned one. */
    function RegisteredOriginsSync(): (origins: set<Origin>)
      reads this
      ensures forall key :: key in origins <==> IsRegisteredSync(key)
    {
      (set key | key in state.records && state.records[key].manifest.Some?) + state.pinned.Keys
    }

    predicate IsRegisteredSync(key: Origin)
      reads this
    {
      RegisteredManifest(key).Some?
    }

    /** Answers exactly for registered origins, and with the ledger's manifest where there are two. */
    function ManifestOf(key: Origin): (r: Result<Manifest, Failure>)
      reads this
      ensures r.Ok? <==> key in RegisteredOriginsSync()
      ensures key in state.records && state.records[key].manifest.Some? ==> r == Ok(state.records[key].manifest.value)
      ensures r.Ok? && (key !in state.records || state.records[key].manifest.None?) ==> key in state.pinned && r.value == state.pinned[key]
      ensures r.Err? ==> r.error == NotRegistered
    {
      if RegisteredManifest(key).Some? then Ok(RegisteredManifest(key).value) else Err(NotRegistered)
    }
  }
}
