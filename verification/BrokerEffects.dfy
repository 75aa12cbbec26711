/**
 What each of the broker's calls does, said of the ledger, the handles, the picks and what is stored before and after it, and
 not by way of the functions that the calls are made of.
 */
module BrokerEffects {
  import opened Results
  import opened HandleTable
  import opened GrantLedger
  import opened BrokerState
  import opened BrokerRuns
  import Versions

  function HandlesOf(w: World, key: Origin): map<HandleId, Handle> {
    TableIn(w.tables, key).handles
  }

  /** Storage holds these grants, each with its patterns and the time it was given. */
  ghost predicate StoredAs(stored: map<Capability, StoredGrant>, grants: map<Capability, GrantRecord>) {
    && stored.Keys == grants.Keys
    && forall c :: c in grants ==> stored[c].patterns == grants[c].patterns && stored[c].grantedAt == grants[c].grantedAt
  }

  lemma ToStoreIsStored(grants: map<Capability, GrantRecord>)
    ensures StoredAs(ToStore(grants), grants)
  {
  }

  /** Nothing of an origin but its grants, its handles and work, and what is stored of its grants. */
  ghost predicate RestKept(w: World, w': World, key: Origin) {
    && StoredIn(w'.stored, key).floor == StoredIn(w.stored, key).floor
    && (key in w.records ==> key in w'.records && w'.records[key] == w.records[key].(grants := w'.records[key].grants))
    && w'.picks == w.picks && w'.opening == w.opening && w'.pinned == w.pinned
  }

  // ---------------------------------------------------------------- granting

  /** What a handle answers to patterns that replace those it stands under: its own test, or where it has none the covering of old by new. */
  predicate Accepts(handle: Handle, patterns: seq<Pattern>, covers: bool) {
    match handle.covered
    case Some(test) => test(patterns)
    case None => covers
  }

  /** Of the handles under the grant `g`, just those stay that may, under `g'`; no other handle is touched. */
  ghost predicate Refiled(h: map<HandleId, Handle>, h': map<HandleId, Handle>, g: GrantId, g': GrantId, patterns: seq<Pattern>, covers: bool) {
    && h'.Keys <= h.Keys
    && (forall id :: id in h && h[id].auth != ByGrant(g) ==> id in h' && h'[id] == h[id])
    && (forall id :: id in h && h[id].auth == ByGrant(g) && h[id].parent.None? ==> (id in h' <==> Accepts(h[id], patterns, covers)))
    && (forall id :: id in h && h[id].auth == ByGrant(g) && h[id].parent.Some? ==>
          (id in h' <==> h[id].parent.value in h' && Accepts(h[h[id].parent.value], patterns, covers)))
    && (forall id :: id in h' && h[id].auth == ByGrant(g) ==> h'[id] == h[id].(auth := ByGrant(g')))
  }

  lemma ReplacedIsRefiled(t: Table, g: GrantId, g': GrantId, patterns: seq<Pattern>, covers: bool)
    requires TreeOk(t.handles)
    ensures Refiled(t.handles, Replace(t, g, g', patterns, covers).handles, g, g', patterns, covers)
  {
    hide Replace;
    var h, h' := t.handles, Replace(t, g, g', patterns, covers).handles;
    forall id: HandleId
      ensures id in h' ==> id in h && (h[id].auth == ByGrant(g) ==> h'[id] == h[id].(auth := ByGrant(g')))
      ensures id in h && h[id].auth != ByGrant(g) ==> id in h' && h'[id] == h[id]
      ensures id in h && h[id].auth == ByGrant(g) && h[id].parent.None? ==> (id in h' <==> Accepts(h[id], patterns, covers))
      ensures id in h && h[id].auth == ByGrant(g) && h[id].parent.Some? ==>
                (id in h' <==> h[id].parent.value in h' && Accepts(h[h[id].parent.value], patterns, covers))
    {
      ReplaceKeepsExactly(t, g, g', patterns, covers, id);
      if id in h && h[id].parent.Some? {
        ReplaceKeepsExactly(t, g, g', patterns, covers, h[id].parent.value);
      }
    }
  }

  /** Work in flight that a replaced grant answered for goes over to the new grant where that covers it, and is cancelled where not. */
  ghost predicate WorkMoves(t: Table, t': Table, g: GrantId, g': GrantId, covers: bool) {
    if covers then
      t'.pending == t.pending && t'.tombstones == t.tombstones
      && forall op :: op in t.pending ==> Current(t', t.pending[op]) == if Current(t, t.pending[op]) == g then g' else Current(t, t.pending[op])
    else
      && t'.aliases == t.aliases && g in t'.tombstones
      && (forall op :: op in t'.pending <==> op in t.pending && t.pending[op] != g)
      && (forall op :: op in t'.pending ==> t'.pending[op] == t.pending[op])
  }

  lemma ReplacedWorkMoves(t: Table, g: GrantId, g': GrantId, patterns: seq<Pattern>, covers: bool)
    requires g !in t.aliases
    ensures WorkMoves(t, Replace(t, g, g', patterns, covers), g, g', covers)
  {
    hide CloseTrees, Uncovered;
  }

  lemma GrantTouchesNoOther(policy: Policy, w: World, key: Origin, c: Capability, patterns: seq<Pattern>, now: nat, writeFails: bool)
    ensures var w' := GrantStep(policy, w, key, c, patterns, now, writeFails);
      && GrantsIn(w'.records, key) == GrantsIn(w.records, key)[c := GrantRecord(w.nextId, patterns, now)]
      && RestKept(w, w', key) && w'.scripts == w.scripts && w'.changes == w.changes + [key]
      && (if policy.persistable(key) && !writeFails then StoredAs(StoredIn(w'.stored, key).grants, GrantsIn(w'.records, key)) else w'.stored == w.stored)
  {
    hide Regranted, CoversOld, Lost, ToStore, StoredAs, FloorOf;
    ToStoreIsStored(GrantsIn(w.records, key)[c := GrantRecord(w.nextId, patterns, now)]);
  }

  /**
   Granting puts the new grant in the place of any old one, in the ledger and, where it is written, in storage. Of the handles
   under the old one just those stay that accept the new patterns, all the way up to where they derive from, now under the new
   grant; and its work in flight goes over or is cancelled.
   */
  lemma GrantDoes(policy: Policy, w: World, key: Origin, c: Capability, patterns: seq<Pattern>, now: nat, writeFails: bool)
    requires WorldOk(w)
    ensures var w', was := GrantStep(policy, w, key, c, patterns, now, writeFails), GrantsIn(w.records, key);
      && GrantsIn(w'.records, key) == was[c := GrantRecord(w.nextId, patterns, now)]
      && RestKept(w, w', key) && w'.scripts == w.scripts && w'.changes == w.changes + [key]
      && (if policy.persistable(key) && !writeFails then StoredAs(StoredIn(w'.stored, key).grants, GrantsIn(w'.records, key)) else w'.stored == w.stored)
      && (c !in was ==> TableIn(w'.tables, key) == TableIn(w.tables, key))
      && (c in was ==> var covers := policy.coversAll(c, patterns, was[c].patterns);
            && Refiled(HandlesOf(w, key), HandlesOf(w', key), was[c].id, w.nextId, patterns, covers)
            && WorkMoves(TableIn(w.tables, key), TableIn(w'.tables, key), was[c].id, w.nextId, covers))
  {
    var was, t := GrantsIn(w.records, key), TableIn(w.tables, key);
    GrantTouchesNoOther(policy, w, key, c, patterns, now, writeFails);
    TablesAreTrees(w, key);
    if c in was {
      var covers := policy.coversAll(c, patterns, was[c].patterns);
      LiveIsNoAlias(w, key, c);
      ReplacedIsRefiled(t, was[c].id, w.nextId, patterns, covers);
      ReplacedWorkMoves(t, was[c].id, w.nextId, patterns, covers);
    }
    hide Refiled, WorkMoves, StoredAs, RestKept, WorldOk, Replace, RecordIn, Lost, ToStore, StoredIn, GrantsIn, WithIds;
  }

  lemma LiveIsNoAlias(w: World, key: Origin, c: Capability)
    requires WorldOk(w) && c in GrantsIn(w.records, key)
    ensures GrantsIn(w.records, key)[c].id !in TableIn(w.tables, key).aliases
  {
    assert OriginHolds(w, key);
    LiveIdIsLive(GrantsIn(w.records, key), c);
  }

  // ---------------------------------------------------------------- revoking

  /** The authorisations that go with a grant: its own, and those of the grants it replaced and took the work over from. */
  ghost predicate GoesWith(t: Table, auth: Authorisation, g: GrantId) {
    auth.ByGrant? && (auth.grant == g || (auth.grant in t.aliases && t.aliases[auth.grant] == g))
  }

  /** Just the handles and the work under a grant go, and the grant is remembered. */
  ghost predicate Withdrawn(t: Table, t': Table, g: GrantId) {
    && (forall id :: id in t'.handles <==> id in t.handles && !GoesWith(t, t.handles[id].auth, g))
    && (forall id :: id in t'.handles ==> t'.handles[id] == t.handles[id])
    && (forall op :: op in t'.pending <==> op in t.pending && !GoesWith(t, ByGrant(t.pending[op]), g))
    && (forall op :: op in t'.pending ==> t'.pending[op] == t.pending[op])
    && (forall a :: a in t'.aliases <==> a in t.aliases && t.aliases[a] != g)
    && (forall a :: a in t'.aliases ==> t'.aliases[a] == t.aliases[a])
  }

  lemma RevokedIsWithdrawn(t: Table, g: GrantId)
    requires TreeOk(t.handles)
    ensures Withdrawn(t, Revoke(t, g), g)
  {
    hide CloseTrees, FiledUnder, RememberAll, Remember;
    RevokeIsExact(t, g);
  }

  function Below(gs: set<GrantId>, n: nat): set<GrantId> {
    set g | g in gs && g < n
  }

  lemma {:induction false} RememberAllHolds(memory: seq<GrantId>, gs: set<GrantId>, n: nat)
    requires |memory| + |Below(gs, n)| <= REVOKED_GRANT_MEMORY
    ensures |RememberAll(memory, gs, n)| <= |memory| + |Below(gs, n)|
    ensures forall g :: g in RememberAll(memory, gs, n) <==> g in memory || (g in gs && g < n)
    ensures memory <= RememberAll(memory, gs, n)
  {
    if n > 0 {
      var m := n - 1;
      assert Below(gs, n) == Below(gs, m) + if m in gs then {m} else {};
      RememberAllHolds(memory, gs, m);
      if m in gs {
        RememberOne(RememberAll(memory, gs, m), m);
      }
    }
  }

  lemma RememberOne(memory: seq<GrantId>, g: GrantId)
    requires |memory| < REVOKED_GRANT_MEMORY || g in memory
    ensures Remember(memory, g) == (if g in memory then memory else memory + [g])
    ensures forall x :: x in Remember(memory, g) <==> x in memory || x == g
  {
  }

  /** While there is room a revocation adds to the memory just the grant and those whose work it had taken over, each once, and drops none. */
  lemma RevokedIsRemembered(t: Table, g: GrantId)
    requires |t.tombstones| + |AliasesOf(t, g)| < REVOKED_GRANT_MEMORY
    ensures t.tombstones <= Revoke(t, g).tombstones
    ensures forall x :: x in Revoke(t, g).tombstones <==> x in t.tombstones || x == g || (x in t.aliases && t.aliases[x] == g && x < g)
    ensures g in t.tombstones && AliasesOf(t, g) == {} ==> Revoke(t, g).tombstones == t.tombstones
  {
    var was := Remember(t.tombstones, g);
    RememberOne(t.tombstones, g);
    SubsetIsNoLarger(Below(AliasesOf(t, g), g), AliasesOf(t, g));
    RememberAllHolds(was, AliasesOf(t, g), g);
    if AliasesOf(t, g) == {} {
      NoneRemembered(was, g);
    }
    hide CloseTrees, RememberAll, Remember, Below;
  }

  lemma {:induction false} NoneRemembered(memory: seq<GrantId>, n: nat)
    ensures RememberAll(memory, {}, n) == memory
  {
    if n > 0 {
      NoneRemembered(memory, n - 1);
    }
  }

  /** The ledger without the grant of an id. */
  ghost predicate LeftOf(was: map<Capability, GrantRecord>, after: map<Capability, GrantRecord>, id: GrantId) {
    && (forall c :: c in after <==> c in was && was[c].id != id)
    && (forall c :: c in after ==> after[c] == was[c])
  }

  /** A script goes with the grant of `web.embed`, and with no other. */
  ghost predicate ScriptGoesWith(w: World, w': World, key: Origin, embedGoes: bool) {
    w'.scripts == if embedGoes then w.scripts - {key} else w.scripts
  }

  lemma RevokeTouchesNoOther(policy: Policy, w: World, key: Origin, id: GrantId, writeFails: bool)
    ensures var w', was := RevokeStep(policy, w, key, id, writeFails), GrantsIn(w.records, key);
      && LeftOf(was, GrantsIn(w'.records, key), id)
      && RestKept(w, w', key) && ScriptGoesWith(w, w', key, WebEmbed in was && was[WebEmbed].id == id) && w'.changes == w.changes + [key]
      && (if policy.persistable(key) && !writeFails && exists c :: c in was && was[c].id == id
          then StoredAs(StoredIn(w'.stored, key).grants, GrantsIn(w'.records, key)) else w'.stored == w.stored)
  {
    hide Revoke, Lost, ToStore, StoredAs, WithIds;
    ToStoreIsStored(WithoutGrant(GrantsIn(w.records, key), id));
  }

  /** Revoking by id takes the grant of that id, its script if it is `web.embed`, and just the handles and the work that go with it. */
  lemma RevokeDoes(policy: Policy, w: World, key: Origin, id: GrantId, writeFails: bool)
    requires WorldOk(w)
    ensures var w', was := RevokeStep(policy, w, key, id, writeFails), GrantsIn(w.records, key);
      && LeftOf(was, GrantsIn(w'.records, key), id)
      && RestKept(w, w', key) && ScriptGoesWith(w, w', key, WebEmbed in was && was[WebEmbed].id == id) && w'.changes == w.changes + [key]
      && (if policy.persistable(key) && !writeFails && exists c :: c in was && was[c].id == id
          then StoredAs(StoredIn(w'.stored, key).grants, GrantsIn(w'.records, key)) else w'.stored == w.stored)
      && Withdrawn(TableIn(w.tables, key), TableIn(w'.tables, key), id)
  {
    RevokeTouchesNoOther(policy, w, key, id, writeFails);
    TablesAreTrees(w, key);
    RevokedIsWithdrawn(TableIn(w.tables, key), id);
    hide Revoke, Lost, ToStore, StoredAs, WithIds, LeftOf, RestKept, ScriptGoesWith, Withdrawn, WorldOk, WithGrants, WithoutGrant, StoredIn, GrantsIn;
  }

  lemma RevokePersistedTouchesNoOther(w: World, key: Origin, c: Capability, writeFails: bool)
    ensures var w', was, held := RevokePersistedStep(w, key, c, writeFails), GrantsIn(w.records, key), StoredIn(w.stored, key);
      && GrantsIn(w'.records, key) == was - {c}
      && RestKept(w, w', key) && ScriptGoesWith(w, w', key, c == WebEmbed && WebEmbed in was)
      && StoredIn(w'.stored, key).grants == (if writeFails then held.grants else held.grants - {c})
      && w'.changes == (if (c in was || c in held.grants) && !(c in held.grants && writeFails) then w.changes + [key] else w.changes)
  {
    hide RevokeIn, Lost, WithIds;
  }

  /** Revoking a capability, of an app that may not be loaded, takes its grant from the ledger and from storage, and the handles with it. */
  lemma RevokePersistedDoes(w: World, key: Origin, c: Capability, writeFails: bool)
    requires WorldOk(w)
    ensures var w', was, held := RevokePersistedStep(w, key, c, writeFails), GrantsIn(w.records, key), StoredIn(w.stored, key);
      && GrantsIn(w'.records, key) == was - {c}
      && RestKept(w, w', key) && ScriptGoesWith(w, w', key, c == WebEmbed && WebEmbed in was)
      && StoredIn(w'.stored, key).grants == (if writeFails then held.grants else held.grants - {c})
      && w'.changes == (if (c in was || c in held.grants) && !(c in held.grants && writeFails) then w.changes + [key] else w.changes)
      && (if c in was then Withdrawn(TableIn(w.tables, key), TableIn(w'.tables, key), was[c].id) else TableIn(w'.tables, key) == TableIn(w.tables, key))
  {
    RevokePersistedTouchesNoOther(w, key, c, writeFails);
    TablesAreTrees(w, key);
    var was := GrantsIn(w.records, key);
    if c in was {
      RevokedIsWithdrawn(TableIn(w.tables, key), was[c].id);
    }
    hide Revoke, Lost, WithIds, RestKept, ScriptGoesWith, Withdrawn, WorldOk, WithGrants, StoredIn, GrantsIn, RevokePersistedResult;
  }

  // ---------------------------------------------------------------- restoring

  /** Every grant that storage holds and the manifest still admits, as it admits it: under the id it has where the same patterns are live. */
  ghost predicate RestoredFrom(policy: Policy, manifest: Manifest, stored: map<Capability, StoredGrant>, was: map<Capability, GrantRecord>, after: map<Capability, GrantRecord>, next: nat) {
    && (forall c :: c in after <==> c in stored && policy.decide(manifest, c, stored[c].patterns).Some?)
    && (forall c :: c in after ==>
          var admitted := policy.decide(manifest, c, stored[c].patterns).value;
          if c in was && multiset(was[c].patterns) == multiset(admitted)
          then after[c] == was[c]
          else after[c].id >= next && after[c].patterns == admitted && after[c].grantedAt == stored[c].grantedAt)
  }

  lemma HydratedIsRestored(policy: Policy, manifest: Manifest, stored: map<Capability, StoredGrant>, was: map<Capability, GrantRecord>, after: map<Capability, GrantRecord>, next: nat)
    requires Hydrated(policy, manifest, stored, was, after, next)
    ensures RestoredFrom(policy, manifest, stored, was, after, next)
  {
    forall c
      ensures c in after <==> c in stored && policy.decide(manifest, c, stored[c].patterns).Some?
      ensures c in after ==>
                var admitted := policy.decide(manifest, c, stored[c].patterns).value;
                if c in was && multiset(was[c].patterns) == multiset(admitted)
                then after[c] == was[c]
                else after[c].id >= next && after[c].patterns == admitted && after[c].grantedAt == stored[c].grantedAt
    {
      assert HydratedAt(policy, manifest, stored, was, after, next, c);
    }
  }

  /** The handles under any of these grants, or under one whose work one of these took over, go and no others do. */
  ghost predicate AllWithdrawn(t: Table, t': Table, gone: set<GrantId>) {
    && (forall id :: id in t'.handles <==> id in t.handles && forall g :: g in gone ==> !GoesWith(t, t.handles[id].auth, g))
    && (forall id :: id in t'.handles ==> t'.handles[id] == t.handles[id])
    && (forall op :: op in t'.pending <==> op in t.pending && forall g :: g in gone ==> !GoesWith(t, ByGrant(t.pending[op]), g))
    && (forall op :: op in t'.pending ==> t'.pending[op] == t.pending[op])
    && (forall a :: a in t'.aliases <==> a in t.aliases && t.aliases[a] !in gone)
    && (forall a :: a in t'.aliases ==> t'.aliases[a] == t.aliases[a])
  }

  lemma OneMoreWithdrawn(t: Table, t': Table, t'': Table, gone: set<GrantId>, g: GrantId)
    requires AllWithdrawn(t, t', gone) && Withdrawn(t', t'', g)
    ensures AllWithdrawn(t, t'', gone + {g})
  {
    forall auth: Authorisation | forall x :: x in gone ==> !GoesWith(t, auth, x)
      ensures GoesWith(t', auth, g) <==> GoesWith(t, auth, g)
    {
      assert auth.ByGrant? && auth.grant in t.aliases ==> GoesWith(t, auth, t.aliases[auth.grant]);
    }
    assert forall x :: x in gone + {g} <==> x in gone || x == g;
    hide GoesWith;
  }

  lemma {:induction false} RevokedEachIsWithdrawn(t: Table, order: seq<GrantId>)
    requires TreeOk(t.handles) && |t.tombstones| <= REVOKED_GRANT_MEMORY
    ensures AllWithdrawn(t, RevokeEach(t, order), Elements(order))
  {
    hide Revoke, Withdrawn;
    if order == [] {
      NothingRevoked(t);
    } else {
      hide AllWithdrawn;
      var front, last := order[..|order| - 1], order[|order| - 1];
      assert order == front + [last];
      RevokedEachIsWithdrawn(t, front);
      RevokeEachIsRevoked(t, front);
      RevokedIsTable(t, RevokeEach(t, front), Elements(front));
      RevokeOneMore(t, front, last);
      RevokedIsWithdrawn(RevokeEach(t, front), last);
      OneMoreWithdrawn(t, RevokeEach(t, front), RevokeEach(t, order), Elements(front), last);
    }
  }

  /** The grants that were live and are no more, or are live under another id. */
  ghost function Superseded(was: map<Capability, GrantRecord>, after: map<Capability, GrantRecord>): set<GrantId> {
    set c | c in was && !(c in after && after[c].id == was[c].id) :: was[c].id
  }

  lemma SupersededAreSuperseded(policy: Policy, manifest: Manifest, stored: map<Capability, StoredGrant>, was: map<Capability, GrantRecord>, after: map<Capability, GrantRecord>, next: nat)
    requires DistinctIds(was, next) && Hydrated(policy, manifest, stored, was, after, next)
    ensures SupersededBy(policy, manifest, stored, was) == Superseded(was, after)
  {
    forall c | c in was
      ensures KeptByHydration(policy, manifest, stored, was, c) <==> c in after && after[c].id == was[c].id
    {
      assert HydratedAt(policy, manifest, stored, was, after, next, c);
    }
  }

  /** The floor an origin has: of its record, or before it has one the stored floor, where it is above the first version or of no order at all. */
  ghost function FloorBefore(policy: Policy, w: World, key: Origin): Version {
    if key in w.records then w.records[key].floor
    else
      match StoredIn(w.stored, key).floor
      case None => "0.0.0"
      case Some(v) => if policy.persistable(key) && (policy.newer(v, "0.0.0") || !policy.orderable(v)) then v else "0.0.0"
  }

  /** Whether the app itself has registered since the broker started. */
  ghost predicate HasRegistered(w: World, key: Origin) {
    key in w.records && w.records[key].hydrated
  }

  /** Until then, and for an origin whose state may be stored, the grants become those restored, and the handles of the rest go. */
  ghost predicate GrantsRestored(policy: Policy, w: World, w': World, key: Origin, manifest: Manifest) {
    var was, after := GrantsIn(w.records, key), GrantsIn(w'.records, key);
    if HasRegistered(w, key) || !policy.persistable(key)
    then after == was && TableIn(w'.tables, key) == TableIn(w.tables, key)
    else
      && RestoredFrom(policy, manifest, StoredIn(w.stored, key).grants, was, after, w.nextId)
      && AllWithdrawn(TableIn(w.tables, key), TableIn(w'.tables, key), Superseded(was, after))
  }

  lemma RestoreStepDoes(policy: Policy, w: World, key: Origin, record: Record, manifest: Manifest, restores: bool, w': World)
    requires WorldOk(w) && RestoreStep(policy, w, key, record, manifest, restores, w')
    requires restores <==> !HasRegistered(w, key) && policy.persistable(key)
    ensures GrantsRestored(policy, w, w', key, manifest)
    ensures key in w'.records && w'.records[key] == record.(grants := w'.records[key].grants)
    ensures w'.picks == w.picks && w'.opening == w.opening && w'.scripts == w.scripts && w'.changes == w.changes && w'.stored == w.stored && w'.pinned == w.pinned
  {
    hide RevokeEach, Lost, WithIds, Hydrated, DistinctIds, Elements, SupersededBy, Superseded, AllWithdrawn, RestoredFrom, WorldOk, TableIn;
    if restores {
      var t, was, held, after := TableIn(w.tables, key), GrantsIn(w.records, key), StoredIn(w.stored, key).grants, GrantsIn(w'.records, key);
      var order :| && Elements(order) == SupersededBy(policy, manifest, held, was)
                   && w' == w.(records := w.records[key := record.(grants := after)], tables := w.tables[key := RevokeEach(t, order)],
                               forgotten := WithIds(w.forgotten, key, Lost(t, RevokeEach(t, order))), nextId := w'.nextId);
      TablesAreTrees(w, key);
      MemoryIsBounded(w, key);
      RevokedEachIsWithdrawn(t, order);
      HydratedIsRestored(policy, manifest, held, was, after, w.nextId);
      GrantIdsAreDistinct(w, key);
      SupersededAreSuperseded(policy, manifest, held, was, after, w.nextId);
      TableThere(w.tables, key, RevokeEach(t, order));
    }
  }

  lemma TableThere(tables: map<Origin, Table>, key: Origin, t: Table)
    ensures TableIn(tables[key := t], key) == t
  {
  }

  lemma MemoryIsBounded(w: World, key: Origin)
    requires WorldOk(w)
    ensures |TableIn(w.tables, key).tombstones| <= REVOKED_GRANT_MEMORY
  {
    assert OriginHolds(w, key);
  }

  /**
   Registering sets the manifest and restores the grants the first time. The floor starts from the one stored, rises to a newer
   version and to no other, and is written out when it rises.
   */
  lemma RegisterDoes(policy: Policy, w: World, key: Origin, manifest: Manifest, writeFails: bool, w': World)
    requires WorldOk(w) && RegisterStep(policy, w, key, manifest, writeFails, w')
    ensures GrantsRestored(policy, w, w', key, manifest)
    ensures var floor := FloorBefore(policy, w, key); var rises := policy.newer(manifest.version, floor);
      && key in w'.records
      && w'.records[key] == Record(Some(manifest), w'.records[key].grants, true, if rises then manifest.version else floor)
      && StoredIn(w'.stored, key).floor == (if rises && policy.persistable(key) && !writeFails then Some(manifest.version) else StoredIn(w.stored, key).floor)
      && StoredIn(w'.stored, key).grants == StoredIn(w.stored, key).grants
    ensures w'.picks == w.picks && w'.opening == w.opening && w'.scripts == w.scripts && w'.changes == w.changes && w'.pinned == w.pinned
  {
    hide WorldOk, RestoreStep, GrantsRestored;
    var w0 := w'.(stored := w.stored);
    RestoreStepDoes(policy, w, key, RegisteredRecord(policy, w, key, manifest), manifest, Restores(policy, w, key), w0);
    RestoredIsNotStored(policy, w, w0, w', key, manifest);
  }

  lemma RestoredIsNotStored(policy: Policy, w: World, w0: World, w': World, key: Origin, manifest: Manifest)
    requires GrantsRestored(policy, w, w0, key, manifest) && w'.records == w0.records && w'.tables == w0.tables
    ensures GrantsRestored(policy, w, w', key, manifest)
  {
    hide RestoredFrom, AllWithdrawn;
  }

  /** Hydrating from a pinned manifest restores the grants until the app registers, and pins the manifest; the floor only starts. */
  lemma PinDoes(policy: Policy, w: World, key: Origin, manifest: Manifest, w': World)
    requires WorldOk(w) && PinStep(policy, w, key, manifest, w')
    ensures GrantsRestored(policy, w, w', key, manifest)
    ensures key in w'.records && w'.records[key].floor == FloorBefore(policy, w, key) && (w'.records[key].hydrated <==> HasRegistered(w, key))
    ensures w'.records[key].manifest == if key in w.records then w.records[key].manifest else None
    ensures w'.stored == w.stored && w'.pinned == w.pinned[key := manifest]
    ensures w'.picks == w.picks && w'.opening == w.opening && w'.scripts == w.scripts && w'.changes == w.changes
  {
    hide WorldOk, RestoreStep, GrantsRestored;
    var w0 := w'.(pinned := w.pinned);
    RestoreStepDoes(policy, w, key, RecordIn(policy, w.records, w.stored, key), manifest, Restores(policy, w, key), w0);
    RestoredIsNotStored(policy, w, w0, w', key, manifest);
  }

  /** What a call leaves of an origin's floor in memory, where it leaves a record. */
  lemma FloorStarts(policy: Policy, w: World, call: Call, w': World)
    requires WorldOk(w) && Step(policy, w, call, w') && call.key in w'.records
    ensures var floor := FloorBefore(policy, w, call.key);
      w'.records[call.key].floor == if call.Registered? && policy.newer(call.manifest.version, floor) then call.manifest.version else floor
  {
    hide WorldOk, GrantStep, RevokeStep, RevokePersistedStep, RegisterStep, PinStep;
    match call
    case Registered(key, manifest, writeFails) => RegisterDoes(policy, w, key, manifest, writeFails, w');
    case Pinned(key, manifest) => PinDoes(policy, w, key, manifest, w');
    case Granted(key, c, patterns, now, writeFails) => GrantStartsFloor(policy, w, key, c, patterns, now, writeFails);
    case _ => OtherFloorsStay(policy, w, call, w');
  }

  lemma GrantStartsFloor(policy: Policy, w: World, key: Origin, c: Capability, patterns: seq<Pattern>, now: nat, writeFails: bool)
    ensures var w' := GrantStep(policy, w, key, c, patterns, now, writeFails);
      key in w'.records && w'.records[key].floor == FloorBefore(policy, w, key)
  {
    hide Regranted, CoversOld, Lost, ToStore, WithIds, GrantsIn;
  }

  lemma OtherFloorsStay(policy: Policy, w: World, call: Call, w': World)
    requires Step(policy, w, call, w') && !call.Granted? && !call.Registered? && !call.Pinned? && call.key in w'.records
    ensures call.key in w.records && w'.records[call.key].floor == w.records[call.key].floor
  {
    if call.GrantRevoked? || call.CapabilityRevoked? || call.RecordForgotten? {
      hide Revoke, RevokeIn, Lost, ToStore, WithoutGrant, RegisterStep, PinStep, GrantStep, StoredIn, WithIds, DroppedWithRecord, TableIn, RevokePersistedResult;
    } else {
      hide GrantStep, RevokeStep, RevokePersistedStep, RegisterStep, PinStep, FloorBefore, Step;
      LedgerStays(policy, w, call, w');
    }
  }

  // ---------------------------------------------------------------- the floor over restarts

  /** What a call leaves of the floor that storage holds: a version that raised it and was written, nothing once deleted, or what it was. */
  lemma StoredFloorMoves(policy: Policy, w: World, call: Call, w': World)
    requires WorldOk(w) && Step(policy, w, call, w')
    ensures StoredIn(w'.stored, call.key).floor
         == if call.Registered? && policy.newer(call.manifest.version, FloorBefore(policy, w, call.key)) && policy.persistable(call.key) && !call.writeFails
            then Some(call.manifest.version)
            else if call.RecordForgotten? && call.deleted >= 1 then None
            else StoredIn(w.stored, call.key).floor
  {
    hide WorldOk, GrantStep, RevokeStep, RevokePersistedStep, RegisterStep, PinStep, FloorBefore;
    match call
    case Registered(key, manifest, writeFails) => RegisterDoes(policy, w, key, manifest, writeFails, w');
    case Pinned(key, manifest) => PinDoes(policy, w, key, manifest, w');
    case Granted(key, c, patterns, now, writeFails) => GrantTouchesNoOther(policy, w, key, c, patterns, now, writeFails);
    case GrantRevoked(key, id, writeFails) => RevokeTouchesNoOther(policy, w, key, id, writeFails);
    case CapabilityRevoked(key, c, writeFails) => RevokePersistedTouchesNoOther(w, key, c, writeFails);
    case RecordForgotten(_, _) => hide DroppedWithRecord, WithIds;
    case _ =>
      hide Step, StoredIn;
      LedgerStays(policy, w, call, w');
  }

  /** An order, of versions that can be ordered, as `Versions.NewerIsAnOrder` shows of semantic versions. */
  ghost predicate VersionOrder(policy: Policy) {
    NewerIsAnOrder(policy) && forall a, b :: policy.newer(a, b) ==> policy.orderable(a) && policy.orderable(b)
  }

  lemma SemanticVersionsAreOrdered(policy: Policy)
    requires forall a, b :: policy.newer(a, b) <==> Versions.Newer(a, b)
    requires forall a :: policy.orderable(a) <==> Versions.CompareVersions(a, a).Some?
    ensures VersionOrder(policy)
  {
    forall a, b, c
      ensures !policy.newer(a, a)
      ensures policy.newer(a, b) && policy.newer(b, c) ==> policy.newer(a, c)
      ensures policy.newer(a, b) ==> policy.orderable(a) && policy.orderable(b)
    {
      hide Versions.Newer, Versions.CompareVersions;
      Versions.NewerIsAnOrder(a, b, c);
    }
  }

  ghost predicate AtLeast(policy: Policy, a: Version, b: Version) {
    a == b || policy.newer(a, b)
  }

  /** A stored floor that a record starts from: above the first version, or of no order at all. */
  ghost predicate Counts(policy: Policy, v: Version) {
    policy.newer(v, "0.0.0") || !policy.orderable(v)
  }

  /** The floor `u` in storage and the one in memory, where there is one, are up with `v`. */
  ghost predicate Up(policy: Policy, v: Version, u: Version, floor: Option<Version>) {
    if Counts(policy, v)
    then AtLeast(policy, u, v) && (floor.Some? ==> AtLeast(policy, floor.value, u))
    else (u == v || policy.newer(u, "0.0.0"))
         && (floor.Some? ==> AtLeast(policy, floor.value, "0.0.0") && (u == v || AtLeast(policy, floor.value, u)))
  }

  function FloorInMemory(w: World, key: Origin): Option<Version> {
    if key in w.records then Some(w.records[key].floor) else None
  }

  /** The floor that storage held at the start is kept up with, both there and in memory. */
  ghost predicate KeepsUp(policy: Policy, w: World, key: Origin, v: Version) {
    StoredIn(w.stored, key).floor.Some? && Up(policy, v, StoredIn(w.stored, key).floor.value, FloorInMemory(w, key))
  }

  /** The floor a record starts from, where there is none yet. */
  ghost function Begins(policy: Policy, u: Version, floor: Option<Version>): Version {
    if floor.Some? then floor.value else if Counts(policy, u) then u else "0.0.0"
  }

  lemma StaysUp(policy: Policy, v: Version, u: Version, floor: Option<Version>)
    requires VersionOrder(policy) && Up(policy, v, u, floor)
    ensures Up(policy, v, u, Some(Begins(policy, u, floor)))
  {
  }

  lemma RaisesUp(policy: Policy, v: Version, u: Version, floor: Option<Version>, version: Version)
    requires VersionOrder(policy) && Up(policy, v, u, floor) && policy.newer(version, Begins(policy, u, floor))
    ensures Up(policy, v, u, Some(version)) && Up(policy, v, version, Some(version))
  {
    StaysUp(policy, v, u, floor);
  }

  ghost predicate FloorKept(calls: seq<Call>, n: nat, key: Origin)
    requires n <= |calls|
  {
    forall i :: 0 <= i < n && calls[i].key == key && calls[i].RecordForgotten? ==> calls[i].deleted == 0
  }

  lemma StepKeepsUp(policy: Policy, w: World, call: Call, w': World, v: Version)
    requires WorldOk(w) && Step(policy, w, call, w') && VersionOrder(policy) && policy.persistable(call.key)
    requires KeepsUp(policy, w, call.key, v) && (call.RecordForgotten? ==> call.deleted == 0)
    ensures KeepsUp(policy, w', call.key, v)
  {
    StoredFloorMoves(policy, w, call, w');
    if call.key in w'.records {
      FloorStarts(policy, w, call, w');
    }
    var u, floor := StoredIn(w.stored, call.key).floor.value, FloorInMemory(w, call.key);
    BeginsFromBefore(policy, w, call.key);
    if call.Registered? && policy.newer(call.manifest.version, Begins(policy, u, floor)) {
      RaisesUp(policy, v, u, floor, call.manifest.version);
      RegisteredHasRecord(policy, w, call, w');
    } else {
      StaysUp(policy, v, u, floor);
      LessIsUp(policy, v, u, floor);
    }
    hide WorldOk, Step, StoredIn, Up, VersionOrder, FloorBefore, Begins;
  }

  lemma RegisteredHasRecord(policy: Policy, w: World, call: Call, w': World)
    requires WorldOk(w) && Step(policy, w, call, w') && call.Registered?
    ensures call.key in w'.records
  {
    hide WorldOk, RegisterStep;
    RegisterDoes(policy, w, call.key, call.manifest, call.writeFails, w');
  }

  lemma LessIsUp(policy: Policy, v: Version, u: Version, floor: Option<Version>)
    requires Up(policy, v, u, floor)
    ensures Up(policy, v, u, None)
  {
  }

  lemma BeginsFromBefore(policy: Policy, w: World, key: Origin)
    requires StoredIn(w.stored, key).floor.Some? && policy.persistable(key)
    ensures FloorBefore(policy, w, key) == Begins(policy, StoredIn(w.stored, key).floor.value, FloorInMemory(w, key))
  {
  }

  lemma {:induction false} RunKeepsUp(policy: Policy, ws: seq<World>, calls: seq<Call>, n: nat, key: Origin, v: Version)
    requires Run(policy, ws, calls) && n < |ws| && VersionOrder(policy) && policy.persistable(key)
    requires StoredIn(ws[0].stored, key).floor == Some(v) && FloorKept(calls, n, key)
    ensures KeepsUp(policy, ws[n], key, v)
  {
    hide Step, KeepsUp, VersionOrder;
    if n == 0 {
      StartKeepsUp(policy, ws[0], key, v);
    } else {
      var m := n - 1;
      RunKeepsUp(policy, ws, calls, m, key, v);
      RunKeepsOk(policy, ws, calls, m);
      if calls[m].key == key {
        StepKeepsUp(policy, ws[m], calls[m], ws[n], v);
      } else {
        StepKeepsOk(policy, ws[m], calls[m], ws[n]);
        SameElsewhere(ws[m].records, ws[n].records, calls[m].key, key);
        SameElsewhere(ws[m].stored, ws[n].stored, calls[m].key, key);
        UpElsewhere(policy, ws[m], ws[n], key, v);
      }
    }
  }

  lemma StartKeepsUp(policy: Policy, w: World, key: Origin, v: Version)
    requires StoredIn(w.stored, key).floor == Some(v) && key !in w.records
    ensures KeepsUp(policy, w, key, v)
  {
  }

  lemma UpElsewhere(policy: Policy, w: World, w': World, key: Origin, v: Version)
    requires KeepsUp(policy, w, key, v) && SameFor(w.records, w'.records, key) && SameFor(w.stored, w'.stored, key)
    ensures KeepsUp(policy, w', key, v)
  {
  }

  /**
   A broker started from storage that holds the floor `v` of an app: until that floor is deleted, neither the floor in storage nor
   the one in memory is ever older, whatever versions register and whichever writes fail. So no restart undoes a floor that
   was written.
   */
  lemma StoredFloorOutlivesRestarts(policy: Policy, ws: seq<World>, calls: seq<Call>, n: nat, key: Origin, v: Version)
    requires Run(policy, ws, calls) && n < |ws| && VersionOrder(policy) && policy.persistable(key)
    requires StoredIn(ws[0].stored, key).floor == Some(v) && FloorKept(calls, n, key)
    ensures StoredIn(ws[n].stored, key).floor.Some? && !policy.newer(v, StoredIn(ws[n].stored, key).floor.value)
    ensures key in ws[n].records ==> !policy.newer(v, ws[n].records[key].floor)
    ensures Counts(policy, v) && key in ws[n].records ==> AtLeast(policy, ws[n].records[key].floor, v)
  {
    RunKeepsUp(policy, ws, calls, n, key, v);
  }

  // ---------------------------------------------------------------- handles

  /** Nothing changes but one origin's table, and the ids given out. */
  ghost predicate OnlyTable(w: World, w': World, key: Origin) {
    && w' == w.(tables := w'.tables, nextId := w'.nextId)
    && SameExcept(w.tables, w'.tables, key)
  }

  ghost predicate SameMemory(t: Table, t': Table) {
    t'.tombstones == t.tombstones && t'.aliases == t.aliases
  }

  /** The handle, and whatever was derived from what closes, are gone; every other handle is as it was. */
  ghost predicate TreeClosed(h: map<HandleId, Handle>, h': map<HandleId, Handle>, id: HandleId) {
    && h'.Keys <= h.Keys && id !in h'
    && (forall x :: x in h' ==> h'[x] == h[x])
    && (forall x :: x in h' && h'[x].parent.Some? ==> h'[x].parent.value in h')
    && (forall x :: x in h && x != id && h[x].parent.None? ==> x in h')
    && (forall x :: x in h && x != id && h[x].parent.Some? && h[x].parent.value in h' ==> x in h')
  }

  lemma ReleasedIsClosed(t: Table, id: HandleId)
    requires TreeOk(t.handles)
    ensures id in t.handles ==> TreeClosed(t.handles, Release(t, id).handles, id)
    ensures id !in t.handles ==> Release(t, id).handles == t.handles
  {
    if id !in t.handles {
      forall x | x in t.handles
        ensures !Doomed(t.handles, {id}, x)
      {
        if Doomed(t.handles, {id}, x) {
          DoomedInTree(t.handles, {id}, x);
        }
      }
    }
  }

  /** Releasing a handle closes it with all that was derived from it, and nothing else; releasing one that is not held changes nothing. */
  lemma ReleaseDoes(w: World, key: Origin, id: HandleId)
    requires WorldOk(w)
    ensures var w' := ReleaseStep(w, key, id);
      && OnlyTable(w, w', key) && w'.nextId == w.nextId
      && TableIn(w'.tables, key) == TableIn(w.tables, key).(handles := HandlesOf(w', key))
      && (id in HandlesOf(w, key) ==> TreeClosed(HandlesOf(w, key), HandlesOf(w', key), id))
      && (id !in HandlesOf(w, key) ==> HandlesOf(w', key) == HandlesOf(w, key))
  {
    TablesAreTrees(w, key);
    ReleasedIsClosed(TableIn(w.tables, key), id);
    hide WorldOk, TreeClosed, CloseTrees;
  }

  predicate IsSocket(handle: Handle) {
    handle.kind.TcpSocket? || handle.kind.TcpServer? || handle.kind.UdpSocket?
  }

  ghost function SocketsOf(h: map<HandleId, Handle>): set<HandleId> {
    set id | id in h && IsSocket(h[id])
  }

  ghost function OfKind(h: map<HandleId, Handle>, kind: Kind): set<HandleId> {
    set id | id in h && h[id].kind == kind
  }

  /** Whether an origin may open one more of a kind: 512 sockets and no more than its own allowance, 64 files, and so on. */
  ghost predicate Room(h: map<HandleId, Handle>, kind: Kind, allowance: nat) {
    match kind
    case File => |OfKind(h, File)| < 64
    case WebContext => |OfKind(h, WebContext)| < 2
    case Embed => |OfKind(h, Embed)| < 32
    case Identity => |OfKind(h, Identity)| < 64
    case _ => |SocketsOf(h)| < 512 && |SocketsOf(h)| < allowance
  }

  lemma CountedAre(h: map<HandleId, Handle>)
    ensures Counted(h, Sockets) == SocketsOf(h)
    ensures Counted(h, Files) == OfKind(h, File) && Counted(h, WebContexts) == OfKind(h, WebContext)
    ensures Counted(h, Embeds) == OfKind(h, Embed) && Counted(h, Identities) == OfKind(h, Identity)
  {
  }

  lemma RoomIsRoom(t: Table, kind: Kind, allowance: nat)
    ensures HasRoom(t, kind, allowance) <==> Room(t.handles, kind, allowance)
  {
    CountedAre(t.handles);
    hide Counted, SocketsOf, OfKind;
  }

  /** The grant that work begun under `g` answers to: `g`, or the one that took it over. */
  ghost function AnswersTo(t: Table, g: GrantId): GrantId {
    if g in t.aliases then t.aliases[g] else g
  }

  lemma FinishedTable(t: Table, op: OperationId, id: HandleId, got: Resource)
    requires op in t.pending
    ensures var g, t' := AnswersTo(t, t.pending[op]), Acquire(t, op, id, got);
      && t'.handles == (if g !in t.tombstones && Room(t.handles, got.kind, got.allowance)
                        then t.handles[id := Handle(got.kind, ByGrant(g), None, got.covered)] else t.handles)
      && t'.pending == t.pending - {op} && SameMemory(t, t')
  {
    RoomIsRoom(t, got.kind, got.allowance);
    hide HasRoom, Room;
  }

  /**
   Work that is done gets the one handle it asks for, of its kind and under the grant it now answers to, iff that grant is not
   remembered as dead and there is room; it is in flight no more. Work that was cancelled changes nothing.
   */
  lemma FinishDoes(w: World, key: Origin, op: OperationId, got: Resource)
    ensures var w', t := FinishStep(w, key, op, got), TableIn(w.tables, key);
      if op !in t.pending then w' == w
      else
        var g, t' := AnswersTo(t, t.pending[op]), TableIn(w'.tables, key);
        && OnlyTable(w, w', key) && w'.nextId == w.nextId + 1
        && t'.handles == (if g !in t.tombstones && Room(t.handles, got.kind, got.allowance)
                          then t.handles[w.nextId := Handle(got.kind, ByGrant(g), None, got.covered)] else t.handles)
        && t'.pending == t.pending - {op} && SameMemory(t, t')
  {
    var t := TableIn(w.tables, key);
    if op in t.pending {
      FinishedTable(t, op, w.nextId, got);
      hide Acquire, Room;
    }
  }

  lemma DerivedTable(t: Table, parent: HandleId, id: HandleId, allowance: nat)
    requires parent in t.handles
    ensures var from := t.handles[parent];
      Derive(t, parent, id, allowance)
      == if IsSocket(from) && (from.auth.ByGrant? ==> AnswersTo(t, from.auth.grant) !in t.tombstones) && Room(t.handles, TcpSocket, allowance)
         then t.(handles := t.handles[id := Handle(TcpSocket, from.auth, Some(parent), None)]) else t
  {
    RoomIsRoom(t, TcpSocket, allowance);
    hide HasRoom, Room;
  }

  /** A connection accepted on a socket that is held becomes a handle under its authorisation, closed with it, iff there is room. */
  lemma DeriveDoes(w: World, key: Origin, parent: HandleId, allowance: nat)
    ensures var w', t := DeriveStep(w, key, parent, allowance), TableIn(w.tables, key);
      if parent !in t.handles then w' == w
      else
        var from, t' := t.handles[parent], TableIn(w'.tables, key);
        && OnlyTable(w, w', key) && w'.nextId == w.nextId + 1
        && t' == if IsSocket(from) && (from.auth.ByGrant? ==> AnswersTo(t, from.auth.grant) !in t.tombstones) && Room(t.handles, TcpSocket, allowance)
                 then t.(handles := t.handles[w.nextId := Handle(TcpSocket, from.auth, Some(parent), None)]) else t
  {
    var t := TableIn(w.tables, key);
    if parent in t.handles {
      DerivedTable(t, parent, w.nextId, allowance);
      hide Derive, Room;
    }
  }

  /** A capability call begins work under the grant that is held, or does nothing. */
  lemma BeginDoes(w: World, key: Origin, c: Capability)
    ensures var w', t, grants := BeginStep(w, key, c), TableIn(w.tables, key), GrantsIn(w.records, key);
      if c !in grants then w' == w
      else OnlyTable(w, w', key) && w'.nextId == w.nextId + 1 && TableIn(w'.tables, key) == t.(pending := t.pending[w.nextId := grants[c].id])
  {
  }

  /** A picked file that is open gets a handle under its pick, whether or not the pick still stands, iff there is room. */
  lemma PickOpenedDoes(w: World, key: Origin, pick: PickId)
    ensures var w', t := PickOpenedStep(w, key, pick), TableIn(w.tables, key);
      && w' == w.(tables := w'.tables, opening := w.opening - {pick}, nextId := w.nextId + 1) && SameExcept(w.tables, w'.tables, key)
      && TableIn(w'.tables, key) == if Room(t.handles, File, 0) then t.(handles := t.handles[w.nextId := Handle(File, ByPick(pick), None, None)]) else t
  {
    RoomIsRoom(TableIn(w.tables, key), File, 0);
    hide HasRoom, Room;
  }

  /** A picked file that cannot be opened leaves its pick recorded, and is no longer being opened. */
  lemma PickFailedDoes(w: World, pick: PickId)
    ensures w.(opening := PickFailedStep(w, pick).opening) == PickFailedStep(w, pick)
    ensures forall p :: p in PickFailedStep(w, pick).opening <==> p in w.opening && p != pick
  {
  }

  /** Taking a pick back takes it and its handles, and no grant, no other pick and no work. */
  lemma RevokePickDoes(w: World, key: Origin, pick: PickId)
    requires WorldOk(w)
    ensures var w', t, picks := RevokePickStep(w, key, pick), TableIn(w.tables, key), IdsIn(w.picks, key);
      && w' == w.(picks := w'.picks, tables := w'.tables, overtaken := w'.overtaken, changes := w'.changes)
      && SameExcept(w.tables, w'.tables, key) && SameExcept(w.picks, w'.picks, key)
      && IdsIn(w'.picks, key) == picks - {pick} && w'.changes == (if pick in picks then w.changes + [key] else w.changes)
      && TableIn(w'.tables, key) == t.(handles := map id | id in t.handles && t.handles[id].auth != ByPick(pick) :: t.handles[id])
  {
    TablesAreTrees(w, key);
    ClosedByPick(TableIn(w.tables, key), pick);
    hide WorldOk, RevokePick, OvertakenBy, WithIds;
  }

  lemma ClosedByPick(t: Table, pick: PickId)
    requires TreeOk(t.handles)
    ensures RevokePick(t, pick) == t.(handles := map id | id in t.handles && t.handles[id].auth != ByPick(pick) :: t.handles[id])
  {
    CloseByAuthIsExact(t, {ByPick(pick)});
    hide CloseTrees;
  }

  // ---------------------------------------------------------------- scripts and forgetting

  /** The bytes of a text are those of its characters: one each below 0x80, two below 0x800, three below 0x10000, four above. */
  lemma {:induction false} BytesOfText(a: string, b: string)
    ensures ByteLength(a + b) == ByteLength(a) + ByteLength(b)
    ensures |a| == 1 ==> var c := a[0] as int; ByteLength(a) == if c < 0x80 then 1 else if c < 0x800 then 2 else if c < 0x1_0000 then 3 else 4
  {
    if a == "" {
      assert a + b == b;
    } else {
      assert (a + b)[1..] == a[1..] + b;
      BytesOfText(a[1..], b);
    }
  }

  /** A script is kept, or with an empty one dropped, only under a live grant of `web.embed` and up to 4 MiB; nothing else changes. */
  lemma ScriptDoes(w: World, key: Origin, source: string)
    ensures var w' := ScriptStep(w, key, source);
      && w' == w.(scripts := w'.scripts)
      && w'.scripts == if WebEmbed !in GrantsIn(w.records, key) || ByteLength(source) > 4194304 then w.scripts
                       else if source == "" then w.scripts - {key} else w.scripts[key := source]
  {
    hide ByteLength;
  }

  /** A page is given the stored script iff `web.embed` is granted. */
  lemma ScriptIsShown(w: World, key: Origin)
    ensures ScriptIn(w.records, w.scripts, key)
         == if key in w.records && WebEmbed in w.records[key].grants && key in w.scripts then Some(w.scripts[key]) else None
  {
  }

  /** Forgetting deletes the stored floor, then the stored grants, and with everything else deleted the record; the pin, picks and handles stay. */
  lemma ForgetRecordDoes(w: World, key: Origin, deleted: nat)
    ensures var w', held := ForgetRecordStep(w, key, deleted), StoredIn(w.stored, key);
      && w' == w.(stored := w'.stored, records := w'.records, forgotten := w'.forgotten, changes := w.changes + [key])
      && w'.records == (if deleted >= 4 then w.records - {key} else w.records)
      && StoredIn(w'.stored, key).floor == (if deleted >= 1 then None else held.floor)
      && StoredIn(w'.stored, key).grants == (if deleted >= 3 then map[] else held.grants)
  {
    hide DroppedWithRecord, WithIds;
  }

  /** A session's end takes the handles and the work, and leaves the ledger, the picks and storage. */
  lemma DropDoes(w: World, key: Origin)
    ensures var w' := DropStep(w, key);
      w' == w.(tables := w'.tables) && SameExcept(w.tables, w'.tables, key)
      && TableIn(w'.tables, key).handles == map[] && TableIn(w'.tables, key).pending == map[]
  {
  }

  /** A pick is recorded, and told, under an id of its own, with its file still to be opened. */
  lemma PickDoes(w: World, key: Origin)
    ensures var w' := PickStep(w, key);
      && w' == w.(picks := w'.picks, opening := w.opening[w.nextId := key], nextId := w.nextId + 1, changes := w.changes + [key])
      && SameExcept(w.picks, w'.picks, key) && IdsIn(w'.picks, key) == IdsIn(w.picks, key) + {w.nextId}
  {
  }
}
