/** One origin's grants and their handle table together: what granting, revoking and hydrating do to the pair. */
module GrantLedger {
  import opened Results
  import opened HandleTable

  type Origin = string
  type Version = string

  datatype Capability = WebEmbed | OtherCapability(name: string)

  datatype Manifest = Manifest(name: string, version: Version, declared: map<Capability, seq<Pattern>>)

  datatype GrantRecord = GrantRecord(id: GrantId, patterns: seq<Pattern>, grantedAt: nat)

  datatype StoredGrant = StoredGrant(patterns: seq<Pattern>, grantedAt: nat)

  /** One origin's ledger record: what it declared and, apart from that, what it was granted. */
  datatype Record = Record(manifest: Option<Manifest>, grants: map<Capability, GrantRecord>, hydrated: bool, floor: Version)

  /** What storage holds for one origin. */
  datatype Stored = Stored(grants: map<Capability, StoredGrant>, floor: Option<Version>)

  /** The decisions made elsewhere: pattern coverage, re-validation of a stored grant, version order, persistability. */
  datatype Policy = Policy(
    coversAll: (Capability, seq<Pattern>, seq<Pattern>) -> bool,
    decide: (Manifest, Capability, seq<Pattern>) -> Option<seq<Pattern>>,
    newer: (Version, Version) -> bool,
    orderable: Version -> bool,
    persistable: Origin -> bool)

  datatype Failure = NotPersisted | Denied | Revoked | NotRegistered | NotHeld | NotASocket | Limit

  const NO_VERSION: Version := "0.0.0"
  const NOTHING_STORED := Stored(map[], None)

  function LiveIds(grants: map<Capability, GrantRecord>): set<GrantId> {
    set c | c in grants :: grants[c].id
  }

  ghost predicate DistinctIds(grants: map<Capability, GrantRecord>, next: nat) {
    && (forall c :: c in grants ==> grants[c].id < next)
    && (forall c, d :: c in grants && d in grants && grants[c].id == grants[d].id ==> c == d)
  }

  function ToStore(grants: map<Capability, GrantRecord>): map<Capability, StoredGrant> {
    map c | c in grants :: StoredGrant(grants[c].patterns, grants[c].grantedAt)
  }

  predicate SamePatterns(a: seq<Pattern>, b: seq<Pattern>) {
    multiset(a) == multiset(b)
  }

  /** Whether hydrating from `stored` keeps the live grant of `c` under its id: same patterns as re-validated. */
  predicate KeptByHydration(policy: Policy, manifest: Manifest, stored: map<Capability, StoredGrant>, grants: map<Capability, GrantRecord>, c: Capability) {
    && c in grants && c in stored
    && policy.decide(manifest, c, stored[c].patterns).Some?
    && SamePatterns(policy.decide(manifest, c, stored[c].patterns).value, grants[c].patterns)
  }

  /** The live grants a hydration supersedes or drops. */
  function SupersededBy(policy: Policy, manifest: Manifest, stored: map<Capability, StoredGrant>, grants: map<Capability, GrantRecord>): set<GrantId> {
    set c | c in grants && !KeptByHydration(policy, manifest, stored, grants, c) :: grants[c].id
  }

  /** `after` is what a hydration makes of `grants`: the stored grants the manifest still admits, unchanged ones under their old id. */
  ghost predicate Hydrated(policy: Policy, manifest: Manifest, stored: map<Capability, StoredGrant>, grants: map<Capability, GrantRecord>, after: map<Capability, GrantRecord>, next: nat) {
    forall c :: HydratedAt(policy, manifest, stored, grants, after, next, c)
  }

  lemma NothingHydrated(policy: Policy, manifest: Manifest, grants: map<Capability, GrantRecord>, next: nat)
    ensures DistinctIds(map[], next) && Hydrated(policy, manifest, map[], grants, map[], next)
  {
  }

  /** `after` says about `c` what hydrating from `stored` should. */
  ghost predicate HydratedAt(policy: Policy, manifest: Manifest, stored: map<Capability, StoredGrant>, grants: map<Capability, GrantRecord>,
                             after: map<Capability, GrantRecord>, next: nat, c: Capability) {
    && (c in after <==> c in stored && policy.decide(manifest, c, stored[c].patterns).Some?)
    && (c in after && KeptByHydration(policy, manifest, stored, grants, c) ==> after[c] == grants[c])
    && (c in after && !KeptByHydration(policy, manifest, stored, grants, c) ==>
          next <= after[c].id && after[c].patterns == policy.decide(manifest, c, stored[c].patterns).value && after[c].grantedAt == stored[c].grantedAt)
  }

  lemma HydratedOneMore(policy: Policy, manifest: Manifest, done: map<Capability, StoredGrant>, done': map<Capability, StoredGrant>,
                        grants: map<Capability, GrantRecord>, after: map<Capability, GrantRecord>, after': map<Capability, GrantRecord>, next: nat, c: Capability)
    requires Hydrated(policy, manifest, done, grants, after, next)
    requires done' - {c} == done && after' - {c} == after
    requires HydratedAt(policy, manifest, done', grants, after', next, c)
    ensures Hydrated(policy, manifest, done', grants, after', next)
  {
    hide SamePatterns;
    forall d | d != c
      ensures HydratedAt(policy, manifest, done', grants, after', next, d)
    {
      assert HydratedAt(policy, manifest, done, grants, after, next, d);
      assert d in done' <==> d in done;
      assert d in after' <==> d in after;
      assert d in done ==> done'[d] == done[d];
      assert d in after ==> after'[d] == after[d];
    }
  }

  /** A grant kept through a hydration shares its id with none hydrated so far. */
  lemma KeptIdIsUnused(policy: Policy, manifest: Manifest, done: map<Capability, StoredGrant>, grants: map<Capability, GrantRecord>,
                       after: map<Capability, GrantRecord>, c: Capability, next: nat, next': nat)
    requires DistinctIds(grants, next) && next <= next' && DistinctIds(after, next') && Hydrated(policy, manifest, done, grants, after, next)
    requires c in grants && c !in after
    ensures DistinctIds(after[c := grants[c]], next')
  {
    hide SamePatterns;
    forall d | d in after
      ensures after[d].id != grants[c].id
    {
      assert HydratedAt(policy, manifest, done, grants, after, next, d);
    }
  }

  lemma NewIdIsUnused(after: map<Capability, GrantRecord>, c: Capability, g: GrantRecord)
    requires DistinctIds(after, g.id)
    ensures DistinctIds(after[c := g], g.id + 1)
  {
  }

  /** One more stored grant goes through: kept under its id, re-minted, or dropped. */
  lemma HydrateOneMore(policy: Policy, manifest: Manifest, stored: map<Capability, StoredGrant>, done: map<Capability, StoredGrant>,
                       grants: map<Capability, GrantRecord>, after: map<Capability, GrantRecord>, c: Capability, next: nat, next': nat)
    requires c in stored && c !in done
    requires DistinctIds(grants, next) && next <= next' && DistinctIds(after, next') && Hydrated(policy, manifest, done, grants, after, next)
    ensures var done', decision := done[c := stored[c]], policy.decide(manifest, c, stored[c].patterns);
      if KeptByHydration(policy, manifest, stored, grants, c)
      then DistinctIds(after[c := grants[c]], next') && Hydrated(policy, manifest, done', grants, after[c := grants[c]], next)
      else if decision.Some?
      then var g := GrantRecord(next', decision.value, stored[c].grantedAt);
        DistinctIds(after[c := g], next' + 1) && Hydrated(policy, manifest, done', grants, after[c := g], next)
      else Hydrated(policy, manifest, done', grants, after, next)
  {
    hide DistinctIds, SamePatterns;
    var done', decision := done[c := stored[c]], policy.decide(manifest, c, stored[c].patterns);
    assert HydratedAt(policy, manifest, done, grants, after, next, c);
    assert KeptByHydration(policy, manifest, done', grants, c) == KeptByHydration(policy, manifest, stored, grants, c);
    hide Hydrated;
    assert done' - {c} == done;
    if KeptByHydration(policy, manifest, stored, grants, c) {
      KeptIdIsUnused(policy, manifest, done, grants, after, c, next, next');
      assert after[c := grants[c]] - {c} == after;
      HydratedOneMore(policy, manifest, done, done', grants, after, after[c := grants[c]], next, c);
    } else if decision.Some? {
      var g := GrantRecord(next', decision.value, stored[c].grantedAt);
      NewIdIsUnused(after, c, g);
      assert after[c := g] - {c} == after;
      HydratedOneMore(policy, manifest, done, done', grants, after, after[c := g], next, c);
    } else {
      assert after - {c} == after;
      HydratedOneMore(policy, manifest, done, done', grants, after, after, next, c);
    }
  }

  /** The table after the grants in `order` are revoked one by one. */
  function RevokeEach(t: Table, order: seq<GrantId>): Table {
    if order == [] then t else Revoke(RevokeEach(t, order[..|order| - 1]), order[|order| - 1])
  }

  ghost function Elements(order: seq<GrantId>): set<GrantId> {
    set g | g in order
  }

  /** The two exceptions name none that lives, and none still to come. */
  ghost predicate ExcusesOk(live: set<GrantId>, picks: set<PickId>, forgotten: set<GrantId>, overtaken: set<PickId>, next: nat) {
    && forgotten !! live && overtaken !! picks
    && (forall g :: g in forgotten ==> g < next) && (forall p :: p in overtaken ==> p < next)
  }

  ghost predicate OriginOk(grants: map<Capability, GrantRecord>, t: Table, picks: set<PickId>, forgotten: set<GrantId>, overtaken: set<PickId>, next: nat) {
    && DistinctIds(grants, next)
    && TableOk(t, LiveIds(grants), picks, forgotten, overtaken, next)
    && ExcusesOk(LiveIds(grants), picks, forgotten, overtaken, next)
  }

  lemma OriginStaysOk(grants: map<Capability, GrantRecord>, t: Table, picks: set<PickId>,
                      forgotten: set<GrantId>, overtaken: set<PickId>, next: nat, next': nat)
    requires OriginOk(grants, t, picks, forgotten, overtaken, next) && next <= next'
    ensures OriginOk(grants, t, picks, forgotten, overtaken, next')
  {
  }

  /** A lost tombstone is of a grant that lives no more, so losing it excuses no live grant. */
  lemma LostKeepsExcuses(t: Table, t': Table, live: set<GrantId>, live': set<GrantId>, picks: set<PickId>,
                         forgotten: set<GrantId>, overtaken: set<PickId>, next: nat, next': nat)
    requires TableOk(t, live, picks, forgotten, overtaken, next) && ExcusesOk(live, picks, forgotten, overtaken, next) && next <= next'
    requires forall g :: g in live' ==> g in live || next <= g
    ensures ExcusesOk(live', picks, forgotten + Lost(t, t'), overtaken, next')
  {
  }

  lemma IdsStayDistinct(grants: map<Capability, GrantRecord>, next: nat, next': nat)
    requires DistinctIds(grants, next) && next <= next'
    ensures DistinctIds(grants, next')
  {
  }

  /** The handle table after a grant: the handles of a grant it replaces are judged again. */
  function Regranted(t: Table, was: map<Capability, GrantRecord>, c: Capability, g: GrantRecord, coversAll: bool): Table {
    if c in was then Replace(t, was[c].id, g.id, g.patterns, coversAll) else t
  }

  /** A new grant keeps the invariant, whether it replaces one or not. */
  lemma GrantKeepsOrigin(grants: map<Capability, GrantRecord>, t: Table, picks: set<PickId>, forgotten: set<GrantId>, overtaken: set<PickId>, next: nat,
                         c: Capability, g: GrantRecord, coversAll: bool)
    requires OriginOk(grants, t, picks, forgotten, overtaken, next) && g.id == next
    ensures var t' := Regranted(t, grants, c, g, coversAll);
      OriginOk(grants[c := g], t', picks, forgotten + Lost(t, t'), overtaken, next + 1)
  {
    hide TableOk, LiveIds, ExcusesOk;
    WithCapability(grants, c, g, next);
    LostKeepsExcuses(t, Regranted(t, grants, c, g, coversAll), LiveIds(grants), LiveIds(grants[c := g]), picks, forgotten, overtaken, next, next + 1);
    if c in grants {
      LiveIdIsLive(grants, c);
      ReplaceKeepsOk(t, grants[c].id, g.id, g.patterns, coversAll, LiveIds(grants), picks, forgotten, overtaken, next);
    } else {
      IssueKeepsOk(t, g.id, LiveIds(grants), picks, forgotten, overtaken, next);
      SameTableLosesNothing(t);
      assert forgotten + {} == forgotten;
    }
  }

  lemma SameTableLosesNothing(t: Table)
    ensures Lost(t, t) == {}
  {
  }

  /** A pick keeps the invariant. */
  lemma PickKeepsOrigin(grants: map<Capability, GrantRecord>, t: Table, picks: set<PickId>, forgotten: set<GrantId>, overtaken: set<PickId>, next: nat)
    requires OriginOk(grants, t, picks, forgotten, overtaken, next)
    ensures OriginOk(grants, t, picks + {next}, forgotten, overtaken, next + 1)
  {
    hide TableOk, DistinctIds;
    PickKeepsOk(t, next, LiveIds(grants), picks, forgotten, overtaken, next);
    IdsStayDistinct(grants, next, next + 1);
    LaterIsOk(t, LiveIds(grants), picks + {next}, forgotten, overtaken, next, next + 1);
  }

  lemma LaterIsOk(t: Table, live: set<GrantId>, picks: set<PickId>, forgotten: set<GrantId>, overtaken: set<PickId>, next: nat, next': nat)
    requires TableOk(t, live, picks, forgotten, overtaken, next) && next <= next'
    ensures TableOk(t, live, picks, forgotten, overtaken, next')
  {
  }

  /** So does taking one back, `late` naming it where its file is still being opened. */
  lemma RevokePickKeepsOrigin(grants: map<Capability, GrantRecord>, t: Table, picks: set<PickId>, forgotten: set<GrantId>, overtaken: set<PickId>, next: nat,
                              pick: PickId, late: set<PickId>)
    requires OriginOk(grants, t, picks, forgotten, overtaken, next) && late <= {pick} && (pick in late ==> pick < next)
    ensures OriginOk(grants, RevokePick(t, pick), picks - {pick}, forgotten, overtaken + late, next)
  {
    hide TableOk, DistinctIds, RevokePick;
    RevokePickKeepsOk(t, pick, LiveIds(grants), picks, forgotten, overtaken, next);
    MoreOvertakenIsOk(RevokePick(t, pick), LiveIds(grants), picks - {pick}, forgotten, overtaken, overtaken + late, next);
  }

  lemma MoreOvertakenIsOk(t: Table, live: set<GrantId>, picks: set<PickId>, forgotten: set<GrantId>, overtaken: set<PickId>, overtaken': set<PickId>, next: nat)
    requires TableOk(t, live, picks, forgotten, overtaken, next) && overtaken <= overtaken'
    ensures TableOk(t, live, picks, forgotten, overtaken', next)
  {
  }

  lemma TableKeepsOrigin(grants: map<Capability, GrantRecord>, t: Table, t': Table, picks: set<PickId>, forgotten: set<GrantId>, overtaken: set<PickId>, next: nat, next': nat)
    requires OriginOk(grants, t, picks, forgotten, overtaken, next) && next <= next'
    requires TableOk(t', LiveIds(grants), picks, forgotten, overtaken, next')
    ensures OriginOk(grants, t', picks, forgotten, overtaken, next')
  {
    hide TableOk;
    IdsStayDistinct(grants, next, next');
  }

  lemma LiveIdIsLive(grants: map<Capability, GrantRecord>, c: Capability)
    requires c in grants
    ensures grants[c].id in LiveIds(grants)
  {
  }

  predicate Holds(grants: map<Capability, GrantRecord>, id: GrantId) {
    exists c :: c in grants && grants[c].id == id
  }

  /** The handle table after one capability is withdrawn. */
  function RevokeIn(t: Table, was: map<Capability, GrantRecord>, c: Capability): Table {
    if c in was then Revoke(t, was[c].id) else t
  }

  lemma RevokeInKeepsOrigin(grants: map<Capability, GrantRecord>, t: Table, picks: set<PickId>, forgotten: set<GrantId>, overtaken: set<PickId>, next: nat, c: Capability)
    requires OriginOk(grants, t, picks, forgotten, overtaken, next)
    ensures var t' := RevokeIn(t, grants, c); OriginOk(grants - {c}, t', picks, forgotten + Lost(t, t'), overtaken, next)
  {
    hide TableOk, Revoke, WithoutGrant;
    if c in grants {
      RevokeKeepsOrigin(grants, t, picks, forgotten, overtaken, next, grants[c].id);
      WithoutGrantIsWithoutCapability(grants, c, next);
    } else {
      assert grants - {c} == grants;
      SameTableLosesNothing(t);
      assert forgotten + {} == forgotten;
    }
  }

  function WithoutGrant(grants: map<Capability, GrantRecord>, id: GrantId): map<Capability, GrantRecord> {
    map c | c in grants && grants[c].id != id :: grants[c]
  }

  lemma WithoutGrantIsSmaller(grants: map<Capability, GrantRecord>, id: GrantId)
    ensures (forall c :: c in grants ==> grants[c].id != id) ==> WithoutGrant(grants, id) == grants
    ensures WebEmbed in WithoutGrant(grants, id) <==> WebEmbed in grants && grants[WebEmbed].id != id
  {
  }

  /** Revoking an id keeps the invariant; an id nobody minted is only remembered. */
  lemma RevokeKeepsOrigin(grants: map<Capability, GrantRecord>, t: Table, picks: set<PickId>, forgotten: set<GrantId>, overtaken: set<PickId>, next: nat, id: GrantId)
    requires OriginOk(grants, t, picks, forgotten, overtaken, next)
    ensures var t' := Revoke(t, id);
      OriginOk(WithoutGrant(grants, id), t', picks, forgotten + Lost(t, t'), overtaken, if id < next then next else id + 1)
  {
    hide TableOk, Revoke, ExcusesOk;
    var next' := if id < next then next else id + 1;
    OriginStaysOk(grants, t, picks, forgotten, overtaken, next, next');
    RevokeKeepsOk(t, id, LiveIds(grants), picks, forgotten, overtaken, next');
    LostKeepsExcuses(t, Revoke(t, id), LiveIds(grants), LiveIds(grants) - {id}, picks, forgotten, overtaken, next', next');
    assert LiveIds(WithoutGrant(grants, id)) == LiveIds(grants) - {id} by {
      forall c | c in grants && grants[c].id != id
        ensures grants[c].id in LiveIds(WithoutGrant(grants, id))
      {
        LiveIdIsLive(WithoutGrant(grants, id), c);
      }
    }
  }

  lemma WithoutGrantIsWithoutCapability(grants: map<Capability, GrantRecord>, c: Capability, next: nat)
    requires DistinctIds(grants, next) && c in grants
    ensures WithoutGrant(grants, grants[c].id) == grants - {c}
  {
  }

  lemma WithCapability(grants: map<Capability, GrantRecord>, c: Capability, g: GrantRecord, next: nat)
    requires DistinctIds(grants, next) && next <= g.id
    ensures DistinctIds(grants[c := g], g.id + 1)
    ensures LiveIds(grants[c := g]) == (if c in grants then LiveIds(grants) - {grants[c].id} else LiveIds(grants)) + {g.id}
  {
    var after := grants[c := g];
    assert after[c] == g;
    forall d | d in grants && d != c
      ensures grants[d].id in LiveIds(after)
    {
      assert after[d] == grants[d];
    }
  }

  lemma NothingRevoked(t: Table)
    ensures Elements([]) == {} && RevokeEach(t, []) == t
  {
  }

  lemma RevokeOneMore(t: Table, order: seq<GrantId>, g: GrantId)
    ensures Elements(order + [g]) == Elements(order) + {g}
    ensures RevokeEach(t, order + [g]) == Revoke(RevokeEach(t, order), g)
  {
    hide Revoke;
    assert (order + [g])[..|order + [g]| - 1] == order;
    assert forall x :: x in order + [g] <==> x in order || x == g;
  }

  /** Revoking a list one by one leaves what revoking its members must, in whatever order. */
  lemma {:induction false} RevokeEachIsRevoked(t: Table, order: seq<GrantId>)
    requires TreeOk(t.handles) && |t.tombstones| <= REVOKED_GRANT_MEMORY
    ensures IsRevoked(t, RevokeEach(t, order), Elements(order))
  {
    hide Revoke, IsRevoked;
    if order == [] {
      NothingIsRevoked(t);
      NothingRevoked(t);
    } else {
      var front, last := order[..|order| - 1], order[|order| - 1];
      assert order == front + [last];
      RevokeEachIsRevoked(t, front);
      RevokeOneMore(t, front, last);
      RevokedIsTable(t, RevokeEach(t, front), Elements(front));
      RevokeIsRevoked(RevokeEach(t, front), last);
      RevokedTwice(t, RevokeEach(t, front), RevokeEach(t, order), Elements(front), {last});
    }
  }

  lemma {:induction false} RevokeEachLeavesFewer(t: Table, order: seq<GrantId>)
    ensures Fewer(t.handles, RevokeEach(t, order).handles)
  {
    hide Revoke;
    if order != [] {
      RevokeEachLeavesFewer(t, order[..|order| - 1]);
      RevokeLeavesFewer(RevokeEach(t, order[..|order| - 1]), order[|order| - 1]);
    }
  }

  lemma RevokedIsTable(t: Table, t': Table, gone: set<GrantId>)
    requires IsRevoked(t, t', gone)
    ensures TreeOk(t'.handles) && |t'.tombstones| <= REVOKED_GRANT_MEMORY
  {
  }

  lemma RevokeEachKeepsOk(t: Table, order: seq<GrantId>, live: set<GrantId>, picks: set<PickId>,
                          forgotten: set<GrantId>, overtaken: set<PickId>, next: nat)
    requires TableOk(t, live, picks, forgotten, overtaken, next) && forall g :: g in Elements(order) ==> g < next
    ensures TableOk(RevokeEach(t, order), live - Elements(order), picks, forgotten + Lost(t, RevokeEach(t, order)), overtaken, next)
  {
    RevokeEachIsRevoked(t, order);
    hide RevokeEach, Elements;
    RevokedKeepsOk(t, RevokeEach(t, order), Elements(order), live, picks, forgotten, overtaken, next);
  }

  /** After a hydration the live grants are those kept and those newly minted; every other live grant was superseded. */
  lemma HydratedIds(policy: Policy, manifest: Manifest, stored: map<Capability, StoredGrant>, grants: map<Capability, GrantRecord>, after: map<Capability, GrantRecord>, next: nat)
    requires DistinctIds(grants, next) && Hydrated(policy, manifest, stored, grants, after, next)
    ensures forall g :: g in LiveIds(grants) - SupersededBy(policy, manifest, stored, grants) ==> g in LiveIds(after)
    ensures forall g :: g in LiveIds(after) ==> next <= g || g in LiveIds(grants) - SupersededBy(policy, manifest, stored, grants)
  {
    forall g | g in LiveIds(grants) - SupersededBy(policy, manifest, stored, grants)
      ensures g in LiveIds(after)
    {
      var c :| c in grants && grants[c].id == g;
      assert HydratedAt(policy, manifest, stored, grants, after, next, c);
    }
    forall g | g in LiveIds(after) && g < next
      ensures g in LiveIds(grants) - SupersededBy(policy, manifest, stored, grants)
    {
      var c :| c in after && after[c].id == g;
      assert HydratedAt(policy, manifest, stored, grants, after, next, c);
    }
  }

  /** Restoring what was stored of the live grants, under a manifest that still admits each as it is, keeps each and supersedes none. */
  lemma RestoringWhatIsStoredChangesNothing(policy: Policy, manifest: Manifest, grants: map<Capability, GrantRecord>, after: map<Capability, GrantRecord>, next: nat)
    requires Hydrated(policy, manifest, ToStore(grants), grants, after, next)
    requires forall c :: c in grants ==> policy.decide(manifest, c, grants[c].patterns) == Some(grants[c].patterns)
    ensures after == grants && SupersededBy(policy, manifest, ToStore(grants), grants) == {}
  {
    var held := ToStore(grants);
    forall c | c in grants
      ensures KeptByHydration(policy, manifest, held, grants, c)
    {
      assert held[c].patterns == grants[c].patterns;
    }
    forall c
      ensures (c in after <==> c in grants) && (c in grants ==> after[c] == grants[c])
    {
      assert HydratedAt(policy, manifest, held, grants, after, next, c);
    }
  }

  lemma HydrationKeepsOk(t: Table, order: seq<GrantId>, policy: Policy, manifest: Manifest, stored: map<Capability, StoredGrant>,
                         grants: map<Capability, GrantRecord>, after: map<Capability, GrantRecord>, picks: set<PickId>,
                         forgotten: set<GrantId>, overtaken: set<PickId>, next: nat, next': nat)
    requires OriginOk(grants, t, picks, forgotten, overtaken, next)
    requires Hydrated(policy, manifest, stored, grants, after, next) && next <= next' && DistinctIds(after, next')
    requires Elements(order) == SupersededBy(policy, manifest, stored, grants)
    ensures OriginOk(after, RevokeEach(t, order), picks, forgotten + Lost(t, RevokeEach(t, order)), overtaken, next')
  {
    hide TableOk, DistinctIds, LiveIds, Hydrated, SupersededBy, RevokeEach, ExcusesOk, Lost;
    var gone, t' := SupersededBy(policy, manifest, stored, grants), RevokeEach(t, order);
    SupersededIsLive(policy, manifest, stored, grants, next);
    RevokeEachKeepsOk(t, order, LiveIds(grants), picks, forgotten, overtaken, next);
    HydratedIds(policy, manifest, stored, grants, after, next);
    LiveIdsBelow(after, next');
    NewGrantsKeepOk(t', LiveIds(grants) - gone, LiveIds(after), picks, forgotten + Lost(t, t'), overtaken, next, next');
    LostKeepsExcuses(t, t', LiveIds(grants), LiveIds(after), picks, forgotten, overtaken, next, next');
  }

  /** The live grants that a record takes with it, unrevoked, while they are in use. */
  function DroppedInUse(grants: map<Capability, GrantRecord>, t: Table): set<GrantId> {
    set g | g in LiveIds(grants) && InUse(t, g)
  }

  /** Dropping an origin's record drops its grants unrevoked: those in use are excused, or there are none. */
  lemma DropRecordKeepsOrigin(grants: map<Capability, GrantRecord>, t: Table, picks: set<PickId>, forgotten: set<GrantId>, overtaken: set<PickId>, next: nat)
    requires OriginOk(grants, t, picks, forgotten, overtaken, next)
    ensures OriginOk(map[], t, picks, forgotten + DroppedInUse(grants, t), overtaken, next)
  {
    LiveIdsBelow(grants, next);
    assert LiveIds(map[]) == {};
    hide LiveIds;
    forall op | op in t.pending
      ensures Stands(Current(t, t.pending[op]), {}, forgotten + DroppedInUse(grants, t)) || Current(t, t.pending[op]) in t.tombstones
    {
      assert Awaited(t, Current(t, t.pending[op]));
    }
    forall id | id in t.handles
      ensures Authorised(t.handles[id].auth, {}, picks, forgotten + DroppedInUse(grants, t), overtaken)
    {
      if t.handles[id].auth.ByGrant? {
        assert InUse(t, t.handles[id].auth.grant);
      }
    }
  }

  lemma SupersededIsLive(policy: Policy, manifest: Manifest, stored: map<Capability, StoredGrant>, grants: map<Capability, GrantRecord>, next: nat)
    requires DistinctIds(grants, next)
    ensures forall g :: g in SupersededBy(policy, manifest, stored, grants) ==> g < next
  {
  }

  lemma LiveIdsBelow(grants: map<Capability, GrantRecord>, next: nat)
    requires DistinctIds(grants, next)
    ensures forall g :: g in LiveIds(grants) ==> g < next
  {
  }

  lemma NewGrantsKeepOk(t: Table, live: set<GrantId>, live': set<GrantId>, picks: set<PickId>, forgotten: set<GrantId>, overtaken: set<PickId>, next: nat, next': nat)
    requires TableOk(t, live, picks, forgotten, overtaken, next) && next <= next' && live <= live'
    requires forall g :: g in live' ==> g < next' && (next <= g || g in live)
    ensures TableOk(t, live', picks, forgotten, overtaken, next')
  {
  }
}
