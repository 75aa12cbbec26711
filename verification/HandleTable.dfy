/**
 One origin's live handles: what authorises each, which acquisitions are in flight, and what the table remembers of
 grants that are gone. Ids grow, so a later id was minted later; the original draws them at random and unique.
 */
module HandleTable {
  import opened Results

  type GrantId = nat
  type PickId = nat
  type HandleId = nat
  type OperationId = nat
  type Pattern = string

  const MOST_SOCKETS: nat := 512
  const MOST_FILES: nat := 64

  /** How many revoked grants an origin remembers: the socket and the file-handle ceilings together. */
  const REVOKED_GRANT_MEMORY := MOST_SOCKETS + MOST_FILES

  datatype Authorisation = ByGrant(grant: GrantId) | ByPick(pick: PickId)

  datatype Kind = TcpSocket | TcpServer | UdpSocket | File | WebContext | Embed | Identity

  /** What the ceilings count together. */
  datatype Budget = Sockets | Files | WebContexts | Embeds | Identities

  /** `covered` is the handle's own test of a replacing grant's patterns, where it has one. */
  datatype Handle = Handle(kind: Kind, auth: Authorisation, parent: Option<HandleId>, covered: Option<seq<Pattern> -> bool>)

  /** What an acquisition has in hand when it is done, and how many sockets the app's manifest allows it. */
  datatype Resource = Resource(kind: Kind, covered: Option<seq<Pattern> -> bool>, allowance: nat)

  /**
   `pending` holds the acquisitions in flight that nothing has cancelled, with the grant each began under; `aliases`
   takes a replaced grant to the grant that kept everything it authorised; `tombstones` is a bounded queue.
   */
  datatype Table = Table(
    handles: map<HandleId, Handle>,
    pending: map<OperationId, GrantId>,
    tombstones: seq<GrantId>,
    aliases: map<GrantId, GrantId>)

  const EMPTY := Table(map[], map[], [], map[])

  function BudgetOf(kind: Kind): Budget {
    match kind
    case File => Files
    case WebContext => WebContexts
    case Embed => Embeds
    case Identity => Identities
    case _ => Sockets
  }

  function Ceiling(budget: Budget): nat {
    match budget
    case Sockets => MOST_SOCKETS
    case Files => MOST_FILES
    case WebContexts => 2
    case Embeds => 32
    case Identities => 64
  }

  function Counted(handles: map<HandleId, Handle>, budget: Budget): set<HandleId> {
    set id | id in handles && BudgetOf(handles[id].kind) == budget
  }

  /** An app's own allowance of sockets may be below the ceiling; where it is above, the ceiling stands. */
  predicate HasRoom(t: Table, kind: Kind, allowance: nat) {
    && |Counted(t.handles, BudgetOf(kind))| < Ceiling(BudgetOf(kind))
    && (BudgetOf(kind) == Sockets ==> |Counted(t.handles, Sockets)| < allowance)
  }

  /** Adds to the bounded queue, dropping the oldest entry first when it is full. */
  function Remember(memory: seq<GrantId>, g: GrantId): seq<GrantId> {
    if g in memory then memory
    else if |memory| < REVOKED_GRANT_MEMORY then memory + [g]
    else memory[1..] + [g]
  }

  /** Remembers the members of `gs` below `n`, oldest first. */
  function RememberAll(memory: seq<GrantId>, gs: set<GrantId>, n: nat): seq<GrantId> {
    if n == 0 then memory
    else
      var rest := RememberAll(memory, gs, n - 1);
      if n - 1 in gs then Remember(rest, n - 1) else rest
  }

  /** The grant an acquisition begun under `g` answers to now. */
  function Current(t: Table, g: GrantId): GrantId {
    if g in t.aliases then t.aliases[g] else g
  }

  function AliasesOf(t: Table, g: GrantId): set<GrantId> {
    set a | a in t.aliases && t.aliases[a] == g
  }

  /** `id` or a handle it was derived from is in `roots`. */
  predicate Doomed(handles: map<HandleId, Handle>, roots: set<HandleId>, id: HandleId)
    requires id in handles
  {
    || id in roots
    || (handles[id].parent.Some? && handles[id].parent.value in handles && handles[id].parent.value < id
        && Doomed(handles, roots, handles[id].parent.value))
  }

  /** Closes every handle in `roots` and everything derived from one. */
  function CloseTrees(handles: map<HandleId, Handle>, roots: set<HandleId>): map<HandleId, Handle> {
    map id | id in handles && !Doomed(handles, roots, id) :: handles[id]
  }

  function FiledUnder(t: Table, auths: set<Authorisation>): set<HandleId> {
    set id | id in t.handles && t.handles[id].auth in auths
  }

  function GrantsAsAuths(gs: set<GrantId>): set<Authorisation> {
    set g | g in gs :: ByGrant(g)
  }

  /** Withdrawing a grant: it and the grants whose in-flight work answers to it, in one sweep. */
  function Revoke(t: Table, g: GrantId): Table {
    var gone := {g} + AliasesOf(t, g);
    Table(
      CloseTrees(t.handles, FiledUnder(t, GrantsAsAuths(gone))),
      map op | op in t.pending && t.pending[op] !in gone :: t.pending[op],
      RememberAll(Remember(t.tombstones, g), AliasesOf(t, g), g),
      map a | a in t.aliases && t.aliases[a] != g :: t.aliases[a])
  }

  function RevokePick(t: Table, pick: PickId): Table {
    t.(handles := CloseTrees(t.handles, FiledUnder(t, {ByPick(pick)})))
  }

  /** Whether a replacing grant still authorises a handle: a derived one is judged by the handle it came from. */
  predicate StillCovered(t: Table, id: HandleId, patterns: seq<Pattern>, coversAll: bool)
    requires id in t.handles
  {
    var parent := t.handles[id].parent;
    var judge := if parent.Some? && parent.value in t.handles then t.handles[parent.value] else t.handles[id];
    if judge.covered.Some? then judge.covered.value(patterns) else coversAll
  }

  function Uncovered(t: Table, replaced: GrantId, patterns: seq<Pattern>, coversAll: bool): set<HandleId> {
    set id | id in t.handles && t.handles[id].auth == ByGrant(replaced) && !StillCovered(t, id, patterns, coversAll)
  }

  /** One grant replaced by another: covered handles are filed under the new one, the rest close. */
  function Replace(t: Table, replaced: GrantId, replacement: GrantId, patterns: seq<Pattern>, coversAll: bool): Table {
    var kept := CloseTrees(t.handles, Uncovered(t, replaced, patterns, coversAll));
    var refiled := map id | id in kept ::
                     if kept[id].auth == ByGrant(replaced) then kept[id].(auth := ByGrant(replacement)) else kept[id];
    if coversAll then
      var retargeted := map a | a in t.aliases :: if t.aliases[a] == replaced then replacement else t.aliases[a];
      t.(handles := refiled, aliases := retargeted[replaced := replacement])
    else
      t.(handles := refiled,
         pending := map op | op in t.pending && t.pending[op] != replaced :: t.pending[op],
         tombstones := Remember(t.tombstones, replaced))
  }

  function Begin(t: Table, op: OperationId, g: GrantId): Table {
    t.(pending := t.pending[op := g])
  }

  /** An in-flight acquisition registering its handle: refused once the grant it answers to is remembered as revoked. */
  predicate Acquirable(t: Table, g: GrantId) {
    Current(t, g) !in t.tombstones
  }

  /** It lands under the grant it answers to, if the table has room. */
  function Acquire(t: Table, op: OperationId, id: HandleId, got: Resource): Table
    requires op in t.pending
  {
    var g := t.pending[op];
    var settled := t.(pending := map o | o in t.pending && o != op :: t.pending[o]);
    if Acquirable(t, g) && HasRoom(t, got.kind, got.allowance)
    then settled.(handles := t.handles[id := Handle(got.kind, ByGrant(Current(t, g)), None, got.covered)])
    else settled
  }

  /** Only a socket may have another derived from it, while its own authorisation stands and there is room. */
  predicate Derivable(t: Table, parent: HandleId, allowance: nat)
    requires parent in t.handles
  {
    var from := t.handles[parent];
    BudgetOf(from.kind) == Sockets && (from.auth.ByGrant? ==> Acquirable(t, from.auth.grant)) && HasRoom(t, TcpSocket, allowance)
  }

  /** A connection accepted on a listening handle: filed where its parent is, and closed with it. */
  function Derive(t: Table, parent: HandleId, id: HandleId, allowance: nat): Table
    requires parent in t.handles
  {
    if Derivable(t, parent, allowance) then t.(handles := t.handles[id := Handle(TcpSocket, t.handles[parent].auth, Some(parent), None)]) else t
  }

  function OpenPicked(t: Table, pick: PickId, id: HandleId): Table {
    if HasRoom(t, File, 0) then t.(handles := t.handles[id := Handle(File, ByPick(pick), None, None)]) else t
  }

  function Release(t: Table, id: HandleId): Table {
    t.(handles := CloseTrees(t.handles, {id}))
  }

  // ---------------------------------------------------------------- the invariant

  /** A grant in the ledger, or one the bounded queue had to forget. */
  ghost predicate Stands(g: GrantId, live: set<GrantId>, forgotten: set<GrantId>) {
    g in live || g in forgotten
  }

  /** A live grant or pick, up to the two exceptions named by `forgotten` and `overtaken`. */
  ghost predicate Authorised(auth: Authorisation, live: set<GrantId>, picks: set<PickId>, forgotten: set<GrantId>, overtaken: set<PickId>) {
    match auth
    case ByGrant(g) => Stands(g, live, forgotten)
    case ByPick(p) => p in picks || p in overtaken
  }

  ghost predicate TreeOk(handles: map<HandleId, Handle>) {
    forall id :: id in handles && handles[id].parent.Some? ==>
      handles[id].parent.value in handles && handles[id].parent.value < id && handles[handles[id].parent.value].auth == handles[id].auth
  }

  ghost predicate IdsBelow(t: Table, next: nat) {
    && (forall id :: id in t.handles ==> id < next)
    && (forall op :: op in t.pending ==> op < next && t.pending[op] < next)
    && (forall g :: g in t.tombstones ==> g < next)
    && (forall a :: a in t.aliases ==> a < t.aliases[a] < next)
  }

  /** Where every uncancelled acquisition stands: its grant lives, or the table will refuse it, or was made to forget. */
  ghost predicate PendingOk(t: Table, live: set<GrantId>, forgotten: set<GrantId>) {
    forall op :: op in t.pending ==> Stands(Current(t, t.pending[op]), live, forgotten) || Current(t, t.pending[op]) in t.tombstones
  }

  ghost predicate HandlesOk(t: Table, live: set<GrantId>, picks: set<PickId>, forgotten: set<GrantId>, overtaken: set<PickId>) {
    forall id :: id in t.handles ==> Authorised(t.handles[id].auth, live, picks, forgotten, overtaken)
  }

  ghost predicate TableOk(t: Table, live: set<GrantId>, picks: set<PickId>, forgotten: set<GrantId>, overtaken: set<PickId>, next: nat) {
    && IdsBelow(t, next) && TreeOk(t.handles) && |t.tombstones| <= REVOKED_GRANT_MEMORY
    && (forall g :: g in live ==> g !in t.aliases && g !in t.tombstones && g < next)
    && HandlesOk(t, live, picks, forgotten, overtaken)
    && PendingOk(t, live, forgotten)
  }

  /** Some work in flight answers to this grant. */
  predicate Awaited(t: Table, g: GrantId) {
    exists op :: op in t.pending && Current(t, t.pending[op]) == g
  }

  /** What the bounded queue dropped between two tables while there was still work in flight for the tombstone to refuse. */
  function Lost(t: Table, t': Table): set<GrantId> {
    set g | g in t.tombstones && g !in t'.tombstones && Awaited(t', g)
  }

  /** Some open handle stands under this grant, or some work in flight answers to it. */
  predicate InUse(t: Table, g: GrantId) {
    Awaited(t, g) || exists id :: id in t.handles && t.handles[id].auth == ByGrant(g)
  }

  // ---------------------------------------------------------------- closing trees

  lemma {:induction false} DoomedInTree(handles: map<HandleId, Handle>, roots: set<HandleId>, id: HandleId)
    requires TreeOk(handles) && id in handles && Doomed(handles, roots, id)
    ensures exists r :: r in roots && r in handles && handles[r].auth == handles[id].auth
  {
    if id !in roots {
      DoomedInTree(handles, roots, handles[id].parent.value);
    }
  }

  lemma CloseKeepsTree(handles: map<HandleId, Handle>, roots: set<HandleId>)
    requires TreeOk(handles)
    ensures TreeOk(CloseTrees(handles, roots))
  {
  }

  /** Closing all handles of some authorisations closes those and no other: a derived handle shares its parent's. */
  lemma CloseByAuthIsExact(t: Table, auths: set<Authorisation>)
    requires TreeOk(t.handles)
    ensures CloseTrees(t.handles, FiledUnder(t, auths)) == map id | id in t.handles && t.handles[id].auth !in auths :: t.handles[id]
  {
    forall id | id in t.handles
      ensures Doomed(t.handles, FiledUnder(t, auths), id) <==> t.handles[id].auth in auths
    {
      if Doomed(t.handles, FiledUnder(t, auths), id) {
        DoomedInTree(t.handles, FiledUnder(t, auths), id);
      }
    }
  }

  // ---------------------------------------------------------------- the bounded memory

  lemma RememberBounds(memory: seq<GrantId>, g: GrantId)
    requires |memory| <= REVOKED_GRANT_MEMORY
    ensures |Remember(memory, g)| <= REVOKED_GRANT_MEMORY
    ensures g in Remember(memory, g)
    ensures forall x :: x in Remember(memory, g) ==> x in memory || x == g
  {
  }

  lemma {:induction false} RememberAllBounds(memory: seq<GrantId>, gs: set<GrantId>, n: nat)
    requires |memory| <= REVOKED_GRANT_MEMORY
    ensures |RememberAll(memory, gs, n)| <= REVOKED_GRANT_MEMORY
    ensures forall x :: x in RememberAll(memory, gs, n) ==> x in memory || x in gs
  {
    if n > 0 {
      RememberAllBounds(memory, gs, n - 1);
      RememberBounds(RememberAll(memory, gs, n - 1), n - 1);
    }
  }

  // ---------------------------------------------------------------- every step keeps the invariant

  /** Revoking leaves no handle of the grant, no acquisition that could still land under it, and nothing else changed. */
  lemma RevokeIsExact(t: Table, g: GrantId)
    requires TreeOk(t.handles)
    ensures Revoke(t, g).handles == map id | id in t.handles && t.handles[id].auth !in GrantsAsAuths({g} + AliasesOf(t, g)) :: t.handles[id]
    ensures forall op :: op in Revoke(t, g).pending <==> op in t.pending && Current(t, t.pending[op]) != g && t.pending[op] != g
    ensures forall op :: op in Revoke(t, g).pending ==> Current(Revoke(t, g), t.pending[op]) == Current(t, t.pending[op])
  {
    CloseByAuthIsExact(t, GrantsAsAuths({g} + AliasesOf(t, g)));
  }

  /**
   What revoking the grants in `gone` leaves, with no more said than the invariant needs: handles and work of others as they
   were, none of theirs, and in the queue only what was there, what was revoked, and grants that had been replaced.
   */
  ghost predicate IsRevoked(t: Table, t': Table, gone: set<GrantId>) {
    && TreeOk(t'.handles) && |t'.tombstones| <= REVOKED_GRANT_MEMORY
    && (forall id :: id in t'.handles ==> id in t.handles && t'.handles[id] == t.handles[id]
                                          && (t.handles[id].auth.ByGrant? ==> t.handles[id].auth.grant !in gone))
    && (forall id :: id in t.handles && t.handles[id].auth.ByPick? ==> id in t'.handles)
    && (forall op :: op in t'.pending ==> op in t.pending && t'.pending[op] == t.pending[op]
                                          && Current(t', t.pending[op]) == Current(t, t.pending[op])
                                          && Current(t, t.pending[op]) !in gone)
    && (forall g :: g in t'.tombstones ==> g in t.tombstones || g in gone || g in t.aliases)
    && (forall a :: a in t'.aliases ==> a in t.aliases && t'.aliases[a] == t.aliases[a])
  }

  lemma NothingIsRevoked(t: Table)
    requires TreeOk(t.handles) && |t.tombstones| <= REVOKED_GRANT_MEMORY
    ensures IsRevoked(t, t, {})
  {
  }

  lemma RevokeIsRevoked(t: Table, g: GrantId)
    requires TreeOk(t.handles) && |t.tombstones| <= REVOKED_GRANT_MEMORY
    ensures IsRevoked(t, Revoke(t, g), {g})
  {
    hide RememberAll, Remember, Doomed;
    CloseKeepsTree(t.handles, FiledUnder(t, GrantsAsAuths({g} + AliasesOf(t, g))));
    RevokeIsExact(t, g);
    RememberBounds(t.tombstones, g);
    RememberAllBounds(Remember(t.tombstones, g), AliasesOf(t, g), g);
    assert ByGrant(g) in GrantsAsAuths({g} + AliasesOf(t, g));
  }

  lemma RevokedTwice(t: Table, t': Table, t'': Table, gone: set<GrantId>, more: set<GrantId>)
    requires IsRevoked(t, t', gone) && IsRevoked(t', t'', more)
    ensures IsRevoked(t, t'', gone + more)
  {
  }

  /** Revoking keeps the invariant for the ledger without what was revoked. */
  lemma RevokedKeepsOk(t: Table, t': Table, gone: set<GrantId>, live: set<GrantId>, picks: set<PickId>,
                       forgotten: set<GrantId>, overtaken: set<PickId>, next: nat)
    requires TableOk(t, live, picks, forgotten, overtaken, next) && IsRevoked(t, t', gone) && forall g :: g in gone ==> g < next
    ensures TableOk(t', live - gone, picks, forgotten + Lost(t, t'), overtaken, next)
  {
    forall op | op in t'.pending
      ensures Stands(Current(t', t'.pending[op]), live - gone, forgotten + Lost(t, t')) || Current(t', t'.pending[op]) in t'.tombstones
    {
      var g := Current(t, t.pending[op]);
      assert g in t.tombstones && g !in t'.tombstones ==> Awaited(t', g);
    }
  }

  lemma RevokeKeepsOk(t: Table, g: GrantId, live: set<GrantId>, picks: set<PickId>, forgotten: set<GrantId>, overtaken: set<PickId>, next: nat)
    requires TableOk(t, live, picks, forgotten, overtaken, next) && g < next
    ensures TableOk(Revoke(t, g), live - {g}, picks, forgotten + Lost(t, Revoke(t, g)), overtaken, next)
  {
    hide Revoke;
    RevokeIsRevoked(t, g);
    RevokedKeepsOk(t, Revoke(t, g), {g}, live, picks, forgotten, overtaken, next);
  }

  lemma RevokePickKeepsOk(t: Table, pick: PickId, live: set<GrantId>, picks: set<PickId>, forgotten: set<GrantId>, overtaken: set<PickId>, next: nat)
    requires TableOk(t, live, picks, forgotten, overtaken, next)
    ensures TableOk(RevokePick(t, pick), live, picks - {pick}, forgotten, overtaken, next)
    ensures RevokePick(t, pick).handles == map id | id in t.handles && t.handles[id].auth != ByPick(pick) :: t.handles[id]
  {
    hide Doomed;
    CloseByAuthIsExact(t, {ByPick(pick)});
  }

  /** All of a handle's ancestors, itself included, pass the test. */
  ghost predicate CoveredUpward(t: Table, id: HandleId, patterns: seq<Pattern>, coversAll: bool)
    requires id in t.handles
  {
    && StillCovered(t, id, patterns, coversAll)
    && (t.handles[id].parent.Some? && t.handles[id].parent.value in t.handles && t.handles[id].parent.value < id
        ==> CoveredUpward(t, t.handles[id].parent.value, patterns, coversAll))
  }

  lemma {:induction false} DoomedIsUncovered(t: Table, replaced: GrantId, patterns: seq<Pattern>, coversAll: bool, id: HandleId)
    requires TreeOk(t.handles) && id in t.handles && t.handles[id].auth == ByGrant(replaced)
    ensures Doomed(t.handles, Uncovered(t, replaced, patterns, coversAll), id) <==> !CoveredUpward(t, id, patterns, coversAll)
  {
    if t.handles[id].parent.Some? {
      DoomedIsUncovered(t, replaced, patterns, coversAll, t.handles[id].parent.value);
    }
  }

  /** A replacing grant keeps, under its own id, exactly the handles its patterns still cover; other handles stay as they were. */
  lemma ReplaceKeepsExactly(t: Table, replaced: GrantId, replacement: GrantId, patterns: seq<Pattern>, coversAll: bool, id: HandleId)
    requires TreeOk(t.handles)
    ensures var t' := Replace(t, replaced, replacement, patterns, coversAll);
      && (id in t'.handles ==> id in t.handles)
      && (id in t.handles && t.handles[id].auth == ByGrant(replaced) ==>
            (id in t'.handles <==> CoveredUpward(t, id, patterns, coversAll))
            && (id in t'.handles ==> t'.handles[id] == t.handles[id].(auth := ByGrant(replacement))))
      && (id in t.handles && t.handles[id].auth != ByGrant(replaced) ==> id in t'.handles && t'.handles[id] == t.handles[id])
  {
    if id in t.handles {
      if t.handles[id].auth == ByGrant(replaced) {
        DoomedIsUncovered(t, replaced, patterns, coversAll, id);
      } else if Doomed(t.handles, Uncovered(t, replaced, patterns, coversAll), id) {
        DoomedInTree(t.handles, Uncovered(t, replaced, patterns, coversAll), id);
      }
    }
  }

  lemma ReplaceKeepsTree(t: Table, replaced: GrantId, replacement: GrantId, patterns: seq<Pattern>, coversAll: bool)
    requires TreeOk(t.handles)
    ensures TreeOk(Replace(t, replaced, replacement, patterns, coversAll).handles)
  {
    CloseKeepsTree(t.handles, Uncovered(t, replaced, patterns, coversAll));
  }

  lemma ReplacedHandlesAreOk(t: Table, replaced: GrantId, replacement: GrantId, patterns: seq<Pattern>, coversAll: bool,
                             live: set<GrantId>, picks: set<PickId>, forgotten: set<GrantId>, overtaken: set<PickId>, next: nat)
    requires TreeOk(t.handles) && HandlesOk(t, live, picks, forgotten, overtaken)
    ensures HandlesOk(Replace(t, replaced, replacement, patterns, coversAll), live - {replaced} + {replacement}, picks, forgotten, overtaken)
  {
    hide Replace, TreeOk;
    forall id | id in Replace(t, replaced, replacement, patterns, coversAll).handles
      ensures Authorised(Replace(t, replaced, replacement, patterns, coversAll).handles[id].auth, live - {replaced} + {replacement}, picks, forgotten, overtaken)
    {
      ReplaceKeepsExactly(t, replaced, replacement, patterns, coversAll, id);
    }
  }

  lemma MoreForgottenIsOk(t: Table, live: set<GrantId>, picks: set<PickId>, forgotten: set<GrantId>, overtaken: set<PickId>, more: set<GrantId>)
    requires HandlesOk(t, live, picks, forgotten, overtaken)
    ensures HandlesOk(t, live, picks, forgotten + more, overtaken)
  {
  }

  lemma ReplaceKeepsOk(t: Table, replaced: GrantId, replacement: GrantId, patterns: seq<Pattern>, coversAll: bool,
                       live: set<GrantId>, picks: set<PickId>, forgotten: set<GrantId>, overtaken: set<PickId>, next: nat)
    requires TableOk(t, live, picks, forgotten, overtaken, next)
    requires replaced in live && next <= replacement
    ensures var t' := Replace(t, replaced, replacement, patterns, coversAll);
      TableOk(t', live - {replaced} + {replacement}, picks, forgotten + Lost(t, t'), overtaken, replacement + 1)
  {
    hide Doomed, StillCovered, Remember;
    var t' := Replace(t, replaced, replacement, patterns, coversAll);
    ReplaceKeepsTree(t, replaced, replacement, patterns, coversAll);
    RememberBounds(t.tombstones, replaced);
    ReplacedHandlesAreOk(t, replaced, replacement, patterns, coversAll, live, picks, forgotten, overtaken, next);
    MoreForgottenIsOk(t', live - {replaced} + {replacement}, picks, forgotten, overtaken, Lost(t, t'));
    hide HandlesOk;
    forall op | op in t'.pending
      ensures Stands(Current(t', t'.pending[op]), live - {replaced} + {replacement}, forgotten + Lost(t, t'))
              || Current(t', t'.pending[op]) in t'.tombstones
    {
      assert op in t.pending && t'.pending[op] == t.pending[op];
      var g := Current(t', t'.pending[op]);
      assert g in t.tombstones && g !in t'.tombstones ==> Awaited(t', g);
    }
  }

  lemma IssueKeepsOk(t: Table, g: GrantId, live: set<GrantId>, picks: set<PickId>, forgotten: set<GrantId>, overtaken: set<PickId>, next: nat)
    requires TableOk(t, live, picks, forgotten, overtaken, next) && next <= g
    ensures TableOk(t, live + {g}, picks, forgotten, overtaken, g + 1)
  {
  }

  lemma BeginKeepsOk(t: Table, op: OperationId, g: GrantId, live: set<GrantId>, picks: set<PickId>, forgotten: set<GrantId>, overtaken: set<PickId>, next: nat)
    requires TableOk(t, live, picks, forgotten, overtaken, next) && g in live && next <= op
    ensures TableOk(Begin(t, op, g), live, picks, forgotten, overtaken, op + 1)
  {
  }

  /** A late acquisition lands only under a grant that stands, wherever replacements have moved it since it began. */
  lemma AcquireKeepsOk(t: Table, op: OperationId, id: HandleId, got: Resource,
                       live: set<GrantId>, picks: set<PickId>, forgotten: set<GrantId>, overtaken: set<PickId>, next: nat)
    requires TableOk(t, live, picks, forgotten, overtaken, next) && op in t.pending && next <= id
    ensures TableOk(Acquire(t, op, id, got), live, picks, forgotten, overtaken, id + 1)
    ensures id in Acquire(t, op, id, got).handles <==> Acquirable(t, t.pending[op]) && HasRoom(t, got.kind, got.allowance)
  {
    hide HasRoom;
  }

  lemma PickKeepsOk(t: Table, pick: PickId, live: set<GrantId>, picks: set<PickId>, forgotten: set<GrantId>, overtaken: set<PickId>, next: nat)
    requires TableOk(t, live, picks, forgotten, overtaken, next)
    ensures TableOk(t, live, picks + {pick}, forgotten, overtaken, next)
  {
  }

  lemma OpenPickedKeepsOk(t: Table, pick: PickId, id: HandleId,
                          live: set<GrantId>, picks: set<PickId>, forgotten: set<GrantId>, overtaken: set<PickId>, next: nat)
    requires TableOk(t, live, picks, forgotten, overtaken, next) && (pick in picks || pick in overtaken) && next <= id
    ensures TableOk(OpenPicked(t, pick, id), live, picks, forgotten, overtaken, id + 1)
  {
    hide HasRoom;
  }

  lemma EmptyIsOk(t: Table, live: set<GrantId>, picks: set<PickId>, forgotten: set<GrantId>, overtaken: set<PickId>, next: nat)
    requires TableOk(t, live, picks, forgotten, overtaken, next)
    ensures TableOk(EMPTY, live, picks, forgotten, overtaken, next)
  {
  }

  lemma DeriveKeepsOk(t: Table, parent: HandleId, id: HandleId, allowance: nat,
                      live: set<GrantId>, picks: set<PickId>, forgotten: set<GrantId>, overtaken: set<PickId>, next: nat)
    requires TableOk(t, live, picks, forgotten, overtaken, next) && parent in t.handles && next <= id
    ensures TableOk(Derive(t, parent, id, allowance), live, picks, forgotten, overtaken, id + 1)
  {
    hide HasRoom;
  }

  lemma ReleaseKeepsOk(t: Table, id: HandleId, live: set<GrantId>, picks: set<PickId>, forgotten: set<GrantId>, overtaken: set<PickId>, next: nat)
    requires TableOk(t, live, picks, forgotten, overtaken, next)
    ensures TableOk(Release(t, id), live, picks, forgotten, overtaken, next)
  {
    CloseKeepsTree(t.handles, {id});
  }

  // ---------------------------------------------------------------- ceilings

  /** No ceiling is passed, a picked file is a file of nobody's, and only a connection is derived, from a socket. */
  ghost predicate Shaped(handles: map<HandleId, Handle>) {
    && (forall budget :: |Counted(handles, budget)| <= Ceiling(budget))
    && (forall id :: id in handles && handles[id].auth.ByPick? ==> handles[id].kind.File? && handles[id].parent.None?)
    && (forall id :: id in handles && handles[id].parent.Some? ==>
          handles[id].kind.TcpSocket? && (handles[id].parent.value in handles ==> BudgetOf(handles[handles[id].parent.value].kind) == Sockets))
  }

  /** Some handles are gone, and none of the rest is of another kind, parent or sort of authorisation. */
  ghost predicate Fewer(handles: map<HandleId, Handle>, handles': map<HandleId, Handle>) {
    forall id :: id in handles' ==>
      id in handles && handles'[id].kind == handles[id].kind && handles'[id].parent == handles[id].parent
      && (handles'[id].auth.ByPick? <==> handles[id].auth.ByPick?)
  }

  lemma {:induction false} SubsetIsNoLarger<T>(a: set<T>, b: set<T>)
    requires a <= b
    ensures |a| <= |b|
  {
    if a != {} {
      var x :| x in a;
      SubsetIsNoLarger(a - {x}, b - {x});
    }
  }

  lemma FewerAreCounted(handles: map<HandleId, Handle>, handles': map<HandleId, Handle>, budget: Budget)
    requires Fewer(handles, handles')
    ensures |Counted(handles', budget)| <= |Counted(handles, budget)|
  {
    SubsetIsNoLarger(Counted(handles', budget), Counted(handles, budget));
  }

  lemma FewerAreShaped(handles: map<HandleId, Handle>, handles': map<HandleId, Handle>)
    requires Shaped(handles) && Fewer(handles, handles')
    ensures Shaped(handles')
  {
    hide Counted, BudgetOf, Ceiling;
    forall budget
      ensures |Counted(handles', budget)| <= Ceiling(budget)
    {
      FewerAreCounted(handles, handles', budget);
    }
  }

  lemma OneMoreIsShaped(handles: map<HandleId, Handle>, id: HandleId, handle: Handle)
    requires Shaped(handles) && TreeOk(handles) && id !in handles && |Counted(handles, BudgetOf(handle.kind))| < Ceiling(BudgetOf(handle.kind))
    requires handle.auth.ByPick? ==> handle.kind.File? && handle.parent.None?
    requires handle.parent.Some? ==> handle.kind.TcpSocket? && handle.parent.value in handles && BudgetOf(handles[handle.parent.value].kind) == Sockets
    ensures Shaped(handles[id := handle])
  {
    hide BudgetOf, Ceiling, Counted;
    forall budget
      ensures |Counted(handles[id := handle], budget)| <= Ceiling(budget)
    {
      OneMoreIsCounted(handles, id, handle, budget);
    }
  }

  lemma OneMoreIsCounted(handles: map<HandleId, Handle>, id: HandleId, handle: Handle, budget: Budget)
    requires id !in handles
    ensures |Counted(handles[id := handle], budget)| == |Counted(handles, budget)| + if budget == BudgetOf(handle.kind) then 1 else 0
  {
    hide BudgetOf;
    assert Counted(handles[id := handle], budget) == Counted(handles, budget) + if budget == BudgetOf(handle.kind) then {id} else {};
  }

  lemma RevokeLeavesFewer(t: Table, g: GrantId)
    ensures Fewer(t.handles, Revoke(t, g).handles)
  {
    hide Doomed;
  }

  lemma RevokePickLeavesFewer(t: Table, pick: PickId)
    ensures Fewer(t.handles, RevokePick(t, pick).handles)
  {
    hide Doomed;
  }

  /** A file fits still once a pick is taken back. */
  lemma RevokePickLeavesRoom(t: Table, pick: PickId)
    requires HasRoom(t, File, 0)
    ensures HasRoom(RevokePick(t, pick), File, 0)
  {
    RevokePickLeavesFewer(t, pick);
    hide RevokePick;
    FewerAreCounted(t.handles, RevokePick(t, pick).handles, Files);
  }

  lemma ReplaceLeavesFewer(t: Table, replaced: GrantId, replacement: GrantId, patterns: seq<Pattern>, coversAll: bool)
    ensures Fewer(t.handles, Replace(t, replaced, replacement, patterns, coversAll).handles)
  {
    hide Doomed, Uncovered;
  }

  lemma ReleaseLeavesFewer(t: Table, id: HandleId)
    ensures Fewer(t.handles, Release(t, id).handles)
  {
    hide Doomed;
  }

  lemma AddingKeepsShape(t: Table, op: OperationId, parent: HandleId, pick: PickId, id: HandleId, got: Resource, allowance: nat)
    requires Shaped(t.handles) && TreeOk(t.handles) && id !in t.handles
    ensures op in t.pending ==> Shaped(Acquire(t, op, id, got).handles)
    ensures parent in t.handles ==> Shaped(Derive(t, parent, id, allowance).handles)
    ensures Shaped(OpenPicked(t, pick, id).handles)
  {
    hide Counted, Shaped, TreeOk, Acquirable;
    if op in t.pending && HasRoom(t, got.kind, got.allowance) {
      OneMoreIsShaped(t.handles, id, Handle(got.kind, ByGrant(Current(t, t.pending[op])), None, got.covered));
    }
    if parent in t.handles && Derivable(t, parent, allowance) {
      PickedIsNoSocket(t.handles, parent);
      OneMoreIsShaped(t.handles, id, Handle(TcpSocket, t.handles[parent].auth, Some(parent), None));
    }
    if HasRoom(t, File, 0) {
      OneMoreIsShaped(t.handles, id, Handle(File, ByPick(pick), None, None));
    }
  }

  lemma PickedIsNoSocket(handles: map<HandleId, Handle>, id: HandleId)
    requires Shaped(handles) && id in handles && BudgetOf(handles[id].kind) == Sockets
    ensures handles[id].auth.ByGrant?
  {
  }

  // ---------------------------------------------------------------- the limit of the bounded memory

  /** `g` and `|later|` further grants remembered in turn. */
  function RememberEach(memory: seq<GrantId>, later: seq<GrantId>): seq<GrantId> {
    if later == [] then memory else Remember(RememberEach(memory, later[..|later| - 1]), later[|later| - 1])
  }

  ghost predicate Distinct(s: seq<GrantId>) {
    forall i, j :: 0 <= i < j < |s| ==> s[i] != s[j]
  }

  lemma DistinctFront(all: seq<GrantId>, n: nat)
    requires Distinct(all) && |all| == n + 1
    ensures Distinct(all[..n]) && all[n] !in all[..n]
  {
  }

  lemma RememberAtEnd(all: seq<GrantId>, last: GrantId)
    requires last !in all
    ensures var was := if |all| <= REVOKED_GRANT_MEMORY then all else all[|all| - REVOKED_GRANT_MEMORY..];
      Remember(was, last) == if |all| < REVOKED_GRANT_MEMORY then all + [last] else (all + [last])[|all| + 1 - REVOKED_GRANT_MEMORY..]
  {
  }

  /** The queue after distinct new entries: the last of old and new together, up to the bound. */
  lemma {:induction false} RememberEachIsSuffix(memory: seq<GrantId>, later: seq<GrantId>)
    requires |memory| <= REVOKED_GRANT_MEMORY && Distinct(memory + later)
    ensures var all := memory + later;
      RememberEach(memory, later) == if |all| <= REVOKED_GRANT_MEMORY then all else all[|all| - REVOKED_GRANT_MEMORY..]
  {
    hide Distinct, Remember;
    if later == [] {
      assert memory + later == memory;
    } else {
      var front, last := later[..|later| - 1], later[|later| - 1];
      var n := |memory + front|;
      assert memory + later == (memory + front) + [last];
      DistinctFront(memory + later, n);
      assert (memory + later)[..n] == memory + front;
      RememberEachIsSuffix(memory, front);
      RememberAtEnd(memory + front, last);
    }
  }

  /**
   The tombstone of a dead grant is still there exactly while fewer than `REVOKED_GRANT_MEMORY` others came after it; past
   that, work still in flight that answers to the grant is let in. A revocation cancels all such work, so there is some only
   where the grant had replaced another, kept what was in flight under that one, and was then itself replaced by one that
   covers less.
   */
  lemma TombstoneHoldsUntilEvicted(before: seq<GrantId>, g: GrantId, after: seq<GrantId>, t: Table, op: OperationId)
    requires |before + [g]| <= REVOKED_GRANT_MEMORY && Distinct((before + [g]) + after)
    requires op in t.pending && Current(t, t.pending[op]) == g
    requires t.tombstones == RememberEach(before + [g], after)
    ensures Acquirable(t, t.pending[op]) <==> |after| >= REVOKED_GRANT_MEMORY
  {
    var all := (before + [g]) + after;
    RememberEachIsSuffix(before + [g], after);
    assert all[|before|] == g;
    var from := if |all| <= REVOKED_GRANT_MEMORY then 0 else |all| - REVOKED_GRANT_MEMORY;
    assert t.tombstones == all[from..];
    if from <= |before| {
      assert t.tombstones[|before| - from] == g;
    }
  }
}
