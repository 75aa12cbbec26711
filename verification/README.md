# A model of the browser's hardest machinery, with proofs

Orivon is a browser that runs web apps with capabilities a person grants them. This project models eight of its parts and
proves what each promises. `dafny verify dfyconfig.toml` checks everything.

| files | what they model |
|---|---|
| `Regroup`, `Register`, `Bip173`, `Bech32` | the npub encoder: 8-to-5-bit regrouping, the checksum's register, the checksum, the text |
| `Field32` | BIP-173's own polynomial account of that register |
| `LoginFields`, `LoginChoices` | the in-place union-find that groups password boxes by the element that scopes them; which boxes are the username and the new password |
| `HandleTable`, `GrantLedger`, `BrokerState`, `Broker` | grants, live handles, picked paths, pinned manifests and embed scripts, with any write to storage failing |
| `BrokerRuns`, `BrokerWitnesses` | what holds over every run of broker calls, and runs that show where it ends |
| `BrokerEffects` | what each broker call does, said without the functions it is made of; the version floor over restarts |
| `Versions` | the order of version strings that an app's version floor goes by |
| `ByteWindow`, `WriteWindow`, `DatagramWindow` | the credit windows between broker and renderer, both ends and the queues between them |
| `Hex`, `Json`, `Utf8`, `Nip01` | what is hashed for a NIP-01 event id |
| `JsonReader`, `EventReading` | readers of JSON, UTF-8 and hexadecimal that know no printer, and what they read an id to be of |
| `Labels`, `Protocols`, `Urls`, `Addresses` | names as host labels, and addresses to URLs and back |
| `PickedPaths`, `RoutePace` | the stand-in paths of picked files; how patient a request is on its route |
| `NameUpdates`, `PowerSaveBlocker`, `ChildHost` | three asynchronous machines, one event-loop turn a step |
| `Results`, `Sums`, `Text` | small shared vocabulary |

Code that computes is functions and lemmas. Loops are methods with invariants, proved against the function they compute.
Objects that change are classes whose methods say what the new state is as a function or relation of the old one; every
run of such steps is then covered by lemmas over that relation. The broker and the child bridge keep their fields in one
record, `state`. A clock, a random id, a storage failure and what the network, the browser or the operating system answers are
parameters.

## Where the code and its own words differ

The model follows the code. Each of these is stated by a lemma or contract below.

- `ipc.ts` says the broker sends at most the read window ahead. The pump checks its credit before a read whose size it cannot
  know, so it can be ahead by one chunk more, less a byte. The same holds for the datagram window's bytes, not its count.
- Datagram credit coalesced by count alone can stick with the shipped limits: 17 datagrams of 65,507 bytes use up the byte window
  and are fewer than 32. The microtask flush in the preload is what prevents it.
- A renderer that posts one write at a time can still be refused by the 128-write ceiling, through empty writes: a heartbeat
  resolves an empty write the socket has not yet taken.
- Discards counted before a datagram pump starts are not told to the page until something else is.
- `forgetOrigin` in the ledger says a failed forget changes nothing. Its four deletions are not a transaction: the stored floor can be
  gone with the record and its floor in memory still there. `Broker.forgetOrigin` does not see that failure and does not clear
  a pinned manifest, so a forgotten app can still be registered: it is exactly if it is pinned.
- It also looks at the grants once, first: one that lands before the record goes is dropped unrevoked, and work begun under it
  gets its handle. That takes both landing in the few microtasks after the session's end, which itself refuses work.
- A stored embed script implies a live grant except after a restore that does not bring `web.embed` back, or a record dropped with
  the grant in it: neither clears a script; the script is shown again with the next grant.
- `handles.ts` says a pick has no window for a late acquisition. A picked file is recorded before it is opened and registered
  after, so a pick revoked in between leaves an open handle under no pick.
- `tombstones.ts` says 576 remembered revocations are enough because an origin holds far fewer grants. What the memory must outlast
  is work in flight. Revoking a grant cancels that, but work that a covering grant took over from the one it replaced is only
  refused by the memory once that grant is itself replaced by one that covers less: after 576 more revocations it gets its handle
  under the dead grant.
- `displayUrl` is not idempotent where a scheme's endpoint is asked for a name that reads as credentials:
  `https://ipfs.orivon/user@host/` is shown as `ipfs://user@host/`, and that as `ipfs://host/`.
- `picked-paths.ts` says a `..` never reaches another pick. It does where the path goes on to spell out the other's id.
- The offer cache keys a pin by its content address. Pins without one look alike to it, so one is answered with another's offer.
- Credit a renderer claims unread is clamped to the window, and is credit all the same: it is sent any number of bytes.
- A hole in an array passes event validation and prints as `null`; events still never print alike.

## Model

| member | source | states |
|---|---|---|
| `Register.Polymod` | src/nostr/bech32.ts:28-38 | the loop over the running register computes the fold of the GF(2) step over the symbols |
| `Register.StepLinear` | src/nostr/bech32.ts:30-36 | one step is linear over GF(2): the step of a xor is the xor of the steps |
| `Register.FoldLinear` | src/nostr/bech32.ts:28-38 | so is the whole run, over two symbol strings of one length |
| `Register.PolymodStaysBelowTwoTo30` | src/nostr/bech32.ts:29-37 | after every symbol the register is below 2^30, for any symbols below 2^30, so the signed 32-bit operations of the original agree with unsigned ones |
| `Register.ZeroStepInjective` | src/nostr/bech32.ts:26-36 | a step on a zero symbol loses nothing: two registers that it makes equal were equal |
| `Register.SixSymbolsShiftIn` | src/nostr/bech32.ts:30-36 | from a zero register up to six words shift in unreduced, and leave zero only if all were zero |
| `Field32.StepReduces` | src/nostr/bech32.ts:26-36 | the step is BIP-173's: over the field of 32 the register is multiplied by x, the symbol added, and reduced by the generator polynomial, coefficient by coefficient |
| `Field32.PrefixGoesIn` | src/nostr/bech32.ts:40-43 | a prefix goes in as the high bits of its characters, a zero, and their low five bits, each in order |
| `Bip173.BurstChangesPolymod` | src/nostr/bech32.ts:28-38 | two symbol strings of any one length that differ only inside six consecutive symbols have different polymods |
| `Bip173.HrpSymbolsAreSmall` | src/nostr/bech32.ts:40-43 | every symbol of an expanded prefix is below 2^30, whatever its code points, so that bound covers every prefix |
| `Bip173.CreateChecksum` | src/nostr/bech32.ts:48-54 | the pushing loop yields the six 5-bit groups of the polymod with its constant folded in |
| `Bip173.ChecksumVerifies` | src/nostr/bech32.ts:40-54 | prefix, data and the checksum made for them have polymod 1, for every prefix and data |
| `Bip173.ChecksumIsUnique` | src/nostr/bech32.ts:48-54 | and no other six words do |
| `Bip173.CorruptionIsDetected` | src/nostr/bech32.ts:28-54 | a string that verifies, changed only inside six consecutive symbols, does not verify |
| `Bech32.Bech32Encode` | src/nostr/bech32.ts:61-69 | refuses any word out of range; otherwise prefix, `1`, and the letters of the words and their checksum |
| `Bech32.TextDeterminesParts` | src/nostr/bech32.ts:61-69 | the text determines the prefix and the words |
| `Regroup.EightBitsToFiveBits` | src/nostr/bech32.ts:77-91 | the accumulator loop, never trimmed, yields the regrouped bits: what is left in its high bits reaches no word |
| `Regroup.WordsKeepBits` | src/nostr/bech32.ts:77-91 | the words are the bits of the bytes, in order, then zero padding; ceil(8n/5) of them, each below 32 |
| `Regroup.BytesRegroup` | src/nostr/bech32.ts:77-91 | 5-to-8 regrouping of bits gives bytes back |
| `Regroup.RegroupingUndoesWords` | src/nostr/bech32.ts:77-91 | regrouping the words into bytes gives back the bytes they came from, for every length |
| `Bech32.NpubEncode` | src/nostr/bech32.ts:96-101 | refuses any length but 32; otherwise prefix, words and checksum of the key |
| `Bech32.NpubIdentifiesKey` | src/nostr/bech32.ts:96-101 | an npub is 63 characters, and two keys with one npub are one key |
| `LoginFields.Find` | src/preload/login-fields.ts:106-110 | walking up the parent array ends, at the root of the forest the index is in |
| `LoginFields.LinkKeepsForest` | src/preload/login-fields.ts:111-115 | pointing one root at another keeps the array a forest, also where a smaller index comes to point at a larger one |
| `LoginFields.LinkKeepsSoundness` | src/preload/login-fields.ts:111-115 | and never puts two indices under one root that no chain of related scopes joins |
| `LoginFields.RepresentativesAreComponents` | src/preload/login-fields.ts:111-115 | after all pairs two indices share a root iff a chain of related scopes joins them |
| `LoginFields.CollectKeepsGrouped` | src/preload/login-fields.ts:116-117 | filling the map index by index keeps members ascending and groups in order of first member |
| `LoginFields.ScopeCoversIfAnyDoes` | src/preload/login-fields.ts:118-120 | the scope chosen for a group covers all its members whenever some member of it does |
| `LoginFields.GroupByScope` | src/preload/login-fields.ts:104-122 | the in-place algorithm yields exactly the connected components: a partition, ascending, in order of first member, each with its scope |
| `LoginFields.GroupHasCover` | src/preload/login-fields.ts:99-103 | when holding is containment in a tree of elements every component has a member that holds the rest |
| `LoginFields.EveryGroupIsHeldByItsScope` | src/preload/login-fields.ts:99-122 | so then the scope of every group does hold all of it, as the function documents |
| `LoginChoices.ChooseUsername` | src/preload/login-fields.ts:42-51 | the loop picks the last input the page labels a username, else the last that could be one, else none |
| `LoginChoices.PairOfIsPair` | src/preload/login-fields.ts:134-139 | a box and its confirmation are neighbours among the boxes not called current, in page order |
| `LoginChoices.LeaderLeads` | src/preload/login-fields.ts:124-134 | the new password goes to the first box the page calls new, with none to the middle one of three, else to the first not called current |
| `LoginChoices.ChosenArePaired` | src/preload/login-fields.ts:124-142 | the boxes chosen are that box and its confirmation, or the touched box and its own where it is outside that pair |
| `LoginChoices.OnePairEach` | src/preload/login-fields.ts:134-139 | a box has one such pair only |
| `LoginChoices.ChosenBoxes` | src/preload/login-fields.ts:124-142 | two boxes at most, never one called current, none passed over; the touched box is among them, and the new password unless the touched box draws them away |
| `HandleTable.CloseByAuthIsExact` | src/broker/handles/handle-store.ts:316-400 | closing everything filed under some authorisations closes those handles and no others: a derived handle shares its parent's |
| `HandleTable.RevokeIsExact` | src/broker/handles/handles.ts:308-346 | a revoked grant leaves no handle, and no acquisition that answers to it, and touches nothing else |
| `HandleTable.RevokeKeepsOk` | src/broker/handles/handles.ts:308-346 | revoking keeps every handle authorised and every acquisition in flight either live or refused |
| `HandleTable.RevokePickKeepsOk` | src/broker/handles/handles.ts:377-392 | revoking a pick closes exactly its handles |
| `HandleTable.ReplaceKeepsExactly` | src/broker/handles/grant-replacement.ts:39-75 | a replacing grant keeps, under its own id, exactly the handles it still covers all the way up to where they derive from |
| `HandleTable.ReplaceKeepsOk` | src/broker/handles/grant-replacement.ts:39-75 | replacing keeps the invariant, for both ways of treating work in flight |
| `HandleTable.AcquireKeepsOk` | src/broker/handles/handles.ts:54-65 | a late acquisition lands iff the grant it now answers to is not remembered as revoked and there is room for its kind, and then under a grant that stands |
| `HandleTable.DeriveKeepsOk` | src/broker/handles/handles.ts:76-102 | an accepted connection is authorised as its listener is |
| `HandleTable.ReleaseKeepsOk` | src/broker/handles/handles.ts:214-230 | closing a handle with all derived from it keeps the invariant |
| `HandleTable.RememberEachIsSuffix` | src/broker/handles/tombstones.ts:36-47 | the bounded memory holds the last 576 different grants revoked |
| `GrantLedger.GrantKeepsOrigin` | src/broker/grants/grant-ledger.ts:431-442 | recording a grant, with or without one it replaces, keeps ledger and handle table in step |
| `GrantLedger.RevokeKeepsOrigin` | src/broker/grants/grant-ledger.ts:454-464 | revoking by id does, also for an id nobody holds |
| `GrantLedger.RevokeInKeepsOrigin` | src/broker/grants/grant-ledger.ts:378-397 | revoking by capability does |
| `GrantLedger.HydrateOneMore` | src/broker/grants/grant-persistence.ts:43-65 | each stored grant is kept under its live id, given a new one, or dropped, with ids staying distinct |
| `GrantLedger.HydratedIds` | src/broker/grants/grant-persistence.ts:93-118 | after hydration the live ids are those kept and those newly minted, every other one being reported superseded |
| `GrantLedger.RevokeEachKeepsOk` | src/broker/grants/grant-persistence.ts:84-92 | revoking a list one by one, in any order, keeps the invariant for the ledger without them |
| `GrantLedger.HydrationKeepsOk` | src/broker/grants/grant-persistence.ts:93-118 | hydrating and revoking what it superseded keeps ledger and table in step and no superseded handle open |
| `BrokerState.GrantKeepsOk` | src/broker/index.ts:390-425 | granting keeps every origin sound, touches one origin, and keeps script-implies-grant, whether or not it can be written |
| `BrokerState.RevokeKeepsWorld` | src/broker/index.ts:435-457 | so does revoking by id |
| `BrokerState.RevokePersistedKeepsOk` | src/broker/index.ts:327-365 | so does revoking by capability |
| `BrokerState.RevocationHolds` | src/broker/index.ts:327-365 | a revocation that cannot be written still removes the grant, its handles and its in-flight work; it leaves storage as it was and tells nobody |
| `BrokerState.RestoreKeepsOk` | src/broker/grants/grant-ledger.ts:193-226 | restoring grants keeps every origin sound; a stored script then has its grant iff what is stored still admits `web.embed` |
| `BrokerState.RegisterKeepsOk` | src/broker/index.ts:239-252 | registering is sound, and keeps script-implies-grant exactly on that condition |
| `BrokerState.PinKeepsOk` | src/broker/index.ts:271-276 | so is hydrating from a pinned manifest |
| `BrokerState.FailedForgetKeepsStorage` | src/broker/grants/grant-ledger.ts:271-292 | a failed forget leaves the stored floor and grants as they were iff no deletion before the one that failed had anything to delete |
| `BrokerRuns.StepKeepsOk` | src/broker/index.ts:239-464 | every call keeps every origin sound, changes its own origin alone, and keeps script-implies-grant exactly on the condition stated for it |
| `BrokerEffects.GrantDoes` | src/broker/index.ts:390-425 | a grant takes the place of the old one in the ledger and, written, in storage; of the old one's handles just those stay, under the new id, that accept the new patterns (by their own test, or by the covering of old by new) up to where they derive from; its work goes over or is cancelled; nothing else moves |
| `BrokerEffects.RevokeDoes` | src/broker/index.ts:435-457 | revoking by id takes that grant from ledger and storage, its script if it is `web.embed`, and just the handles and work that go with it |
| `BrokerEffects.RevokedIsRemembered` | src/broker/handles/handles.ts:308-320 | and while there is room the table remembers it as dead, with those whose work it had taken over, once each, forgetting none |
| `BrokerEffects.RevokePersistedDoes` | src/broker/index.ts:327-365 | revoking by capability does the same, and tells only of what was removed and written |
| `BrokerEffects.RegisterDoes` | src/broker/index.ts:239-252 | registering sets the manifest, restores each stored grant the manifest admits under its live id where the patterns are the same, closes just what the rest authorised, and raises the floor from the one stored to a newer version only |
| `BrokerEffects.PinDoes` | src/broker/index.ts:271-276 | hydrating from a pinned manifest restores alike until the app registers, and only starts the floor |
| `BrokerEffects.FloorStarts` | src/broker/grants/update-safety.ts:47-68 | whatever call first makes a record, its floor starts from the one stored where that is above 0.0.0 or of no order, and else, or where nothing may be stored, at 0.0.0 |
| `BrokerEffects.StoredFloorMoves` | src/broker/grants/update-safety.ts:104-123 | the stored floor changes to a registered version that raised it and was written, or goes when it is deleted, and in no other way |
| `BrokerEffects.StoredFloorOutlivesRestarts` | src/broker/grants/update-safety.ts:23-68 | in every run from storage that holds a floor, until that is deleted, neither the stored floor nor the one in memory is older than it |
| `BrokerEffects.ReleaseDoes` | src/broker/handles/handles.ts:214-222 | releasing a held handle closes it and all derived from what closes, and leaves every other handle, the work and the memory as they were; releasing any other changes nothing |
| `BrokerEffects.FinishDoes` | src/broker/handles/handles.ts:54-65 | finished work gets one handle of its kind, under the grant it answers to now, iff that is not remembered as dead and there is room: under 512 sockets and its own allowance, 64 files, 2 contexts, 32 embeds, 64 identities |
| `BrokerEffects.DeriveDoes` | src/broker/handles/handles.ts:76-102 | a connection on a held socket gets one under the same authorisation and below that socket, on the same conditions |
| `BrokerEffects.BeginDoes` | src/broker/handles/in-flight.ts:36-81 | work begins under the id of the grant held |
| `BrokerEffects.PickDoes` | src/broker/capabilities/user-selected.ts:282-286 | a pick is recorded and told before its file is open |
| `BrokerEffects.PickOpenedDoes` | src/broker/capabilities/user-selected.ts:286-298 | an open file gets a handle of kind file under its pick iff there is room |
| `BrokerEffects.PickFailedDoes` | src/broker/capabilities/user-selected.ts:287-295 | a file that does not open is no longer being opened, and its pick stays |
| `BrokerEffects.RevokePickDoes` | src/broker/index.ts:382-388 | taking a pick back takes it and just its handles |
| `BrokerEffects.DropDoes` | src/broker/index.ts:462-464 | a session's end takes handles and work and nothing else |
| `BrokerEffects.ScriptDoes` | src/broker/capabilities/embed.ts:68-78 | a script is kept or dropped only under a live grant and up to 4 MiB |
| `BrokerEffects.ScriptIsShown` | src/broker/capabilities/embed.ts:46-50 | and shown iff the grant is live |
| `BrokerEffects.BytesOfText` | src/broker/capabilities/embed.ts:28-31 | counted in UTF-8, character by character |
| `BrokerEffects.ForgetRecordDoes` | src/broker/grants/grant-ledger.ts:271-292 | forgetting deletes the stored floor first, the stored grants third and the record last |
| `BrokerRuns.RunKeepsOk` | src/broker/index.ts:57-464 | so every run of calls, with any writes failing, is sound throughout |
| `BrokerRuns.OriginsAreApart` | src/broker/index.ts:57-464 | and no stretch of a run changes an origin that none of its calls is for |
| `BrokerRuns.EveryHandleIsAuthorised` | src/broker/broker-contracts.ts:443-486 | in every run an open handle stands under a grant its own origin holds now iff that grant's tombstone was not pushed out with work in flight that answers to it and its record not dropped with it in use, or under a pick it holds now iff it did not take the pick back while the file was being opened |
| `BrokerRuns.ForgottenIsLost` | src/broker/handles/tombstones.ts:17-47 | what the invariant calls forgotten is just what some call of that origin pushed or dropped so |
| `BrokerRuns.OvertakenIsOvertaken` | src/broker/capabilities/user-selected.ts:282-299 | and what it calls overtaken just what that origin took back so |
| `BrokerRuns.LosingNeedsAFullQueue` | src/broker/handles/tombstones.ts:36-47 | no call that leaves the memory of revoked grants short of 576 pushes anything out |
| `BrokerWitnesses.DeadGrantGetsAHandle` | src/broker/handles/grant-replacement.ts:58-75 | from a start: work begun under a grant that was replaced by one covering it and that by one not covering it gets a handle under the dead grant iff at least 576 grants were revoked before it is done |
| `BrokerWitnesses.OvertakenPickIsReached` | src/broker/capabilities/user-selected.ts:282-299 | from any state reached with room for a file: a pick taken back while its file opens gets its handle, under a pick nobody holds |
| `BrokerRuns.CeilingsHold` | src/broker/handles/handle-store.ts:203-231 | in every run no origin passes a ceiling, a picked handle is a file nothing derives from, and a derived one is a connection from a socket |
| `BrokerRuns.ScriptImpliesGrant` | src/broker/capabilities/embed.ts:68-82 | a stored script has implied a live grant all through a run iff every restore for that origin brought `web.embed` back where a script was stored, and no record was dropped with one |
| `BrokerWitnesses.ScriptOutlivesItsGrant` | src/broker/grants/grant-ledger.ts:193-226 | from a start: an app registering whose grant was never written, or is no longer admitted, leaves its script without a grant; the next grant shows it again |
| `BrokerRuns.WhatIsWrittenIsLive` | src/broker/grants/grant-persistence.ts:139-148 | from a grant on, while an origin's writes succeed, no forget fails at its last deletion and nothing is restored, storage holds just what is live for it |
| `GrantLedger.RestoringWhatIsStoredChangesNothing` | src/broker/grants/grant-persistence.ts:67-118 | restoring what was stored of the live grants, under a manifest that still admits each, keeps every one under its id and supersedes none |
| `BrokerRuns.ChangesAreTold` | src/broker/index.ts:327-464 | over any stretch of a run without a restore or an unwritten revocation for an origin, whoever watches was told of it if its grants changed |
| `BrokerRuns.FloorOnlyRises` | src/broker/grants/grant-ledger.ts:169-178 | a call for an origin moves its version floor iff it registers a newer version, and then to that |
| `BrokerRuns.FloorNeverFalls` | src/broker/grants/update-safety.ts:104-123 | over any stretch of a run in which the record stands the floor stays or becomes a newer version, and no version registered meanwhile is newer than it |
| `Versions.VersionsAreOrdered` | src/broker/policy/version-order.ts:18-94 | comparing versions is an order where they can be ordered: it turns round with its arguments and chains, and equal versions compare alike with any other |
| `Versions.NewerIsAnOrder` | src/broker/policy/version-order.ts:18-94 | no version is newer than itself, and newer than newer is newer, unorderable versions included |
| `Versions.NewerIsLater` | src/broker/policy/version-order.ts:18-87 | newer is the later release by its first different number, or the same release where the other is a prerelease and this is none or a later one |
| `Versions.IdentifiersAreRead` | src/broker/policy/version-order.ts:60-87 | of two identifiers a number is before a word, numbers go by value, words by their first different character |
| `Versions.VersionReads` | src/broker/policy/version-order.ts:42-57 | a release, a prerelease and build metadata printed together are read back, the build dropped |
| `Versions.ReadVersions` | src/broker/policy/version-order.ts:42-57 | and nothing else is a version |
| `Versions.NumbersAre` | src/broker/policy/version-order.ts:39-40 | a number is one to nine digits |
| `Versions.IdentifiersAre` | src/broker/policy/version-order.ts:39-40 | an identifier is letters, digits and hyphens |
| `BrokerEffects.SemanticVersionsAreOrdered` | src/broker/policy/version-order.ts:18-94 | so this order meets what the floor theorems ask of one |
| `BrokerWitnesses.FloorForgottenInStorageOnly` | src/broker/grants/grant-ledger.ts:271-292 | from a start: forgetting can fail with the stored floor gone and the one in memory standing |
| `BrokerWitnesses.DroppedGrantGetsAHandle` | src/broker/forget-origin.ts:20-30 | from a start: a grant that lands between the handles going and the record going is dropped unrevoked, and work begun under it gets its handle |
| `BrokerModel.Broker.constructor` | src/broker/index.ts:57-95 | a broker starts with nothing but what storage holds |
| `BrokerModel.Broker.Grant` | src/broker/index.ts:390-425 | the imperative call makes exactly that step and throws iff the write failed |
| `BrokerModel.Broker.Revoke` | src/broker/index.ts:435-457 | likewise |
| `BrokerModel.Broker.RevokePersisted` | src/broker/index.ts:327-365 | likewise, answering whether anything was removed |
| `BrokerModel.Broker.Restore` | src/broker/grants/grant-persistence.ts:93-118 | the two loops of hydration rebuild the grants and revoke the superseded ones |
| `BrokerModel.Broker.RegisterApp` | src/broker/index.ts:239-252 | hydrates once, raises the floor in memory even where writing it fails, and reports that |
| `BrokerModel.Broker.HydrateFromPinnedManifest` | src/broker/index.ts:271-276 | hydrates until the app registers, and pins the manifest |
| `BrokerModel.Broker.RecordPick` | src/broker/capabilities/user-selected.ts:282-286 | a pick is recorded, and told, before its file opens |
| `BrokerModel.Broker.OpenPicked` | src/broker/capabilities/user-selected.ts:286-298 | its handle is registered where there is room for a file, with no second look at the pick |
| `BrokerModel.Broker.OpeningFailed` | src/broker/capabilities/user-selected.ts:287-295 | a file that does not open leaves its pick recorded |
| `BrokerModel.Broker.RevokeUserSelectedPath` | src/broker/index.ts:382-388 | the pick goes with its handles; the result says whether it was there |
| `BrokerModel.Broker.BeginAcquire` | src/broker/handles/in-flight.ts:36-81 | work begins under the grant the ledger holds, or is denied |
| `BrokerModel.Broker.FinishAcquire` | src/broker/handles/handles.ts:54-65 | work that was not cancelled asks to register and is told whether it was, or which of a withdrawn grant and a full ceiling stopped it |
| `BrokerModel.Broker.AcquireDerived` | src/broker/handles/handles.ts:76-102 | an accepted connection is registered under its listener iff that is a socket whose grant stands and there is room, with the refusals told apart |
| `BrokerModel.Broker.Release` | src/broker/handles/handles.ts:214-230 | a handle closes with all derived from it |
| `BrokerModel.Broker.DropOrigin` | src/broker/index.ts:462-464 | a session's handles and work go; grants, picks and storage stay |
| `BrokerModel.Broker.ForgetOrigin` | src/broker/forget-origin.ts:20-30 | all or stop: it throws iff a held and stored capability cannot be written out, and then record, floor and picks stand and storage lost just what was withdrawn before; otherwise no grant, handle or pick remains, storage holds what the deletions that succeeded leave, the record goes iff all did, and the app is then still registered iff it is pinned |
| `BrokerModel.Broker.ForgetRecord` | src/broker/grants/grant-ledger.ts:271-292 | what is stored goes in order, and the record only once all of it is gone, whatever grants it holds by then |
| `BrokerModel.Broker.SetEmbedScript` | src/broker/capabilities/embed.ts:68-78 | a script is stored only under a live grant and up to 4 MiB of UTF-8, with the refusals told apart |
| `BrokerModel.Broker.ScriptSync` | src/broker/capabilities/embed.ts:46-50 | a page is given the stored script iff the grant is live |
| `BrokerModel.Broker.RegisteredOriginsSync` | src/broker/index.ts:184-186 | lists exactly the registered origins |
| `BrokerModel.Broker.ManifestOf` | src/broker/index.ts:146-154 | answers exactly for those, the ledger's manifest winning over a pinned one |
| `ByteWindow.StepKeepsSound` | src/contracts/ipc.ts:59-85 | window = credit + bytes in flight + queued + unreported + credit in flight, and bytes arrive in order without loss, over every step of either end |
| `ByteWindow.RunKeepsSound` | src/broker/transport/relay/port-pump.ts:82-147 | and over every run |
| `ByteWindow.AheadByLessThanOneChunkMore` | src/broker/transport/relay/port-pump.ts:91-100 | the broker is ahead by less than the window and one chunk; a read stays within the window iff its chunk fits the credit left |
| `ByteWindow.TheBoundIsReached` | src/broker/transport/relay/port-pump.ts:91-100 | for every window and chunk size some run gets that far ahead |
| `ByteWindow.WorkGoesDown` | src/preload/ports/socket.ts:247-262 | every step but a read uses up a finite amount of work |
| `ByteWindow.QuietMeansFullCredit` | src/contracts/ipc.ts:419-431 | until things are quiet some such step can happen, and once they are the whole window is available |
| `ByteWindow.WithheldCreditNeverBlocks` | src/contracts/ipc.ts:419-431 | credit still withheld below the threshold never blocks the real window by itself |
| `ByteWindow.CreditIsCoalesced` | src/contracts/ipc.ts:419-431 | in every run each credit message but those a timer sends is for 64 KiB of its own |
| `ByteWindow.ForgedCreditIsClamped` | src/broker/transport/relay/port-pump.ts:125-136 | in every run with any credit claimed at any time the budget stays within the window, the broker less than one chunk ahead of it, and bytes in order |
| `ByteWindow.OneMessageIsWorthOneWindow` | src/broker/transport/relay/port-pump.ts:125-136 | so between two credit messages, true or forged, less than the window and one chunk is read |
| `ByteWindow.UnconsumedBytesPileUp` | src/broker/transport/relay/port-pump.ts:125-136 | yet by claiming bytes back unread a renderer is sent any number it has not consumed |
| `WriteWindow.StepKeepsSound` | src/contracts/ipc.ts:103-160 | a posted write is exactly what is on its way, held, accepted but unacknowledged, or acknowledged; bytes reach the socket in order |
| `WriteWindow.WritesAreTakenAndResolve` | src/broker/transport/relay/port-sink.ts:189-235 | a renderer that posts no empty write and none above the window is never refused, and a write resolves only once the socket accepted all of it, and has once things are quiet |
| `WriteWindow.EveryWriteCanResolve` | src/broker/transport/relay/port-sink.ts:189-235 | from wherever such a run has got to the relay can take a step of its own until it is quiet, and such steps lead to every posted write accepted and resolved |
| `WriteWindow.AtMostWorkMany` | src/broker/transport/relay/port-sink.ts:189-235 | whichever of those steps are taken there are finitely many |
| `WriteWindow.AcknowledgementsAreCoalesced` | src/broker/transport/relay/port-sink.ts:116-145 | in every run each acknowledgement but those of a heartbeat or of an emptied sink is for 64 KiB of its own |
| `WriteWindow.LargestWriteIsTheWindow` | src/broker/transport/relay/port-sink.ts:202-205 | over all runs of a renderer that posts no empty write: none is refused iff its largest write is no larger than the window |
| `WriteWindow.RefusedByCountOnly` | src/broker/transport/relay/port-sink.ts:67-77 | with empty writes allowed, a run of writes within the window is refused iff some write finds 128 held |
| `WriteWindow.SplitWrite` | src/preload/ports/socket.ts:268-280 | a larger write is posted in pieces of the window's size and a rest that join to it |
| `WriteWindow.EmptyWritesPileUp` | src/broker/transport/relay/port-sink.ts:116-145 | empty writes are resolved by heartbeats while the socket has yet to take them, up to any number the count allows |
| `WriteWindow.EmptyWritesCanBeRefused` | src/broker/transport/relay/port-sink.ts:67-77 | so a renderer that keeps to one write at a time can be refused after all, by count |
| `DatagramWindow.StepKeepsSound` | src/contracts/ipc.ts:249-270 | both windows are conserved over every step |
| `DatagramWindow.OutstandingIsBounded` | src/broker/transport/relay/datagram-pump.ts:94-124 | the count window is never exceeded; the byte window by less than one datagram, a read staying within it iff the datagram fits |
| `DatagramWindow.RealByteWindowIsExceeded` | src/contracts/limits.ts:89-127 | with the real limits a run of 18 datagrams gets that far over |
| `DatagramWindow.DrainedIsFull` | src/preload/ports/datagram.ts:229-243 | with the microtask flush a drained window is the whole window, and any legal datagram is read |
| `DatagramWindow.WorkGoesDown` | src/preload/ports/datagram.ts:229-243 | and draining takes finitely many steps |
| `DatagramWindow.NotDrainedMoves` | src/preload/ports/datagram.ts:229-243 | one of which can be taken until it is done |
| `DatagramWindow.CountAloneNeverSticks` | src/contracts/ipc.ts:465-481 | reporting by count alone never sticks when what may be withheld is short of both windows |
| `DatagramWindow.CountAloneSticks` | src/contracts/ipc.ts:465-481 | and some run sticks otherwise |
| `DatagramWindow.CountAloneIsExact` | src/contracts/ipc.ts:465-481 | so that condition is exact |
| `DatagramWindow.RoomByCountAloneIsExact` | src/contracts/ipc.ts:465-481 | as is coalesce * largest <= byte window and coalesce <= count window for the largest datagram always to fit |
| `DatagramWindow.RealLimitsNeedTheMicrotask` | src/contracts/limits.ts:76-127 | the real limits fail the first, so the microtask is what keeps a real socket from sticking |
| `DatagramWindow.StepKeepsTotals` | src/broker/transport/relay/datagram-pump.ts:66-79 | drop totals never run ahead of the adapter or backwards |
| `DatagramWindow.EveryDiscardCounts` | src/broker/transport/relay/datagram-pump.ts:66-92 | the total counts every discard, and is reported by itself only by a pump without credit and only when it is news |
| `DatagramWindow.TotalsConverge` | src/broker/transport/relay/datagram-pump.ts:66-92 | a blocked pump with no report due has the page showing the adapter's total, unless it never sent anything |
| `Hex.HexToBytes` | src/nostr/hex.ts:16-29 | refuses an odd length, then the first bad pair; otherwise each byte is its pair's value, either case |
| `Hex.DecodingUndoesEncoding` | src/nostr/hex.ts:9-29 | decoding what was encoded gives the bytes back |
| `Hex.EncodingUndoesDecoding` | src/nostr/hex.ts:9-29 | encoding what was decoded gives the digits back in lower case |
| `Hex.HexIsInjective` | src/nostr/hex.ts:9-11 | different bytes have different digits |
| `Json.EscapeIsDelimited` | src/nostr/nip01.ts:5-13 | an escaped string is recovered from its text and told from what follows, over all code units |
| `Json.ArrayIsDelimited` | src/nostr/nip01.ts:115 | so is an array of such things, to any depth |
| `Json.DecimalThenComma` | src/nostr/nip01.ts:115 | so is a number before a comma |
| `Utf8.EncodeIsInjective` | src/nostr/nip01.ts:116 | UTF-8 loses nothing on strings without lone surrogates |
| `Utf8.LoneSurrogatesCollide` | src/nostr/nip01.ts:116 | and does lose the difference between lone surrogates |
| `Utf8.EscapeIsWellFormed` | src/nostr/nip01.ts:115 | which escaping has written out by then |
| `Nip01.ValidateUnsignedEvent` | src/nostr/nip01.ts:56-74 | what is accepted is the event it is read as |
| `Nip01.ValidatorIsExact` | src/nostr/nip01.ts:56-74 | accepts exactly the well-typed events with a kind up to 65535, array holes included |
| `Nip01.SerializeIsInjective` | src/nostr/nip01.ts:115 | no two events print alike, whatever their strings hold |
| `Nip01.SerializeIsWellFormed` | src/nostr/nip01.ts:115-116 | the print holds no lone surrogate |
| `Nip01.PreimageIsInjective` | src/nostr/nip01.ts:115-116 | so the hashed bytes determine key and event |
| `EventReading.EscapeIsShortest` | src/nostr/nip01.ts:115 | no well-formed text that reads as a string is shorter than what is printed of it |
| `EventReading.EscapesAreLowerCase` | src/nostr/nip01.ts:115 | the digits of an escape are lower-case, which leaves one shortest text |
| `EventReading.HexDecodesAsRead` | src/nostr/hex.ts:16-29 | what decodes, and to which bytes, is what an independent reader of digit pairs of either case says |
| `Nip01.FirstBadFieldIsNamed` | src/nostr/nip01.ts:56-74 | a refusal names the first field that no event has |
| `Nip01.WhatHasAnId` | src/nostr/nip01.ts:82-118 | an id exists exactly for what is an event under a key of 64 digits 0-9, a-f; the event is judged before the key |
| `Nip01.EqualIdsMeanEqualEvents` | src/nostr/nip01.ts:111-118 | equal ids mean equal digests of the two byte strings hashed, and where those are equal, one event under one key |
| `EventReading.SerializedReads` | src/nostr/nip01.ts:115 | read as JSON (RFC 8259) the text is an array of six by position: 0, the key, created_at, kind, the tags with each hole a null, the content |
| `EventReading.EncodedReads` | src/nostr/nip01.ts:116 | read as UTF-8 (RFC 3629) the bytes of a string are the string, with U+FFFD for each lone surrogate |
| `EventReading.HexReads` | src/nostr/hex.ts:9-11 | read as pairs of hexadecimal digits the printed digest is the digest |
| `EventReading.IdIsOfItsEvent` | src/nostr/nip01.ts:111-118 | so an id is of the digest of bytes that read as that array of what was handed over |
| `Nip01.OnlyLowerCaseKeysHaveIds` | src/nostr/nip01.ts:82-118 | a key with a capital digit has no id; every id is lower-case |
| `Labels.DecodesBackIffDotsStandApart` | src/protocols/address.ts:29-44 | decoding the hyphen-doubled form gives the name back iff no dot is directly followed by a dot or a hyphen |
| `Labels.CodesBack` | src/protocols/address.ts:42-44 | coding the decoded form gives back every label |
| `Labels.LabelForIsExact` | src/protocols/address.ts:36-39 | labelFor is defined exactly on such names whose form is a DNS label not starting `xn--` |
| `Labels.NamesWithALabelAre` | src/protocols/address.ts:29-44 | which names those are, said of the name alone: its length with hyphens counted twice, its characters and ends, its dots, and no `xn-` at the start |
| `Labels.NamesNeverShareALabel` | src/protocols/address.ts:29-39 | two names never share a label |
| `Labels.LabelsAreOfTheirNames` | src/protocols/address.ts:36-44 | every DNS label but a punycode one is the label of the name it decodes to |
| `Protocols.DescribeProtocol` | src/protocols/protocol.ts:75-97 | accepts exactly the descriptors that meet every rule, and returns them unchanged |
| `Protocols.RepeatsApart` | src/protocols/protocol.ts:60-65 | a namespace is declared twice iff a scheme or a domain is listed twice |
| `Urls.ParseHref` | src/protocols/address.ts:148-184 | a URL printed from canonical parts parses into them, a port being at most 65535, without leading zeros, and not the scheme's own |
| `Urls.PortGoesByItsNumber` | src/protocols/address.ts:161-174 | a port goes by its number, leading zeros or not: the scheme's own is no port, and any other the shortest digits of it |
| `Urls.ResolveDotsIsPlain` | src/protocols/address.ts:148-158 | resolving dot segments leaves none and changes no path without one |
| `Urls.DotsResolve` | src/protocols/address.ts:148-158 | `.` adds nothing and `..` takes away the segment before it or nothing, wherever they stand, and at the end leave an empty one |
| `Addresses.ProtocolAddresses.constructor` | src/protocols/address.ts:57-66 | collects the declared schemes and domains, which the descriptor checks leave sound |
| `Addresses.ProtocolAddresses.LearnSchemes` | src/protocols/address.ts:73-75 | replaces the lookup |
| `Addresses.ProtocolAddresses.ServedHostsAreRouted` | src/protocols/address.ts:100-127 | every host with a served name or an endpoint routes to the verifier, and no host has both |
| `Addresses.ProtocolAddresses.NamesHaveOneHost` | src/protocols/address.ts:106-118 | no two hosts serve one name of one namespace |
| `Addresses.ProtocolAddresses.RoutedHostsAre` | src/protocols/address.ts:100-104 | a host is routed iff it has two labels or more, none empty, the last a top-level domain or the shared suffix |
| `Addresses.ProtocolAddresses.ServedNamesAre` | src/protocols/address.ts:106-118 | a host serves the name of its label under its scheme, or is itself the name below a top-level domain, and no other |
| `Addresses.ProtocolAddresses.EndpointHostIs` | src/protocols/address.ts:120-124 | a scheme's endpoint is the scheme and the shared suffix |
| `Addresses.AddressIsItsParts` | src/protocols/address.ts:27 | a text is an address iff it is `scheme://name` and what follows: a scheme of letters and digits, a name without `/`, `?`, `#`, no white space |
| `Addresses.ProtocolAddresses.ServedUrlIs` | src/protocols/address.ts:147-159 | an address is served at the name's own host below a top-level domain, else at the scheme's endpoint with the name first in the path, dots resolved |
| `Addresses.ProtocolAddresses.DisplayUrlIs` | src/protocols/address.ts:160-184 | a URL is shown by the name of its host, or the name in an endpoint's path, with path, query and fragment, or as it is; never with credentials |
| `Addresses.ProtocolAddresses.OriginServesItsName` | src/protocols/address.ts:126-129 | an origin's host gives back its scheme and name, and the origin is shown as `scheme://name` |
| `Addresses.ProtocolAddresses.ServedNamesHaveOrigins` | src/protocols/address.ts:107-130 | every name a scheme's host serves has that host for its origin, but where it reads as punycode; then it has none |
| `Addresses.ProtocolAddresses.NameOriginIsShown` | src/protocols/address.ts:82-93 | a top-level-domain name is shown under the scheme learned for it where a protocol serves that, and else as its plain origin |
| `Addresses.ProtocolAddresses.AddressComesBackIffPlain` | src/protocols/address.ts:147-184 | an address outside the top-level domains, served and shown, comes back iff it is plain: lower-case scheme, a path, no dot segment, no bare `?` or `#` |
| `Addresses.ProtocolAddresses.DisplayTwiceIsOnce` | src/protocols/address.ts:160-184 | showing a URL twice is showing it once iff no endpoint name in it reads as credentials before a host and port |
| `Addresses.ProtocolAddresses.UserIsLost` | src/protocols/address.ts:160-184 | where one does, the name is shown with its user first and without it the second time, however many slashes the URL has and whatever port it spells out for its own |
| `Addresses.ProtocolAddresses.IpfsUserIsLost` | src/protocols/address.ts:160-184 | as `https://ipfs.orivon/user@host/` is, and with no slashes or with `:0443` |
| `PickedPaths.Segment` | src/shim-electron/picked-paths.ts:38-42 | any file name becomes one path segment, and a name that is one already stays |
| `PickedPaths.SegmentIsName` | src/shim-electron/picked-paths.ts:38-42 | keeping every character but slashes, backslashes and controls |
| `PickedPaths.NormalizeAbsolute` | src/shim-electron/picked-paths.ts:61-69 | the push-and-pop loop computes the normal form |
| `PickedPaths.NormalIsNormal` | src/shim-electron/picked-paths.ts:61-69 | which is its own normal form and has no empty, `.` or `..` segment |
| `PickedPaths.DotsResolve` | src/shim-electron/picked-paths.ts:61-69 | `..` takes away the segment before it, or nothing at the root, and `.` and an empty part add nothing, wherever they stand |
| `PickedPaths.ResolutionIs` | src/shim-electron/picked-paths.ts:71-84 | the root lists, an id below it is a pick or stale, and everything else is not of the picks |
| `PickedPaths.ResolutionFollowsNormalForm` | src/shim-electron/picked-paths.ts:71-84 | resolution depends on the normal form alone |
| `PickedPaths.RelativeStaysBelow` | src/shim-electron/picked-paths.ts:71-84 | what follows a pick is segments only, so it stays below the pick |
| `PickedPaths.PicksAreReachedByIdOnly` | src/shim-electron/picked-paths.ts:71-84 | a path reaches only a pick whose id it spells out |
| `PickedPaths.DotsCanReachANamedPick` | src/shim-electron/picked-paths.ts:71-74 | but through a `..` it can reach one that is not the pick it set out from |
| `PickedPaths.TableIsWhatIsLive` | src/shim-electron/picked-paths.ts:44-52 | after any registrations and closes an id is in the table iff its last registration has not closed |
| `PickedPaths.LivePicksResolve` | src/shim-electron/picked-paths.ts:75-84 | and a path names a pick iff the id in its normal form is live |
| `PickedPaths.Picks.constructor` | src/shim-electron/picked-paths.ts:29 | the table starts empty |
| `PickedPaths.Picks.RegisterPickedFile` | src/shim-electron/picked-paths.ts:54-58 | the path of a new file names that file, whatever it is called |
| `PickedPaths.Picks.RegisterPickedDirectory` | src/shim-electron/picked-paths.ts:60-63 | the path of a new folder names that folder |
| `PickedPaths.Picks.Forget` | src/shim-electron/picked-paths.ts:48 | a closed handle drops its own entry and no later one under its id |
| `PickedPaths.Picks.ResolvePickedPath` | src/shim-electron/picked-paths.ts:75-84 | matching the normal form as text answers what its segments name |
| `RoutePace.ScaleFollowsTheSlowest` | src/protocols/route-pace.ts:104-110 | the scale exceeds a bound in its range iff some first byte kept was that slow |
| `RoutePace.FloorIsRoundTrips` | src/protocols/route-pace.ts:104-105 | the floor is 1, or the round trip in half seconds |
| `RoutePace.WaitIsNearest` | src/protocols/route-pace.ts:116-118 | a wait is the whole number nearest to the direct wait times the scale |
| `RoutePace.WaitsStayUnderTheCeiling` | src/protocols/route-pace.ts:71-73 | no evidence makes a wait or first wait exceed the ceiling, or a wait fall below a direct one |
| `RoutePace.TheCeilingIsReached` | src/protocols/route-pace.ts:71-73 | and one slow first byte reaches it |
| `RoutePace.OnlyOneIsLongest` | src/protocols/route-pace.ts:99-102 | the longest recent run of the history is unique |
| `RoutePace.RouteMeter.constructor` | src/protocols/route-pace.ts:85 | a meter starts cold with no evidence |
| `RoutePace.RouteMeter.ObserveFirstByte` | src/protocols/route-pace.ts:92-97 | the newest evidence is added and the rest trimmed to the longest recent run |
| `RoutePace.RouteMeter.Forget` | src/protocols/route-pace.ts:99-102 | the two trims leave the longest run of the whole history within 32 entries and ten minutes, while the clock never goes back |
| `RoutePace.RouteMeter.Scale` | src/protocols/route-pace.ts:104-110 | stays within the floor and three times it, and is the floor once no evidence is recent |
| `RoutePace.RouteMeter.Wait` | src/protocols/route-pace.ts:116-118 | never exceeds the ceiling |
| `RoutePace.RouteMeter.FirstWait` | src/protocols/route-pace.ts:120-122 | nor does a first wait |
| `RoutePace.RouteMeter.TransferMs` | src/protocols/route-pace.ts:128-130 | is a stall and four times the whole seconds the size needs at the declared rate |
| `NameUpdates.NameUpdates.ComparedToPin` | src/loader/name-update.ts:95-125 | answers what reading afresh gives; from a kept offer it does iff the pin's own files are not what is there now; routes only the bundle of the root it was given; and is the step the runs below are made of |
| `NameUpdates.NameUpdates.Check` | src/loader/name-update.ts:85-93 | looks the name up unless answered within the interval, remembers only answered lookups, and routes only from the root led to in that call |
| `NameUpdates.NameUpdates.Apply` | src/loader/name-update.ts:127-134 | decides exactly when the name still leads to the root offered and the bundle is fetched, and says so when it moved |
| `NameUpdates.KeptOfferIsFresh` | src/loader/name-update.ts:103-104 | a kept offer with the pointers looked at now equals a fresh one on that condition |
| `NameUpdates.AnswersMean` | src/loader/name-update.ts:95-125 | what each answer means: a decision only on the pinned files under a new root, an offer of whatever differs, and which from and to |
| `NameUpdates.FailuresAreRefused` | src/loader/name-update.ts:105-112 | a failed read is a refusal and keeps nothing |
| `NameUpdates.OffersStayFresh` | src/loader/name-update.ts:75-78 | however comparisons interleave, whichever pins they are of and whichever reads fail: an answer from the cache is what reading afresh gives iff the pin's own files are not what is there now, so always where pins of one address have the same files; any other answer is that or a refusal for a failed read |
| `NameUpdates.OfferNeedsNoRead` | src/loader/name-update.ts:75-78 | once an offer was made, while the name and the pinned address stay, every answer is at once what reading afresh offers |
| `NameUpdates.PinsWithoutAddressLookAlike` | src/loader/name-update.ts:103-104 | two comparisons, of pins without a content address: the second is answered with the first one's offer, where reading afresh decides |
| `PowerSaveBlocker.NextKeepsValid` | src/shim-electron/power-save-blocker.ts:23-86 | every turn keeps: no live lock but the one held, none held while one is asked for, none kept for nobody |
| `PowerSaveBlocker.LocksDoNotLeak` | src/shim-electron/power-save-blocker.ts:23-86 | so in every interleaving at most one lock is live, and none with nothing started |
| `PowerSaveBlocker.LocksAreHeldWhileWanted` | src/shim-electron/power-save-blocker.ts:44-55 | in every run, read off its events: a lock is live and held iff it was granted with something started, and neither taken back since nor ended by a stop that left nothing started |
| `PowerSaveBlocker.IdsAreNeverReused` | src/shim-electron/power-save-blocker.ts:67-76 | no id is given out twice |
| `PowerSaveBlocker.LocksAreAskedForWhenWanted` | src/shim-electron/power-save-blocker.ts:30-64 | a lock is asked for exactly at a start or visibility change that leaves something started on a visible page with none held or pending |
| `PowerSaveBlocker.LostLocksWait` | src/shim-electron/power-save-blocker.ts:44-64 | over any run after a refusal or a lock taken back, the app goes without one iff no start or visibility change wants one meanwhile |
| `PowerSaveBlocker.Blocker.constructor` | src/shim-electron/power-save-blocker.ts:23-27 | nothing started, held or asked for |
| `PowerSaveBlocker.Blocker.Start` | src/shim-electron/power-save-blocker.ts:67-76 | makes that turn and gives out the id, or refuses an unknown type |
| `PowerSaveBlocker.Blocker.Stop` | src/shim-electron/power-save-blocker.ts:77-81 | makes that turn; the result says whether the id was started |
| `PowerSaveBlocker.Blocker.VisibilityChange` | src/shim-electron/power-save-blocker.ts:64 | likewise |
| `PowerSaveBlocker.Blocker.RequestGranted` | src/shim-electron/power-save-blocker.ts:44-51 | a lock granted with nothing started is given straight back |
| `PowerSaveBlocker.Blocker.RequestRefused` | src/shim-electron/power-save-blocker.ts:52-55 | likewise |
| `PowerSaveBlocker.Blocker.LockTakenBack` | src/shim-electron/power-save-blocker.ts:51 | only the held lock is let go of |
| `ChildHost.NextKeepsValid` | src/preload/expose-child-host-connect.ts:101-157 | every turn keeps the cached attempt, the waiting starts and the children in step |
| `ChildHost.OneHandshakeAtATime` | src/preload/expose-child-host-connect.ts:104-124 | a handshake is sent iff nothing is cached, and starts made meanwhile share it |
| `ChildHost.StartDoes` | src/preload/expose-child-host-connect.ts:130-144 | a start over a connected port gets its child at once and the host is told; else it waits, for the handshake under way or its own |
| `ChildHost.AnswerDoes` | src/preload/expose-child-host-connect.ts:77-128 | an awaited answer with a port gives every waiting start its child, in order, each announced; one without fails them; one not awaited is dropped |
| `ChildHost.TimeoutDoes` | src/preload/expose-child-host-connect.ts:79-84 | a timeout fails them all |
| `ChildHost.HostClosedDoes` | src/preload/expose-child-host-connect.ts:112 | a port that closes is forgotten where cached, and nothing else changes |
| `ChildHost.ChildTurnsDo` | src/preload/expose-child-host-connect.ts:138-154 | a message or kill to a child that is there is posted to it |
| `ChildHost.ChildrenStayUntilEnded` | src/preload/expose-child-host-connect.ts:138-154 | a child stays exactly until it ends or is killed |
| `ChildHost.EveryStartIsAnsweredOnce` | src/preload/expose-child-host-connect.ts:130-144 | no start hangs once no handshake is awaited, and its answer never changes |
| `ChildHost.OnlyTheCachedAttemptIsForgotten` | src/preload/expose-child-host-connect.ts:108-120 | a close or failure forgets that attempt alone, and once forgotten the next start asks afresh |
| `ChildHost.ChildIdsAreUnique` | src/preload/expose-child-host-connect.ts:126-133 | no two starts get one child |
| `ChildHost.EndedChildrenStayEnded` | src/preload/expose-child-host-connect.ts:145-156 | a message or kill for an ended child does nothing, and it stays ended |
| `ChildHost.HostIsToldInOrder` | src/preload/expose-child-host-connect.ts:130-154 | children are announced to the host once each in the order of their ids, and one told to terminate is told no more |
| `ChildHost.LateAnswersServeTheNextAttempt` | src/preload/expose-child-host-connect.ts:77-93 | an answer that outlives its own handshake is taken by the next |
| `ChildHost.ChildrenBridge.constructor` | src/preload/expose-child-host-connect.ts:101-128 | no connection, no child |
| `ChildHost.ChildrenBridge.StartOne` | src/preload/expose-child-host-connect.ts:130-144 | makes that turn, with a child at once iff connected |
| `ChildHost.ChildrenBridge.AnswerArrived` | src/preload/expose-child-host-connect.ts:85-90 | answers every start that shared the handshake, in order |
| `ChildHost.ChildrenBridge.HandshakeTimedOut` | src/preload/expose-child-host-connect.ts:79-84 | fails them all |
| `ChildHost.ChildrenBridge.HostWentAway` | src/preload/expose-child-host-connect.ts:112 | forgets the attempt if it is still cached |
| `ChildHost.ChildrenBridge.ChildEnded` | src/preload/expose-child-host-connect.ts:138 | the child is no longer addressed |
| `ChildHost.ChildrenBridge.SendTo` | src/preload/expose-child-host-connect.ts:145-147 | posts only to a child that is there |
| `ChildHost.ChildrenBridge.KillChild` | src/preload/expose-child-host-connect.ts:148-154 | terminates only a child that is there |

## Left out

- Bech32.Bech32Encode: words are natural numbers, so refusing a fraction or a negative number is not represented; a prefix is a string of Unicode scalar values, so lone surrogates in it are not.
- LoginChoices.ChooseUsername: what the page says of a box is given as booleans, so splitting the autocomplete attribute into tokens is not modelled; `choosePassword`, `isSignUp` and `fillScope` are single expressions and left out.
- BrokerModel.Broker.ForgetOrigin: one step, although the calls it makes yield in between; what other calls do meanwhile is covered by the theorems about runs, whose steps are those smaller calls. The acknowledged-rollback and declined-capability records are not kept, only their deletions' order.
- BrokerModel.Broker.RegisterApp: one step, as hydrating from a pinned manifest is, although both yield between revoking one superseded grant and the next; until each is revoked its handles stand under a grant the ledger no longer holds.
- BrokerModel.Broker.OpenPicked: files opened from within a picked folder, and closing what a failed pick of several files had opened, are not modelled.
- HandleTable.AcquireKeepsOk: the in-flight slots and the refusal while a session is being torn down are not modelled; dropping a session is one step. Ids are numbers that grow where the original draws unique random ones, and clearing a fresh grant's tombstone is omitted because a fresh id has none.
- Queries about sockets, usage and version floors, and the broker's file, network and identity capabilities.
- ByteWindow: the ends of streams, errors and stopping; the chunk in flight when a pump stops. WriteWindow: half-close, abort, the silence timeout and failures of the socket itself.
- DatagramWindow: the outbound direction.
- Nip01.ComputeEventId: numbers of 1e21 and above, which JavaScript prints with an exponent, and arrays given a `toJSON` of their own; the digest is any function.
- Urls.Parse: `file:` URLs, percent-encoding, punycode, backslashes, IPv6 and numeric IPv4 hosts, and the white space a URL parser drops; addresses with such characters are outside the model, and so is what a special scheme's host may not hold beyond what no host may.
- Addresses: the loading screens, and what a top-level-domain address is shown as beyond the scheme learned for it.
- Protocols.DescribeProtocol: the loading-screen wording and `defineProtocol`'s check of its resolvers.
- PickedPaths.Segment: file names are strings of Unicode scalar values.
- RoutePace: rounding of floating-point numbers; waits, times and rates are non-negative reals.
- NameUpdates.NameUpdates.Check: one step; two checks of one origin meet in the cache of offers, where `OffersStayFresh` covers any order of finished reads, and in the time of the last check. The stored check record and the clearing of staged files are not kept. What a root holds is fixed, and the decision on a bundle is an uninterpreted function.
- PowerSaveBlocker: the browser taking a lock back before its own grant has been handled.
- ChildHost: the page-caller check around the bridge, and the messages' contents.
