/**
 An installed app reached at a name: whether the name has moved from what the pin holds, and the update that is offered
 when it has. What the network answers is a parameter of each call; what a root holds never changes.
 */
module NameUpdates {
  import opened Results

  type Origin = string
  type Cid = string
  type Hash = string
  type Manifest = string
  type Context = nat
  type Url = string

  const NAME_CHECK_INTERVAL_MS := 30_000

  /** What a name leads to now, and whether every pointer on the way was verified. */
  datatype Content = Content(cid: Cid, pointersVerified: bool)

  datatype NameAnswer = Leads(content: Content) | LeadsElsewhere | Unanswered(reason: string)

  /** The leaf is the hash of the manifest's bytes. */
  datatype ManifestRead = App(manifest: Manifest, leaf: Hash) | Website

  datatype Bundle = Bundle(origin: Origin, manifest: Manifest, root: Hash)

  datatype Pin = Pin(cid: Option<Cid>, manifestLeaf: Option<Hash>, bundleHash: Hash)

  datatype Offer = Offer(origin: Origin, fromCid: Cid, toCid: Cid, manifest: Manifest, pointersVerified: bool)

  datatype Reason = NameFailed(reason: string) | Unread | NoManifest | NotFetched | NotIpfs | MovedAgain

  datatype LoadResult =
    | UpToDate(atPinnedContent: bool)
    | Rejected(reason: Reason)
    | UpdateAvailable(offer: Offer)
    | Decided(decision: nat)

  /** What each root holds, as a read that succeeds gives it, and the decision on a bundle in hand, made elsewhere. */
  datatype World = World(
    manifestAt: (Origin, Cid) -> ManifestRead,
    bundleAt: (Url, Cid) -> Option<Bundle>,
    decide: (Bundle, Content, Context) -> nat)

  function FromCid(pin: Pin): Cid {
    if pin.cid.Some? then pin.cid.value else ""
  }

  /** The bundle that is routed to the decision without a question: the same manifest, and the same files under the new root. */
  predicate SameManifest(world: World, origin: Origin, pin: Pin, cid: Cid) {
    world.manifestAt(origin, cid).App? && pin.manifestLeaf == Some(world.manifestAt(origin, cid).leaf)
  }

  function OfferOf(world: World, origin: Origin, pin: Pin, content: Content): Offer
    requires world.manifestAt(origin, content.cid).App?
  {
    Offer(origin, FromCid(pin), content.cid, world.manifestAt(origin, content.cid).manifest, content.pointersVerified)
  }

  /** What a name's content means for the pin, from reads alone. */
  function Fresh(world: World, url: Url, origin: Origin, pin: Pin, content: Content, context: Context): LoadResult {
    if pin.cid == Some(content.cid) then UpToDate(true)
    else if world.manifestAt(origin, content.cid).Website? then Rejected(NoManifest)
    else if !SameManifest(world, origin, pin, content.cid) then UpdateAvailable(OfferOf(world, origin, pin, content))
    else
      match world.bundleAt(url, content.cid)
      case None => Rejected(NotFetched)
      case Some(bundle) =>
        if bundle.root == pin.bundleHash then Decided(world.decide(bundle, content, context))
        else UpdateAvailable(OfferOf(world, origin, pin, content))
  }

  /**
   What each answer means. Nothing new is at the pinned address itself. A decision is taken without a question only on the pinned
   files under a new root: the manifest has the pinned leaf, and the bundle the pinned root. An offer is made of an app that differs
   in one or the other, and names what it leads from and to.
   */
  lemma AnswersMean(world: World, url: Url, origin: Origin, pin: Pin, content: Content, context: Context)
    ensures var r, read, fetched := Fresh(world, url, origin, pin, content, context), world.manifestAt(origin, content.cid), world.bundleAt(url, content.cid);
      var moved := pin.cid != Some(content.cid);
      var alike := read.App? && pin.manifestLeaf == Some(read.leaf);
      && (r == UpToDate(true) <==> !moved) && (r.UpToDate? ==> r.atPinnedContent)
      && (r.Decided? <==> moved && alike && fetched.Some? && fetched.value.root == pin.bundleHash)
      && (r.Decided? ==> r.decision == world.decide(fetched.value, content, context))
      && (r.UpdateAvailable? <==> moved && read.App? && (pin.manifestLeaf != Some(read.leaf) || (fetched.Some? && fetched.value.root != pin.bundleHash)))
      && (r.UpdateAvailable? ==>
            && r.offer.origin == origin && r.offer.toCid == content.cid && r.offer.manifest == read.manifest && r.offer.pointersVerified == content.pointersVerified
            && (if pin.cid.Some? then r.offer.fromCid == pin.cid.value else r.offer.fromCid == ""))
      && (r == Rejected(NoManifest) <==> moved && read.Website?)
      && (r == Rejected(NotFetched) <==> moved && alike && fetched.None?)
      && (r.Rejected? ==> r.reason in {NoManifest, NotFetched})
  {
  }

  /** What stops a check from ending in an offer: the pin's own manifest, republished with the pin's own files, or unfetched. */
  predicate Republished(world: World, url: Url, origin: Origin, pin: Pin, cid: Cid) {
    SameManifest(world, origin, pin, cid)
    && (world.bundleAt(url, cid).None? || world.bundleAt(url, cid).value.root == pin.bundleHash)
  }

  /** A kept offer is what reading its root gives, for the pin and URL it was made for. */
  ghost predicate OfferOk(world: World, origin: Origin, offer: Offer, pin: Pin, url: Url) {
    && offer.fromCid == FromCid(pin) && world.manifestAt(origin, offer.toCid).App?
    && offer == OfferOf(world, origin, pin, Content(offer.toCid, offer.pointersVerified))
    && !Republished(world, url, origin, pin, offer.toCid)
  }

  lemma FreshOffersUnlessRepublished(world: World, url: Url, origin: Origin, pin: Pin, content: Content, context: Context)
    requires pin.cid != Some(content.cid) && world.manifestAt(origin, content.cid).App?
    ensures !Republished(world, url, origin, pin, content.cid)
       <==> Fresh(world, url, origin, pin, content, context) == UpdateAvailable(OfferOf(world, origin, pin, content))
  {
  }

  /** A kept offer, with the pointers looked at now, is what reading afresh offers unless the pin's files are what is there. */
  lemma KeptOfferIsFresh(world: World, url: Url, origin: Origin, pin: Pin, content: Content, context: Context, offer: Offer, made: Pin, madeUrl: Url)
    requires OfferOk(world, origin, offer, made, madeUrl) && offer.fromCid == FromCid(pin) && offer.toCid == content.cid
    requires pin.cid != Some(content.cid)
    ensures Fresh(world, url, origin, pin, content, context) == UpdateAvailable(offer.(pointersVerified := content.pointersVerified))
       <==> !Republished(world, url, origin, pin, content.cid)
    ensures url == madeUrl && made.manifestLeaf == pin.manifestLeaf && made.bundleHash == pin.bundleHash ==> !Republished(world, url, origin, pin, content.cid)
  {
    FreshOffersUnlessRepublished(world, url, origin, pin, content, context);
  }

  // ---------------------------------------------------------------- runs of comparisons

  /** One comparison of a name's content with a pin, and whether its reads fail. */
  datatype Ask = Ask(url: Url, origin: Origin, pin: Pin, content: Content, context: Context, readFails: bool, fetchFails: bool)

  predicate KeptFor(offers: map<Origin, Offer>, ask: Ask) {
    ask.origin in offers && offers[ask.origin].fromCid == FromCid(ask.pin) && offers[ask.origin].toCid == ask.content.cid
  }

  function Afresh(world: World, ask: Ask): LoadResult {
    Fresh(world, ask.url, ask.origin, ask.pin, ask.content, ask.context)
  }

  /** What is answered at once, the kept offer coming before any read. */
  function KeptAnswer(offers: map<Origin, Offer>, ask: Ask): Option<LoadResult> {
    if ask.pin.cid == Some(ask.content.cid) then Some(UpToDate(true))
    else if KeptFor(offers, ask) then Some(UpdateAvailable(offers[ask.origin].(pointersVerified := ask.content.pointersVerified)))
    else None
  }

  /** What is answered when the reads are done. */
  function ReadAnswer(world: World, ask: Ask): LoadResult {
    if ask.readFails then Rejected(Unread)
    else if ask.fetchFails && SameManifest(world, ask.origin, ask.pin, ask.content.cid) then Rejected(NotFetched)
    else Afresh(world, ask)
  }

  function Answer(world: World, offers: map<Origin, Offer>, ask: Ask): LoadResult {
    if KeptAnswer(offers, ask).Some? then KeptAnswer(offers, ask).value else ReadAnswer(world, ask)
  }

  function OffersAfterRead(world: World, offers: map<Origin, Offer>, ask: Ask): map<Origin, Offer> {
    var answer := ReadAnswer(world, ask);
    if answer.UpdateAvailable? then offers[ask.origin := answer.offer] else offers
  }

  function OffersAfter(world: World, offers: map<Origin, Offer>, ask: Ask): map<Origin, Offer> {
    if KeptAnswer(offers, ask).Some? then offers else OffersAfterRead(world, offers, ask)
  }

  /** A read that fails is a refusal, and keeps no offer; an offer already kept stays as it was made. */
  lemma FailuresAreRefused(world: World, offers: map<Origin, Offer>, ask: Ask)
    ensures ask.pin.cid != Some(ask.content.cid) && !KeptFor(offers, ask) && ask.readFails ==> Answer(world, offers, ask) == Rejected(Unread)
    ensures ask.pin.cid != Some(ask.content.cid) && !KeptFor(offers, ask) && !ask.readFails && ask.fetchFails ==>
              Answer(world, offers, ask) == (if SameManifest(world, ask.origin, ask.pin, ask.content.cid) then Rejected(NotFetched) else Afresh(world, ask))
    ensures ask.pin.cid == Some(ask.content.cid) || KeptFor(offers, ask) || Answer(world, offers, ask).Rejected? ==> OffersAfter(world, offers, ask) == offers
  {
  }

  /** The offers kept once the reads of these comparisons are done, in this order: comparisons that interleave meet only here. */
  function OffersAfterReads(world: World, done: seq<Ask>): map<Origin, Offer> {
    if done == [] then map[] else OffersAfterRead(world, OffersAfterReads(world, done[..|done| - 1]), done[|done| - 1])
  }

  /** A kept offer is what the read of some comparison of that origin came to. */
  ghost predicate CameFrom(world: World, done: seq<Ask>, origin: Origin, offer: Offer) {
    exists i :: 0 <= i < |done| && done[i].origin == origin && ReadAnswer(world, done[i]) == UpdateAvailable(offer)
  }

  lemma {:induction false} KeptOffersCameFrom(world: World, done: seq<Ask>, origin: Origin)
    ensures var offers := OffersAfterReads(world, done); origin in offers ==> CameFrom(world, done, origin, offers[origin])
  {
    hide ReadAnswer;
    if done != [] {
      var front, last := done[..|done| - 1], done[|done| - 1];
      KeptOffersCameFrom(world, front, origin);
      var offers := OffersAfterReads(world, front);
      if origin in offers {
        var i :| 0 <= i < |front| && front[i].origin == origin && ReadAnswer(world, front[i]) == UpdateAvailable(offers[origin]);
        assert done[i] == front[i];
      }
    }
  }

  /**
   The origin's pins may change, but those of one content address, asked about at one root, are of the same files and URL; only
   then does what the cache goes by tell them apart.
   */
  ghost predicate Agrees(done: seq<Ask>, ask: Ask) {
    forall i :: 0 <= i < |done| && done[i].origin == ask.origin && FromCid(done[i].pin) == FromCid(ask.pin) && done[i].content.cid == ask.content.cid ==>
      done[i].pin.manifestLeaf == ask.pin.manifestLeaf && done[i].pin.bundleHash == ask.pin.bundleHash && done[i].url == ask.url
  }

  /** What was read for one comparison, under another's pin and context: the same offer, unless the pin's own files are there. */
  lemma OfferCarriesOver(world: World, read: Ask, ask: Ask)
    requires ReadAnswer(world, read).UpdateAvailable? && ask.pin.cid != Some(ask.content.cid)
    requires read.origin == ask.origin && FromCid(read.pin) == FromCid(ask.pin) && read.content.cid == ask.content.cid
    ensures Afresh(world, ask) == UpdateAvailable(ReadAnswer(world, read).offer.(pointersVerified := ask.content.pointersVerified))
       <==> !Republished(world, ask.url, ask.origin, ask.pin, ask.content.cid)
    ensures read.pin.manifestLeaf == ask.pin.manifestLeaf && read.pin.bundleHash == ask.pin.bundleHash && read.url == ask.url
            ==> !Republished(world, ask.url, ask.origin, ask.pin, ask.content.cid)
  {
  }

  /**
   However comparisons interleave, whichever pins they are of and whichever of their reads fail: an answer from the cache is what
   reading afresh gives exactly unless the pin's own files are what is there now, which they never are where pins agree. Any
   other answer is what reading afresh gives, or a refusal because a read failed.
   */
  lemma OffersStayFresh(world: World, done: seq<Ask>, ask: Ask)
    ensures var offers := OffersAfterReads(world, done);
      var answer, cached := Answer(world, offers, ask), ask.pin.cid != Some(ask.content.cid) && KeptFor(offers, ask);
      && (cached ==> (answer == Afresh(world, ask) <==> !Republished(world, ask.url, ask.origin, ask.pin, ask.content.cid)))
      && (cached && Agrees(done, ask) ==> answer == Afresh(world, ask))
      && (!cached ==> answer == Afresh(world, ask) || (answer.Rejected? && (ask.readFails || ask.fetchFails)))
  {
    var offers := OffersAfterReads(world, done);
    if ask.pin.cid != Some(ask.content.cid) && KeptFor(offers, ask) {
      KeptOffersCameFrom(world, done, ask.origin);
      var i :| 0 <= i < |done| && done[i].origin == ask.origin && ReadAnswer(world, done[i]) == UpdateAvailable(offers[ask.origin]);
      OfferSaysWhere(world, done[i]);
      OfferCarriesOver(world, done[i], ask);
    }
  }

  lemma OfferSaysWhere(world: World, ask: Ask)
    requires ReadAnswer(world, ask).UpdateAvailable?
    ensures ReadAnswer(world, ask).offer.fromCid == FromCid(ask.pin) && ReadAnswer(world, ask).offer.toCid == ask.content.cid
  {
  }

  /** The name stays where it was when an offer was made for it, and the origin at the content it had. */
  ghost predicate StaysAt(done: seq<Ask>, ask: Ask) {
    forall i :: 0 <= i < |done| && done[i].origin == ask.origin ==> FromCid(done[i].pin) == FromCid(ask.pin) && done[i].content.cid == ask.content.cid
  }

  lemma {:induction false} OfferIsKept(world: World, before: seq<Ask>, first: Ask, later: seq<Ask>)
    requires ReadAnswer(world, first).UpdateAvailable? && StaysAt(later, first)
    ensures KeptFor(OffersAfterReads(world, before + [first] + later), first)
  {
    var all := before + [first] + later;
    if later == [] {
      assert all[..|all| - 1] == before && all[|all| - 1] == first;
    } else {
      var front, last := later[..|later| - 1], later[|later| - 1];
      assert all[..|all| - 1] == before + [first] + front && all[|all| - 1] == last;
      assert StaysAt(front, first) by {
        assert forall i :: 0 <= i < |front| ==> front[i] == later[i];
      }
      OfferIsKept(world, before, first, front);
    }
  }

  /** Once an offer was made, every later answer is at once what reading afresh offers, with no read that could fail. */
  lemma OfferNeedsNoRead(world: World, before: seq<Ask>, first: Ask, later: seq<Ask>, ask: Ask)
    requires ReadAnswer(world, first).UpdateAvailable? && StaysAt(later + [ask], first)
    requires ask.origin == first.origin && ask.pin.cid != Some(ask.content.cid) && Agrees(before + [first] + later, ask)
    ensures KeptAnswer(OffersAfterReads(world, before + [first] + later), ask) == Some(Afresh(world, ask)) && Afresh(world, ask).UpdateAvailable?
  {
    var all := before + [first] + later;
    assert (later + [ask])[|later|] == ask;
    assert StaysAt(later, first) by {
      assert forall i :: 0 <= i < |later| ==> (later + [ask])[i] == later[i];
    }
    OfferIsKept(world, before, first, later);
    OffersStayFresh(world, all, ask);
  }

  /** A bundle handed to the decision, and what the name had led to in the call that did it. */
  datatype Routed = Routed(url: Url, bundle: Bundle, content: Content)

  class NameUpdates {
    const world: World
    var checkedAt: map<Origin, int>
    var offers: map<Origin, Offer>
    ghost var routed: seq<Routed>
    /** The pin each kept offer was made for, and the URL. */
    ghost var madeFor: map<Origin, (Pin, Url)>

    /** Every kept offer is what reading its root gives, for the pin it was made for. */
    ghost predicate Valid()
      reads this
    {
      && offers.Keys == madeFor.Keys
      && forall origin :: origin in offers ==> OfferOk(world, origin, offers[origin], madeFor[origin].0, madeFor[origin].1)
    }

    /** Everything ever routed is what its own root holds, the root being the one its call was led to. */
    ghost predicate RoutedFromTheName()
      reads this
    {
      forall i :: 0 <= i < |routed| ==> world.bundleAt(routed[i].url, routed[i].content.cid) == Some(routed[i].bundle)
    }

    constructor (world: World)
      ensures Valid() && RoutedFromTheName() && this.world == world && offers == map[] && checkedAt == map[] && routed == []
    {
      this.world := world;
      checkedAt, offers, routed, madeFor := map[], map[], [], map[];
    }

    predicate CheckedRecently(origin: Origin, now: int)
      reads this
    {
      origin in checkedAt && 0 <= now - checkedAt[origin] < NAME_CHECK_INTERVAL_MS
    }

    predicate Keeps(origin: Origin, pin: Pin, content: Content)
      reads this
    {
      origin in offers && offers[origin].fromCid == FromCid(pin) && offers[origin].toCid == content.cid
    }

    /** Whether the offer kept for an origin was made for a pin of the same files as `pin`, at the same URL. */
    ghost predicate KeptForSameFiles(origin: Origin, pin: Pin, url: Url)
      reads this
    {
      origin in madeFor && madeFor[origin].1 == url
      && madeFor[origin].0.manifestLeaf == pin.manifestLeaf && madeFor[origin].0.bundleHash == pin.bundleHash
    }

    /**
     What a name's content means for the pin, answered from a kept offer where there is one. With reads that succeed and
     no kept offer that is what reading afresh gives; from a kept offer it is so exactly unless the pin's own files are what is there now.
     */
    method ComparedToPin(url: Url, origin: Origin, pin: Pin, content: Content, context: Context, readFails: bool, fetchFails: bool) returns (r: LoadResult)
      requires Valid() && RoutedFromTheName()
      modifies this`offers, this`routed, this`madeFor
      ensures Valid() && RoutedFromTheName()
      ensures pin.cid != Some(content.cid) && old(Keeps(origin, pin, content)) ==>
                (r == Fresh(world, url, origin, pin, content, context) <==> !Republished(world, url, origin, pin, content.cid))
      ensures pin.cid != Some(content.cid) && old(Keeps(origin, pin, content)) && old(KeptForSameFiles(origin, pin, url)) ==>
                r == Fresh(world, url, origin, pin, content, context)
      ensures pin.cid == Some(content.cid) || (!old(Keeps(origin, pin, content)) && !readFails && !fetchFails) ==>
                r == Fresh(world, url, origin, pin, content, context)
      ensures !old(Keeps(origin, pin, content)) ==> r == Fresh(world, url, origin, pin, content, context) || r.Rejected?
      ensures routed == old(routed)
              || (r.Decided? && exists bundle ::
                    routed == old(routed) + [Routed(url, bundle, content)] && world.bundleAt(url, content.cid) == Some(bundle)
                    && r.decision == world.decide(bundle, content, context))
      ensures var ask := Ask(url, origin, pin, content, context, readFails, fetchFails);
        r == Answer(world, old(offers), ask) && offers == OffersAfter(world, old(offers), ask)
    {
      if pin.cid == Some(content.cid) {
        return UpToDate(true);
      }
      if Keeps(origin, pin, content) {
        hide Fresh, Republished, OfferOk;
        KeptOfferIsFresh(world, url, origin, pin, content, context, offers[origin], madeFor[origin].0, madeFor[origin].1);
        return UpdateAvailable(offers[origin].(pointersVerified := content.pointersVerified));
      }
      if readFails {
        return Rejected(Unread);
      }
      var read := world.manifestAt(origin, content.cid);
      if read.Website? {
        return Rejected(NoManifest);
      }
      if pin.manifestLeaf == Some(read.leaf) {
        var fetched := world.bundleAt(url, content.cid);
        if fetchFails || fetched.None? {
          return Rejected(NotFetched);
        }
        if fetched.value.root == pin.bundleHash {
          routed := routed + [Routed(url, fetched.value, content)];
          return Decided(world.decide(fetched.value, content, context));
        }
      }
      var offer := Offer(origin, FromCid(pin), content.cid, read.manifest, content.pointersVerified);
      offers := offers[origin := offer];
      madeFor := madeFor[origin := (pin, url)];
      r := UpdateAvailable(offer);
    }

    /**
     A hint for an installed app: `None` where the name no longer leads to IPFS content. `asked` says whether the name was
     looked up; it is not within the interval of the last lookup that was answered, unless the caller insists.
     */
    method Check(url: Url, origin: Origin, pin: Pin, context: Context, recheck: bool, now: int, answer: NameAnswer, readFails: bool, fetchFails: bool)
        returns (r: Option<LoadResult>, asked: bool)
      requires Valid() && RoutedFromTheName()
      modifies this
      ensures Valid() && RoutedFromTheName()
      ensures asked <==> recheck || origin !in old(checkedAt) || now < old(checkedAt)[origin] || now >= old(checkedAt)[origin] + NAME_CHECK_INTERVAL_MS
      ensures !asked ==> r == Some(UpToDate(false)) && offers == old(offers) && routed == old(routed)
      ensures checkedAt == if asked && answer.Leads? then old(checkedAt)[origin := now] else old(checkedAt)
      ensures asked && answer.LeadsElsewhere? ==> r == None
      ensures asked && answer.Unanswered? ==> r == Some(Rejected(NameFailed(answer.reason)))
      ensures !(asked && answer.Leads?) ==> offers == old(offers) && routed == old(routed)
      ensures asked && answer.Leads? && !readFails && !fetchFails
              && (!old(Keeps(origin, pin, answer.content)) || old(KeptForSameFiles(origin, pin, url)))
              ==> r == Some(Fresh(world, url, origin, pin, answer.content, context))
      ensures routed == old(routed)
              || (asked && answer.Leads? && exists bundle ::
                    routed == old(routed) + [Routed(url, bundle, answer.content)] && world.bundleAt(url, answer.content.cid) == Some(bundle))
    {
      asked := recheck || !CheckedRecently(origin, now);
      if !asked {
        return Some(UpToDate(false)), asked;
      }
      match answer
      case Unanswered(reason) => r := Some(Rejected(NameFailed(reason)));
      case LeadsElsewhere => r := None;
      case Leads(content) =>
        checkedAt := checkedAt[origin := now];
        var compared := ComparedToPin(url, origin, pin, content, context, readFails, fetchFails);
        r := Some(compared);
    }

    /** The person said yes to an offer for `toCid`: that root is fetched and decided, and only while the name still leads there. */
    method Apply(url: Url, toCid: Cid, context: Context, answer: NameAnswer, fetchFails: bool) returns (r: LoadResult)
      requires RoutedFromTheName()
      modifies this`routed
      ensures RoutedFromTheName()
      ensures r.Decided? <==> answer.Leads? && answer.content.cid == toCid && !fetchFails && world.bundleAt(url, toCid).Some?
      ensures r.Decided? ==> var bundle := world.bundleAt(url, toCid).value;
        routed == old(routed) + [Routed(url, bundle, answer.content)] && r.decision == world.decide(bundle, answer.content, context)
      ensures !r.Decided? ==> routed == old(routed) && r.Rejected?
      ensures r == Rejected(MovedAgain) <==> answer.Leads? && answer.content.cid != toCid
    {
      match answer
      case LeadsElsewhere => r := Rejected(NotIpfs);
      case Unanswered(reason) => r := Rejected(NameFailed(reason));
      case Leads(content) =>
        if content.cid != toCid {
          return Rejected(MovedAgain);
        }
        var fetched := world.bundleAt(url, toCid);
        if fetchFails || fetched.None? {
          return Rejected(NotFetched);
        }
        routed := routed + [Routed(url, fetched.value, content)];
        r := Decided(world.decide(fetched.value, content, context));
    }
  }

  /**
   A kept offer can outlive what it was made for: two pins with no content address look alike to the cache. Asked about the one
   and then the other, whose files are what the name leads to, it gives the first one's offer again; reading afresh offers nothing.
   */
  lemma PinsWithoutAddressLookAlike(url: Url, origin: Origin, cid: Cid, context: Context) returns (world: World, first: Ask, second: Ask)
    ensures first.origin == second.origin == origin && first.url == second.url == url && first.content == second.content == Content(cid, true)
    ensures first.pin.cid == second.pin.cid == None
    ensures Answer(world, map[], first).UpdateAvailable?
    ensures Answer(world, OffersAfter(world, map[], first), second) == Answer(world, map[], first)
    ensures Afresh(world, second).Decided?
  {
    world := World((o, c) => App("m", "new"), (u, c) => Some(Bundle("o", "m", "root")), (b, c, x) => 0);
    first := Ask(url, origin, Pin(None, Some("old"), "other"), Content(cid, true), context, false, false);
    second := first.(pin := Pin(None, Some("new"), "root"));
  }
}
