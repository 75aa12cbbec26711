/** NIP-01 events: what the validator lets through, what is hashed, and that the hashed bytes say which event it was. */
module Nip01 {
  import opened Results
  import opened Hex
  import opened Json
  import opened Utf8

  type Text = seq<Unit>
  type Tag = seq<Option<Text>>

  const MAX_KIND := 65535

  /** A value as a page hands it over. A hole in an array is no value at all, and the validator skips it. */
  datatype Value = Whole(n: int) | Str(text: Text) | List(items: seq<Value>) | Hole | Other

  datatype Input = NotAnObject | Fields(createdAt: Value, kind: Value, tags: Value, content: Value)

  datatype UnsignedEvent = UnsignedEvent(createdAt: nat, kind: nat, tags: seq<Option<Tag>>, content: Text)

  datatype Refusal = BadEvent | BadCreatedAt | BadKind | BadTags | BadContent | BadPubkey

  predicate IsText(v: Value) {
    v.Str? || v.Hole?
  }

  predicate IsTag(v: Value) {
    v.Hole? || (v.List? && forall i :: 0 <= i < |v.items| ==> IsText(v.items[i]))
  }

  predicate AreTags(v: Value) {
    v.List? && forall i :: 0 <= i < |v.items| ==> IsTag(v.items[i])
  }

  function TextsOf(items: seq<Value>): Tag
    requires forall i :: 0 <= i < |items| ==> IsText(items[i])
  {
    seq(|items|, (i: nat) requires i < |items| => if items[i].Str? then Some(items[i].text) else None)
  }

  function TagsOf(items: seq<Value>): seq<Option<Tag>>
    requires forall i :: 0 <= i < |items| ==> IsTag(items[i])
  {
    seq(|items|, (i: nat) requires i < |items| && IsTag(items[i]) => if items[i].List? then Some(TextsOf(items[i].items)) else None)
  }

  /** Checks the fields in their order and reads the event off them. */
  function ValidateUnsignedEvent(input: Input): (r: Result<UnsignedEvent, Refusal>)
    ensures r.Ok? ==> input == AsInput(r.value) && r.value.kind <= MAX_KIND
  {
    if input.NotAnObject? then Err(BadEvent)
    else if !(input.createdAt.Whole? && input.createdAt.n >= 0) then Err(BadCreatedAt)
    else if !(input.kind.Whole? && 0 <= input.kind.n <= MAX_KIND) then Err(BadKind)
    else if !AreTags(input.tags) then Err(BadTags)
    else if !input.content.Str? then Err(BadContent)
    else
      ReadingTagsLosesNothing(input.tags.items);
      Ok(UnsignedEvent(input.createdAt.n, input.kind.n, TagsOf(input.tags.items), input.content.text))
  }

  /** The value a page would hand over for an event. */
  function AsInput(e: UnsignedEvent): Input {
    Fields(Whole(e.createdAt), Whole(e.kind), List(AsTags(e.tags)), Str(e.content))
  }

  function AsTags(tags: seq<Option<Tag>>): seq<Value> {
    seq(|tags|, (i: nat) requires i < |tags| => if tags[i].Some? then List(AsTexts(tags[i].value)) else Hole)
  }

  function AsTexts(tag: Tag): seq<Value> {
    seq(|tag|, (i: nat) requires i < |tag| => if tag[i].Some? then Str(tag[i].value) else Hole)
  }

  lemma ReadingTextsLosesNothing(items: seq<Value>)
    requires forall i :: 0 <= i < |items| ==> IsText(items[i])
    ensures AsTexts(TextsOf(items)) == items
  {
  }

  lemma ReadingTagsLosesNothing(items: seq<Value>)
    requires forall i :: 0 <= i < |items| ==> IsTag(items[i])
    ensures AsTags(TagsOf(items)) == items
  {
    forall i: nat | i < |items|
      ensures AsTags(TagsOf(items))[i] == items[i]
    {
      assert IsTag(items[i]);
      if items[i].List? {
        ReadingTextsLosesNothing(items[i].items);
      }
    }
  }

  /** The validator accepts exactly the well-typed events, and takes each for what it is. */
  lemma ValidatorIsExact(input: Input, e: UnsignedEvent)
    ensures ValidateUnsignedEvent(input) == Ok(e) <==> input == AsInput(e) && e.kind <= MAX_KIND
  {
    if input == AsInput(e) && e.kind <= MAX_KIND {
      forall i: nat | i < |e.tags|
        ensures IsTag(AsTags(e.tags)[i])
      {
      }
      TagsComeBack(e.tags);
    }
  }

  lemma TagsComeBack(tags: seq<Option<Tag>>)
    requires forall i :: 0 <= i < |tags| ==> IsTag(AsTags(tags)[i])
    ensures TagsOf(AsTags(tags)) == tags
  {
    var items := AsTags(tags);
    forall i: nat | i < |tags|
      ensures TagsOf(items)[i] == tags[i]
    {
      assert IsTag(items[i]);
      if tags[i].Some? {
        assert TextsOf(AsTexts(tags[i].value)) == tags[i].value;
      }
    }
  }

  // ---------------------------------------------------------------- what is hashed

  function PrintTag(tag: Tag): Text {
    Array(Quote, tag)
  }

  function PrintTags(tags: seq<Option<Tag>>): Text {
    Array(PrintTag, tags)
  }

  /** The array `[0, pubkey, created_at, kind, tags, content]` as `JSON.stringify` prints it. */
  function Serialize(pubkey: Text, e: UnsignedEvent): Text {
    [OPEN, '0' as int, COMMA] + (Quote(pubkey) + ([COMMA] + AfterPubkey(e)))
  }

  function AfterPubkey(e: UnsignedEvent): Text {
    Decimal(e.createdAt) + ([COMMA] + (Decimal(e.kind) + ([COMMA] + (PrintTags(e.tags) + ([COMMA] + (Quote(e.content) + [CLOSE]))))))
  }

  lemma TagsAreDelimited()
    ensures Delimited(PrintTags)
  {
    QuoteIsDelimited();
    ArrayIsDelimited(Quote, QUOTE, PrintTag);
    ArrayIsDelimited(PrintTag, OPEN, PrintTags);
  }

  /** No two events print alike, whatever their strings hold. */
  lemma SerializeIsInjective(p: Text, e: UnsignedEvent, q: Text, f: UnsignedEvent)
    requires Serialize(p, e) == Serialize(q, f)
    ensures p == q && e == f
  {
    hide Quote, Decimal, PrintTags;
    QuoteIsDelimited();
    TagsAreDelimited();
    Cancel([OPEN, '0' as int, COMMA], Quote(p) + ([COMMA] + AfterPubkey(e)), Quote(q) + ([COMMA] + AfterPubkey(f)));
    Cancel([COMMA], AfterPubkey(e), AfterPubkey(f));
    var ce, cf := Quote(e.content) + [CLOSE], Quote(f.content) + [CLOSE];
    var te, tf := PrintTags(e.tags) + ([COMMA] + ce), PrintTags(f.tags) + ([COMMA] + cf);
    DecimalThenComma(e.createdAt, f.createdAt, Decimal(e.kind) + ([COMMA] + te), Decimal(f.kind) + ([COMMA] + tf));
    DecimalThenComma(e.kind, f.kind, te, tf);
    Cancel([COMMA], ce, cf);
  }

  // ---------------------------------------------------------------- nothing is lost to the encoding

  lemma QuoteIsWellFormed(s: Text)
    ensures WellFormed(Quote(s))
  {
    EscapeIsWellFormed(s);
    PlainIsWellFormed([QUOTE]);
    WellFormedConcat([QUOTE], Escape(s));
    WellFormedConcat([QUOTE] + Escape(s), [QUOTE]);
  }

  ghost predicate PrintsWell<T(!new)>(f: T -> Text) {
    forall x :: WellFormed(f(x))
  }

  lemma {:induction false} ItemsAreWellFormed<T(!new)>(f: T -> Text, xs: seq<Option<T>>)
    requires PrintsWell(f)
    ensures WellFormed(Items(f, xs))
  {
    PlainIsWellFormed(NULL);
    PlainIsWellFormed([COMMA]);
    PlainIsWellFormed([]);
    if |xs| == 1 {
      WellFormedConcat(Item(f, xs[0]), []);
    } else if xs != [] {
      ItemsAreWellFormed(f, xs[1..]);
      WellFormedConcat([COMMA], Items(f, xs[1..]));
      WellFormedConcat(Item(f, xs[0]), [COMMA] + Items(f, xs[1..]));
    }
  }

  lemma ArrayIsWellFormed<T(!new)>(f: T -> Text, xs: seq<Option<T>>)
    requires PrintsWell(f)
    ensures WellFormed(Array(f, xs))
  {
    ItemsAreWellFormed(f, xs);
    PlainIsWellFormed([OPEN]);
    PlainIsWellFormed([CLOSE]);
    WellFormedConcat([OPEN], Items(f, xs));
    WellFormedConcat([OPEN] + Items(f, xs), [CLOSE]);
  }

  lemma TagsAreWellFormed(tags: seq<Option<Tag>>)
    ensures WellFormed(PrintTags(tags))
  {
    forall s: Text
      ensures WellFormed(Quote(s))
    {
      QuoteIsWellFormed(s);
    }
    forall tag: Tag
      ensures WellFormed(PrintTag(tag))
    {
      ArrayIsWellFormed(Quote, tag);
    }
    ArrayIsWellFormed(PrintTag, tags);
  }

  /** What is hashed has no lone surrogate, even when the event does: each was escaped, so the encoding keeps them apart. */
  lemma SerializeIsWellFormed(pubkey: Text, e: UnsignedEvent)
    ensures WellFormed(Serialize(pubkey, e))
  {
    hide Quote, Decimal, PrintTags, WellFormed;
    PlainIsWellFormed([COMMA]);
    PlainIsWellFormed([CLOSE]);
    PlainIsWellFormed([OPEN, '0' as int, COMMA]);
    QuoteIsWellFormed(e.content);
    QuoteIsWellFormed(pubkey);
    TagsAreWellFormed(e.tags);
    DecimalIsDigits(e.kind);
    PlainIsWellFormed(Decimal(e.kind));
    DecimalIsDigits(e.createdAt);
    PlainIsWellFormed(Decimal(e.createdAt));
    var content := Quote(e.content) + [CLOSE];
    WellFormedConcat(Quote(e.content), [CLOSE]);
    WellFormedConcat([COMMA], content);
    var tags := PrintTags(e.tags) + ([COMMA] + content);
    WellFormedConcat(PrintTags(e.tags), [COMMA] + content);
    WellFormedConcat([COMMA], tags);
    var kind := Decimal(e.kind) + ([COMMA] + tags);
    WellFormedConcat(Decimal(e.kind), [COMMA] + tags);
    WellFormedConcat([COMMA], kind);
    WellFormedConcat(Decimal(e.createdAt), [COMMA] + kind);
    WellFormedConcat([COMMA], AfterPubkey(e));
    WellFormedConcat(Quote(pubkey), [COMMA] + AfterPubkey(e));
    WellFormedConcat([OPEN, '0' as int, COMMA], Quote(pubkey) + ([COMMA] + AfterPubkey(e)));
  }

  function Preimage(pubkey: Text, e: UnsignedEvent): seq<Byte> {
    Utf8.Encode(Serialize(pubkey, e))
  }

  /** The hashed bytes determine the event. */
  lemma PreimageIsInjective(p: Text, e: UnsignedEvent, q: Text, f: UnsignedEvent)
    requires Preimage(p, e) == Preimage(q, f)
    ensures p == q && e == f
  {
    hide Serialize, Utf8.Encode;
    SerializeIsWellFormed(p, e);
    SerializeIsWellFormed(q, f);
    EncodeIsInjective(Serialize(p, e), Serialize(q, f));
    SerializeIsInjective(p, e, q, f);
  }

  // ---------------------------------------------------------------- ids

  predicate IsPubkey(v: Value) {
    v.Str? && |v.text| == 64 && forall i :: 0 <= i < 64 ==> IsLowerHex(v.text[i])
  }

  /** The id of an event, under whatever digest is given, or why there is none. */
  function ComputeEventId(digest: seq<Byte> -> seq<Byte>, input: Input, pubkey: Value): Result<Text, Refusal> {
    match ValidateUnsignedEvent(input)
    case Err(refusal) => Err(refusal)
    case Ok(e) => if !IsPubkey(pubkey) then Err(BadPubkey) else Ok(ToLowercaseHex(digest(Preimage(pubkey.text, e))))
  }

  /** The bytes hashed for an event that has an id. */
  function Hashed(input: Input, pubkey: Value): seq<Byte>
    requires ValidateUnsignedEvent(input).Ok? && IsPubkey(pubkey)
  {
    Preimage(pubkey.text, ValidateUnsignedEvent(input).value)
  }

  /** Equal ids mean the same event under the same key, unless the digest collides on just the two byte strings hashed. */
  lemma EqualIdsMeanEqualEvents(digest: seq<Byte> -> seq<Byte>, input: Input, pubkey: Value, input': Input, pubkey': Value)
    requires ComputeEventId(digest, input, pubkey).Ok?
    requires ComputeEventId(digest, input, pubkey) == ComputeEventId(digest, input', pubkey')
    ensures digest(Hashed(input, pubkey)) == digest(Hashed(input', pubkey'))
    ensures Hashed(input, pubkey) == Hashed(input', pubkey') ==> input == input' && pubkey == pubkey'
  {
    hide Preimage, ToLowercaseHex;
    var x, y := Hashed(input, pubkey), Hashed(input', pubkey');
    HexIsInjective(digest(x), digest(y));
    if x == y {
      PreimageIsInjective(pubkey.text, ValidateUnsignedEvent(input).value, pubkey'.text, ValidateUnsignedEvent(input').value);
    }
  }

  /** Every event the validator takes has an id under every key of 64 digits, and nothing else has; the event is judged first. */
  lemma WhatHasAnId(digest: seq<Byte> -> seq<Byte>, input: Input, pubkey: Value)
    ensures ComputeEventId(digest, input, pubkey).Ok? <==>
            (exists e :: input == AsInput(e) && e.kind <= MAX_KIND)
            && pubkey.Str? && |pubkey.text| == 64 && forall i :: 0 <= i < 64 ==> '0' as int <= pubkey.text[i] <= '9' as int || 'a' as int <= pubkey.text[i] <= 'f' as int
    ensures ComputeEventId(digest, input, pubkey) == Err(BadPubkey) <==>
            (exists e :: input == AsInput(e) && e.kind <= MAX_KIND) && !ComputeEventId(digest, input, pubkey).Ok?
  {
    if e :| input == AsInput(e) && e.kind <= MAX_KIND {
      ValidatorIsExact(input, e);
    }
  }

  /** What is refused is the first field that no event has, whatever the later ones are. */
  lemma FirstBadFieldIsNamed(input: Input)
    requires ValidateUnsignedEvent(input).Err?
    ensures var error := ValidateUnsignedEvent(input).error;
            (error == BadEvent <==> input.NotAnObject?)
            && (error == BadCreatedAt ==> forall e :: input.createdAt != AsInput(e).createdAt)
            && (error == BadKind ==> input.createdAt.Whole? && input.createdAt.n >= 0 && forall e: UnsignedEvent :: e.kind <= MAX_KIND ==> input.kind != AsInput(e).kind)
            && (error == BadTags ==> input.kind.Whole? && 0 <= input.kind.n <= MAX_KIND && forall e :: input.tags != AsInput(e).tags)
            && (error == BadContent ==> AreTags(input.tags) && forall e :: input.content != AsInput(e).content)
            && error != BadPubkey
  {
    if input.Fields? && !AreTags(input.tags) {
      forall e
        ensures input.tags != AsInput(e).tags
      {
        TagsAreTags(e.tags);
      }
    }
  }

  lemma TagsAreTags(tags: seq<Option<Tag>>)
    ensures AreTags(List(AsTags(tags)))
  {
  }

  /** A key written in capitals is refused, not read as the key it names: no id exists under which the two could differ. */
  lemma OnlyLowerCaseKeysHaveIds(digest: seq<Byte> -> seq<Byte>, input: Input, pubkey: Value)
    requires ComputeEventId(digest, input, pubkey).Ok?
    ensures pubkey.Str? && |pubkey.text| == 64 && forall i :: 0 <= i < 64 ==> LowerCase(pubkey.text[i]) == pubkey.text[i]
    ensures var id := ComputeEventId(digest, input, pubkey).value; forall i :: 0 <= i < |id| ==> IsLowerHex(id[i])
  {
    HexIsLowerCase(digest(Preimage(pubkey.text, ValidateUnsignedEvent(input).value)));
  }
}
