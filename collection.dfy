/**
 * `uploadCollection` (src/lib/upload/collection.ts): the tag list and the
 * JSON record of a multi-track release, and the one upload (two with an
 * overflowing description on irys) that stores it.
 */
module Collection {
  import opened Basics
  import opened Json
  import opened Schema
  import opened TagRules
  import opened Runtime

  /* ---------------------------------------------------------------------- */
  /* Tags                                                                    */
  /* ---------------------------------------------------------------------- */

  /** The six tags every collection carries first, in order. */
  function HeaderTags(title: string, address: string, collectionCode: string): seq<Tag> {
    [ Tag(DataProtocol, "Collection"),
      Tag(CollectionType, "audio"),
      Tag(Title, title),
      Tag(Type, "Document"),
      Tag(Creator, address),
      Tag(CollectionCode, collectionCode) ]
  }

  /** `JSON.stringify` of the album's initial SmartWeave state: the release
      title, all tokens held by the wallet address. */
  function AlbumState(data: Release, address: string): string {
    InitStateJson(AlbumTicker, data.title, address, data.tokenQuantity)
  }

  /** The SmartWeave tags of the album, outside development mode; the
      creator is already in the header, so this block does not repeat it. */
  function AlbumTags(initState: string, env: Env): seq<Tag> {
    if !env.isDev then AtomicTags(initState) else []
  }

  /** `Topic:genre`, unless the genre is the placeholder "none". */
  function GenreTags(genre: string): seq<Tag> {
    if genre != "none" then [Tag(GenreTopic, genre)] else []
  }

  /** The complete tag list of a collection, in the order the tags are pushed. */
  function CollectionTags(data: Release, address: string, collectionCode: string, initState: string, env: Env): seq<Tag> {
    HeaderTags(data.title, address, collectionCode)
    + DescriptionTags(data.description, data.title, address)
    + AlbumTags(initState, env)
    + ReleaseDateTags(data.releaseDate, env)
    + GenreTags(data.genre)
    + TopicTags(data.topics)
  }

  /** Builds the tag list by pushing, block by block, as `uploadCollection` does. */
  method BuildCollectionTags(data: Release, address: string, collectionCode: string, env: Env) returns (tags: seq<Tag>)
    ensures tags == CollectionTags(data, address, collectionCode, AlbumState(data, address), env)
  {
    tags := [Tag(DataProtocol, "Collection"), Tag(CollectionType, "audio"), Tag(Title, data.title),
      Tag(Type, "Document"), Tag(Creator, address), Tag(CollectionCode, collectionCode)];
    tags := AppendDescriptionTags(tags, data.description, data.title, address);
    var initState := InitStateJson(AlbumTicker, data.title, address, data.tokenQuantity);
    tags := AppendAlbumTags(tags, initState, env);
    tags := AppendDateAndGenreTags(tags, data, env);
    tags := AppendTopicTags(tags, data.topics);
  }

  /** The release date and the genre, each only when present. */
  method AppendDateAndGenreTags(tags: seq<Tag>, data: Release, env: Env) returns (out: seq<Tag>)
    ensures out == tags + ReleaseDateTags(data.releaseDate, env) + GenreTags(data.genre)
  {
    out := tags;
    if data.releaseDate != "" {
      out := out + [Tag(ReleaseDate, env.epochSeconds(data.releaseDate))];
    }
    if data.genre != "none" {
      out := out + [Tag(GenreTopic, data.genre)];
    }
  }

  /** The atomic-asset block of `uploadCollection`, skipped in development mode. */
  method AppendAlbumTags(tags: seq<Tag>, initState: string, env: Env) returns (out: seq<Tag>)
    ensures out == tags + AlbumTags(initState, env)
  {
    out := tags;
    if !env.isDev {
      out := out + [Tag(InitState, initState)];
      out := out + [Tag(AppName, "SmartWeaveContract")];
      out := out + [Tag(AppVersion, "0.3.0")];
      out := out + [Tag(IndexedBy, "ucm")];
      out := out + [Tag(ContractSrc, ContractSrcTx)];
      out := out + [Tag(ContractManifest, ManifestJson)];
      AppendSix(tags, AtomicTags(initState));
    }
  }

  /** Six single appends make the block `rest`. */
  lemma AppendSix(tags: seq<Tag>, rest: seq<Tag>)
    requires |rest| == 6
    ensures tags + [rest[0]] + [rest[1]] + [rest[2]] + [rest[3]] + [rest[4]] + [rest[5]] == tags + rest
  {
  }

  /* Where each name can occur, block by block. */

  lemma Named6(a: seq<Tag>, b: seq<Tag>, c: seq<Tag>, d: seq<Tag>, e: seq<Tag>, f: seq<Tag>, name: Name)
    ensures Named(a + b + c + d + e + f, name) ==
      Named(a, name) + Named(b, name) + Named(c, name) + Named(d, name) + Named(e, name) + Named(f, name)
  {
    NamedAppend(a + b + c + d + e, f, name);
    NamedAppend(a + b + c + d, e, name);
    NamedAppend(a + b + c, d, name);
    NamedAppend(a + b, c, name);
    NamedAppend(a, b, name);
  }

  /* The values of a name in six blocks of which only one can hold it. */

  lemma NamedOnlyFirst(a: seq<Tag>, b: seq<Tag>, c: seq<Tag>, d: seq<Tag>, e: seq<Tag>, f: seq<Tag>, name: Name)
    requires Named(b, name) == [] && Named(c, name) == [] && Named(d, name) == [] && Named(e, name) == [] && Named(f, name) == []
    ensures Named(a + b + c + d + e + f, name) == Named(a, name)
  {
    Named6(a, b, c, d, e, f, name);
  }

  lemma NamedOnlySecond(a: seq<Tag>, b: seq<Tag>, c: seq<Tag>, d: seq<Tag>, e: seq<Tag>, f: seq<Tag>, name: Name)
    requires Named(a, name) == [] && Named(c, name) == [] && Named(d, name) == [] && Named(e, name) == [] && Named(f, name) == []
    ensures Named(a + b + c + d + e + f, name) == Named(b, name)
  {
    Named6(a, b, c, d, e, f, name);
  }

  lemma NamedOnlyThird(a: seq<Tag>, b: seq<Tag>, c: seq<Tag>, d: seq<Tag>, e: seq<Tag>, f: seq<Tag>, name: Name)
    requires Named(a, name) == [] && Named(b, name) == [] && Named(d, name) == [] && Named(e, name) == [] && Named(f, name) == []
    ensures Named(a + b + c + d + e + f, name) == Named(c, name)
  {
    Named6(a, b, c, d, e, f, name);
  }

  /** The topic-named tags of six blocks of which only the last two hold any. */
  lemma TopicPartLastTwo(a: seq<Tag>, b: seq<Tag>, c: seq<Tag>, d: seq<Tag>, e: seq<Tag>, f: seq<Tag>)
    requires TopicPart(a) == [] && TopicPart(b) == [] && TopicPart(c) == [] && TopicPart(d) == []
    ensures TopicPart(a + b + c + d + e + f) == TopicPart(e) + TopicPart(f)
  {
    TopicPartAppend(a + b + c + d + e, f);
    TopicPartAppend(a + b + c + d, e);
    TopicPartAppend(a + b + c, d);
    TopicPartAppend(a + b, c);
    TopicPartAppend(a, b);
  }

  predicate IsHeaderName(name: Name) {
    name == DataProtocol || name == CollectionType || name == Title || name == Type || name == Creator || name == CollectionCode
  }

  /** The header holds each of its six names once, with its value. */
  lemma HeaderValues(title: string, address: string, collectionCode: string)
    ensures Named(HeaderTags(title, address, collectionCode), DataProtocol) == ["Collection"]
    ensures Named(HeaderTags(title, address, collectionCode), CollectionType) == ["audio"]
    ensures Named(HeaderTags(title, address, collectionCode), Title) == [title]
    ensures Named(HeaderTags(title, address, collectionCode), Type) == ["Document"]
    ensures Named(HeaderTags(title, address, collectionCode), Creator) == [address]
    ensures Named(HeaderTags(title, address, collectionCode), CollectionCode) == [collectionCode]
  {
    HeaderSplit(title, address, collectionCode, DataProtocol);
    HeaderSplit(title, address, collectionCode, CollectionType);
    HeaderSplit(title, address, collectionCode, Title);
    HeaderSplit(title, address, collectionCode, Type);
    HeaderSplit(title, address, collectionCode, Creator);
    HeaderSplit(title, address, collectionCode, CollectionCode);
  }

  /** No other name occurs in the header. */
  lemma HeaderNone(title: string, address: string, collectionCode: string, name: Name)
    requires !IsHeaderName(name)
    ensures Named(HeaderTags(title, address, collectionCode), name) == []
  {
    NamedAbsent(HeaderTags(title, address, collectionCode), name);
  }

  lemma HeaderSplit(title: string, address: string, collectionCode: string, name: Name)
    ensures var h := HeaderTags(title, address, collectionCode);
      Named(h, name) == Named([h[0]], name) + Named([h[1]], name) + Named([h[2]], name) + Named([h[3]], name) + Named([h[4]], name) + Named([h[5]], name)
  {
    var h := HeaderTags(title, address, collectionCode);
    assert h == [h[0], h[1], h[2], h[3], h[4]] + [h[5]];
    NamedAppend([h[0], h[1], h[2], h[3], h[4]], [h[5]], name);
    Named5(h[0], h[1], h[2], h[3], h[4], name);
  }

  /** The album block carries the SmartWeave names other than `Creator`. */
  lemma AlbumNone(initState: string, env: Env, name: Name)
    requires name == Creator || !IsAtomicName(name)
    ensures Named(AlbumTags(initState, env), name) == []
  {
    if !env.isDev {
      AtomicAbsent(initState, name);
    }
  }

  lemma AtomicAbsent(init: string, name: Name)
    requires name == Creator || !IsAtomicName(name)
    ensures Named(AtomicTags(init), name) == []
  {
    NamedAbsent(AtomicTags(init), name);
  }

  lemma AtomicInitState(init: string)
    ensures Named(AtomicTags(init), InitState) == [init]
  {
    var a := AtomicTags(init);
    assert a == [a[0]] + a[1..];
    NamedAppend([a[0]], a[1..], InitState);
    NamedAbsent(a[1..], InitState);
  }

  lemma AtomicNoTopics(init: string)
    ensures TopicPart(AtomicTags(init)) == []
  {
    TopicPartNone(AtomicTags(init));
  }

  lemma GenreNone(genre: string, name: Name)
    requires name != GenreTopic
    ensures Named(GenreTags(genre), name) == []
  {
  }

  /** A header name, `Creator` included, has in a collection's tags exactly
      its one header value: no later block repeats it. */
  lemma CollectionHeader(data: Release, address: string, collectionCode: string, initState: string, env: Env, name: Name)
    requires IsHeaderName(name)
    ensures Named(CollectionTags(data, address, collectionCode, initState, env), name) ==
      Named(HeaderTags(data.title, address, collectionCode), name)
  {
    var h := HeaderTags(data.title, address, collectionCode);
    var d := DescriptionTags(data.description, data.title, address);
    var a := AlbumTags(initState, env);
    var r := ReleaseDateTags(data.releaseDate, env);
    var g := GenreTags(data.genre);
    var o := TopicTags(data.topics);
    DescriptionNamed(data.description, data.title, address, name);
    AlbumNone(initState, env, name);
    ReleaseDateNamed(data.releaseDate, env, name);
    GenreNone(data.genre, name);
    TopicsNamed(data.topics, name);
    NamedOnlyFirst(h, d, a, r, g, o, name);
    assert CollectionTags(data, address, collectionCode, initState, env) == h + d + a + r + g + o;
  }

  /** A collection names its creator, the wallet address, exactly once, in
      and out of development mode. */
  lemma CollectionCreator(data: Release, address: string, collectionCode: string, initState: string, env: Env)
    ensures Named(CollectionTags(data, address, collectionCode, initState, env), Creator) == [address]
    ensures Named(CollectionTags(data, address, collectionCode, initState, env), CollectionCode) == [collectionCode]
    ensures Named(CollectionTags(data, address, collectionCode, initState, env), Title) == [data.title]
    ensures Named(CollectionTags(data, address, collectionCode, initState, env), DataProtocol) == ["Collection"]
    ensures Named(CollectionTags(data, address, collectionCode, initState, env), Type) == ["Document"]
  {
    HeaderValues(data.title, address, collectionCode);
    CollectionHeader(data, address, collectionCode, initState, env, Creator);
    CollectionHeader(data, address, collectionCode, initState, env, CollectionCode);
    CollectionHeader(data, address, collectionCode, initState, env, Title);
    CollectionHeader(data, address, collectionCode, initState, env, DataProtocol);
    CollectionHeader(data, address, collectionCode, initState, env, Type);
  }

  /** A SmartWeave name other than `Creator` has in a collection's tags
      exactly its values in the album block. */
  lemma NamedInAlbum(data: Release, address: string, collectionCode: string, initState: string, env: Env, name: Name)
    requires IsAtomicName(name) && name != Creator
    ensures Named(CollectionTags(data, address, collectionCode, initState, env), name) == Named(AlbumTags(initState, env), name)
  {
    var h := HeaderTags(data.title, address, collectionCode);
    var d := DescriptionTags(data.description, data.title, address);
    var a := AlbumTags(initState, env);
    var r := ReleaseDateTags(data.releaseDate, env);
    var g := GenreTags(data.genre);
    var o := TopicTags(data.topics);
    HeaderNone(data.title, address, collectionCode, name);
    DescriptionNamed(data.description, data.title, address, name);
    ReleaseDateNamed(data.releaseDate, env, name);
    GenreNone(data.genre, name);
    TopicsNamed(data.topics, name);
    NamedOnlyThird(h, d, a, r, g, o, name);
    assert CollectionTags(data, address, collectionCode, initState, env) == h + d + a + r + g + o;
  }

  /** Outside development mode a collection carries one `Init-State`, the
      ATOMIC-ALBUM state of the release title owned by the wallet address;
      in development mode it carries no SmartWeave tag but `Creator`. */
  lemma CollectionInitState(data: Release, address: string, collectionCode: string, initState: string, env: Env, name: Name)
    requires IsAtomicName(name) && name != Creator
    ensures !env.isDev ==>
      Named(CollectionTags(data, address, collectionCode, initState, env), InitState) == [initState]
    ensures env.isDev ==> Named(CollectionTags(data, address, collectionCode, initState, env), name) == []
  {
    NamedInAlbum(data, address, collectionCode, initState, env, InitState);
    NamedInAlbum(data, address, collectionCode, initState, env, name);
    if !env.isDev {
      AtomicInitState(initState);
    }
  }

  /** A collection's `Description` values are those of its description block. */
  lemma NamedInDescription(data: Release, address: string, collectionCode: string, initState: string, env: Env)
    ensures Named(CollectionTags(data, address, collectionCode, initState, env), Description) ==
      Named(DescriptionTags(data.description, data.title, address), Description)
  {
    var h := HeaderTags(data.title, address, collectionCode);
    var d := DescriptionTags(data.description, data.title, address);
    var a := AlbumTags(initState, env);
    var r := ReleaseDateTags(data.releaseDate, env);
    var g := GenreTags(data.genre);
    var o := TopicTags(data.topics);
    HeaderNone(data.title, address, collectionCode, Description);
    AlbumNone(initState, env, Description);
    ReleaseDateNamed(data.releaseDate, env, Description);
    GenreNone(data.genre, Description);
    TopicsNamed(data.topics, Description);
    NamedOnlySecond(h, d, a, r, g, o, Description);
    assert CollectionTags(data, address, collectionCode, initState, env) == h + d + a + r + g + o;
  }

  /** The `Description` tag of a collection follows the same three cases as
      a track's: the text when it fits, nothing when it overflows, and
      "<title> by <address>" when it is empty. */
  lemma CollectionDescription(data: Release, address: string, collectionCode: string, initState: string, env: Env)
    ensures Named(CollectionTags(data, address, collectionCode, initState, env), Description) ==
      if data.description == "" then [data.title + " by " + address]
      else if Overflows(data.description) then []
      else [data.description]
  {
    NamedInDescription(data, address, collectionCode, initState, env);
    DescriptionValue(data.description, data.title, address);
  }

  /** Only the genre and topic blocks of a collection hold topic-named tags. */
  lemma TopicsInLastBlocks(data: Release, address: string, collectionCode: string, initState: string, env: Env)
    ensures TopicPart(CollectionTags(data, address, collectionCode, initState, env)) ==
      TopicPart(GenreTags(data.genre)) + TopicPart(TopicTags(data.topics))
  {
    var h := HeaderTags(data.title, address, collectionCode);
    var d := DescriptionTags(data.description, data.title, address);
    var a := AlbumTags(initState, env);
    var r := ReleaseDateTags(data.releaseDate, env);
    var g := GenreTags(data.genre);
    var o := TopicTags(data.topics);
    HeaderNoTopics(data.title, address, collectionCode);
    DescriptionNoTopics(data.description, data.title, address);
    AlbumNoTopics(initState, env);
    ReleaseDateNoTopics(data.releaseDate, env);
    TopicPartLastTwo(h, d, a, r, g, o);
    assert CollectionTags(data, address, collectionCode, initState, env) == h + d + a + r + g + o;
  }

  lemma HeaderNoTopics(title: string, address: string, collectionCode: string)
    ensures TopicPart(HeaderTags(title, address, collectionCode)) == []
  {
    TopicPartNone(HeaderTags(title, address, collectionCode));
  }

  lemma DescriptionNoTopics(description: string, title: string, address: string)
    ensures TopicPart(DescriptionTags(description, title, address)) == []
  {
    TopicPartNone(DescriptionTags(description, title, address));
  }

  lemma ReleaseDateNoTopics(releaseDate: string, env: Env)
    ensures TopicPart(ReleaseDateTags(releaseDate, env)) == []
  {
    TopicPartNone(ReleaseDateTags(releaseDate, env));
  }

  lemma AlbumNoTopics(initState: string, env: Env)
    ensures TopicPart(AlbumTags(initState, env)) == []
  {
    if !env.isDev {
      AtomicNoTopics(initState);
    }
  }

  /** The topic-named tags of a collection are `Topic:genre` unless the genre
      is "none" (a track keeps it whatever it is), then the topic tags in order. */
  lemma CollectionTopics(data: Release, address: string, collectionCode: string, initState: string, env: Env)
    ensures TopicPart(CollectionTags(data, address, collectionCode, initState, env)) ==
      (if data.genre != "none" then [Tag(GenreTopic, data.genre)] else []) + TopicTags(data.topics)
  {
    TopicsInLastBlocks(data, address, collectionCode, initState, env);
    TopicPartAll(GenreTags(data.genre));
    TopicTagsAreTopics(data.topics);
  }

  /* ---------------------------------------------------------------------- */
  /* The collection record                                                   */
  /* ---------------------------------------------------------------------- */

  const CollectionHead := "{\"type\":\"Collection\",\"items\":"

  /** `JSON.stringify({ type: "Collection", items })`. */
  function CollectionJson(items: seq<string>): string {
    CollectionHead + StringArray(items) + "}"
  }

  /** Reads a collection record back to its item ids. */
  function ReadCollection(s: string): Option<seq<string>> {
    var a := Expect(CollectionHead, s);
    if a.None? then None else
    var b := DecodeArray(a.value);
    if b.None? || b.value.1 != "}" then None else Some(b.value.0)
  }

  /** The record lists exactly the ids it was made from, in order. */
  lemma CollectionRoundTrip(items: seq<string>)
    ensures ReadCollection(CollectionJson(items)) == Some(items)
  {
    assert CollectionJson(items) == CollectionHead + (StringArray(items) + "}");
    ExpectPrefix(CollectionHead, StringArray(items) + "}");
    DecodeStringArray(items, "}");
  }

  /* ---------------------------------------------------------------------- */
  /* The upload                                                              */
  /* ---------------------------------------------------------------------- */

  /** The arguments of `uploadCollection`. */
  datatype CollectionCall = CollectionCall(data: Release, trackTxs: seq<string>, address: string, collectionCode: string, env: Env)

  /** The request storing the record: `uploadData` on irys, a wallet-signed
      data item on turbo, with the collection tags either way. */
  function CollectionRequest(call: CollectionCall): Request {
    Store(if call.data.uploadProvider == Irys then IrysData else TurboSigned,
      Text(CollectionJson(call.trackTxs)),
      CollectionTags(call.data, call.address, call.collectionCode, AlbumState(call.data, call.address), call.env))
  }

  /** `uploadCollection`: store the record; on irys, follow an overflowing
      description with its own upload. Any rejection is re-thrown. */
  function CollectionUpload(io: Io, call: CollectionCall, world: World): Outcome {
    StoreRecord(io, CollectionRequest(call), call.data.uploadProvider, call.data.description, world)
  }

  /** Makes `request`, then, on irys, the overflow upload of `description`
      pointing at the id it got. */
  function StoreRecord(io: Io, request: Request, provider: Provider, description: string, world: World): (r: Outcome)
    ensures r.io.uploads == io.uploads
    ensures |io.log| < |r.io.log| && r.io.log[..|io.log|] == io.log && r.io.log[|io.log|] == request
  {
    var first := Settle(Io(io.log + [request], io.uploads), world.answer(|io.log|));
    match first
    case Thrown(_, _) => first
    case Done(io1, id) =>
      if provider == Irys then OverflowStep(io1, description, id, world) else first
  }

  /** The calls `uploadCollection` makes and what it resolves to: the record
      first, answered by the next reply; then, only on irys after a stored
      record with an overflowing description, the description pointing at
      the record's id. The result is the record's id, unless a call was
      rejected. */
  lemma CollectionCalls(io: Io, call: CollectionCall, world: World)
    ensures var r := CollectionUpload(io, call, world); var reply := world.answer(|io.log|);
      var extra := reply.Success? && call.data.uploadProvider == Irys && Overflows(call.data.description);
      && r.io.uploads == io.uploads
      && r.io.log == io.log + [CollectionRequest(call)] + (if extra then [OverflowRequest(call.data.description, reply.value)] else [])
      && (reply.Failure? ==> r == Thrown(r.io, reply.error))
      && (reply.Success? && !extra ==> r == Done(r.io, reply.value))
      && (extra ==> r == (if world.answer(|io.log| + 1).Success? then Done(r.io, reply.value)
                          else Thrown(r.io, world.answer(|io.log| + 1).error)))
  {
  }

  /** Whatever the provider, the record read back from the first request
      lists the track ids in order. */
  lemma CollectionRecord(io: Io, call: CollectionCall, world: World)
    ensures var r := CollectionUpload(io, call, world);
      && |io.log| < |r.io.log|
      && r.io.log[|io.log|].Store? && r.io.log[|io.log|].payload.Text?
      && ReadCollection(r.io.log[|io.log|].payload.text) == Some(call.trackTxs)
  {
    CollectionCalls(io, call, world);
    CollectionRoundTrip(call.trackTxs);
  }

  /** On turbo an overflowing description is stored nowhere: the one request
      made carries no `Description` tag and there is no follow-up upload. */
  lemma TurboDropsLongDescription(io: Io, call: CollectionCall, world: World)
    requires call.data.uploadProvider == Turbo && Overflows(call.data.description)
    ensures var r := CollectionUpload(io, call, world);
      && r.io.log == io.log + [CollectionRequest(call)]
      && Named(CollectionRequest(call).tags, Description) == []
  {
    CollectionCalls(io, call, world);
    CollectionDescription(call.data, call.address, call.collectionCode, AlbumState(call.data, call.address), call.env);
  }

  /** Makes the calls of `uploadCollection` through the gateway. */
  method UploadCollection(call: CollectionCall, g: Gateway) returns (result: Result<string, string>)
    modifies g
    ensures var r := CollectionUpload(Io(old(g.log), []), call, g.world);
      g.log == r.io.log && result == OutcomeResult(r)
  {
    var request := BuildCollectionRequest(call);
    result := StoreCollection(g, request, call.data.uploadProvider, call.data.description);
  }

  /** The `try` block of `uploadCollection` once the request is built. */
  method StoreCollection(g: Gateway, request: Request, provider: Provider, description: string) returns (result: Result<string, string>)
    modifies g
    ensures var r := StoreRecord(Io(old(g.log), []), request, provider, description, g.world);
      g.log == r.io.log && result == OutcomeResult(r)
  {
    var reply := g.Call(request);
    if reply.Failure? {
      return Failure(reply.error);
    }
    var collectionId := reply.value;
    if provider == Irys {
      result := UploadOverflow(g, description, collectionId);
    } else {
      result := Result.Success(collectionId);
    }
  }

  /** The tags and the record, put together as the request that stores them. */
  method BuildCollectionRequest(call: CollectionCall) returns (request: Request)
    ensures request == CollectionRequest(call)
  {
    var tags := BuildCollectionTags(call.data, call.address, call.collectionCode, call.env);
    var collectionData := CollectionJson(call.trackTxs);
    var channel := if call.data.uploadProvider == Irys then IrysData else TurboSigned;
    request := Store(channel, Text(collectionData), tags);
  }
}
