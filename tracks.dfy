/**
 * `uploadTracks` and its two provider paths (src/lib/upload/tracks.ts): the
 * tag list of each track, the chunk arithmetic of the streaming uploader,
 * and the loop that uploads the tracks one after another, updating each
 * track's upload state and stopping at the first error.
 */
module Tracks {
  import opened Basics
  import opened Text
  import opened Schema
  import opened TagRules
  import opened Runtime

  /* ---------------------------------------------------------------------- */
  /* Tags                                                                    */
  /* ---------------------------------------------------------------------- */

  /** `Collection-Code`, when the `collectionCode` argument is a non-empty string. */
  function CodeTags(collectionCode: Option<string>): seq<Tag> {
    if collectionCode.Some? && collectionCode.value != "" then [Tag(CollectionCode, collectionCode.value)] else []
  }

  /** The five tags every track carries, in order. */
  function BaseTags(track: Track, thumbnail: string): seq<Tag> {
    [ Tag(ContentType, track.file.mimeType),
      Tag(Title, track.metadata.title),
      Tag(Thumbnail, thumbnail),
      Tag(GenreTopic, track.metadata.genre),
      Tag(Type, "audio") ]
  }

  /** `Creator` and the SmartWeave tags of a track, outside development mode. */
  function SongTags(data: Release, track: Track, address: string, env: Env): seq<Tag> {
    if !env.isDev then
      [Tag(Creator, address)] + AtomicTags(InitStateJson(SongTicker, track.metadata.title, address, data.tokenQuantity))
    else []
  }

  /** The licence tags, when a licence is chosen and not in development mode. */
  function TrackLicenseTags(data: Release, env: Env): seq<Tag> {
    if data.license.Some? && !env.isDev then LicenseTags(data.license.value, env.udl) else []
  }

  /** The complete tag list of a track's audio upload, in the order the tags
      are appended. */
  function TrackTags(data: Release, track: Track, address: string, thumbnail: string, collectionCode: Option<string>, env: Env): seq<Tag> {
    ReleaseDateTags(data.releaseDate, env)
    + CodeTags(collectionCode)
    + BaseTags(track, thumbnail)
    + DescriptionTags(track.metadata.description, track.metadata.title, address)
    + TopicTags(track.metadata.topics)
    + SongTags(data, track, address, env)
    + TrackLicenseTags(data, env)
  }

  /** Builds the tag list by appending, block by block, as `uploadTracks` does. */
  method BuildTrackTags(data: Release, track: Track, address: string, trackArtworkId: string, collectionCode: Option<string>, env: Env)
    returns (tags: seq<Tag>)
    ensures tags == TrackTags(data, track, address, trackArtworkId, collectionCode, env)
  {
    tags := HeadTags(data, collectionCode, env);
    tags := AppendBaseTags(tags, track, trackArtworkId);
    tags := AppendDescriptionTags(tags, track.metadata.description, track.metadata.title, address);
    tags := AppendTopicTags(tags, track.metadata.topics);
    tags := AppendSongTags(tags, data, track, address, env);
    tags := AppendTrackLicenseTags(tags, data, env);
  }

  /** The release date and the collection code, each only when present. */
  method HeadTags(data: Release, collectionCode: Option<string>, env: Env) returns (tags: seq<Tag>)
    ensures tags == ReleaseDateTags(data.releaseDate, env) + CodeTags(collectionCode)
  {
    tags := [];
    if data.releaseDate != "" {
      tags := tags + [Tag(ReleaseDate, env.epochSeconds(data.releaseDate))];
    }
    if collectionCode.Some? && collectionCode.value != "" {
      tags := tags + [Tag(CollectionCode, collectionCode.value)];
    }
  }

  method AppendBaseTags(tags: seq<Tag>, track: Track, trackArtworkId: string) returns (out: seq<Tag>)
    ensures out == tags + BaseTags(track, trackArtworkId)
  {
    out := tags;
    out := out + [Tag(ContentType, track.file.mimeType)];
    out := out + [Tag(Title, track.metadata.title)];
    out := out + [Tag(Thumbnail, trackArtworkId)];
    out := out + [Tag(GenreTopic, track.metadata.genre)];
    out := out + [Tag(Type, "audio")];
  }

  /** The atomic-asset block of `uploadTracks`, skipped in development mode. */
  method AppendSongTags(tags: seq<Tag>, data: Release, track: Track, address: string, env: Env) returns (out: seq<Tag>)
    ensures out == tags + SongTags(data, track, address, env)
  {
    out := tags;
    if !env.isDev {
      var initState := InitStateJson(SongTicker, track.metadata.title, address, data.tokenQuantity);
      out := out + [Tag(Creator, address)];
      out := out + [Tag(InitState, initState)];
      out := out + [Tag(AppName, "SmartWeaveContract")];
      out := out + [Tag(AppVersion, "0.3.0")];
      out := out + [Tag(IndexedBy, "ucm")];
      out := out + [Tag(ContractSrc, ContractSrcTx)];
      out := out + [Tag(ContractManifest, ManifestJson)];
      AppendSeven(tags, Tag(Creator, address), AtomicTags(initState));
    }
  }

  /** Seven single appends make the block `[first] + rest`. */
  lemma AppendSeven(tags: seq<Tag>, first: Tag, rest: seq<Tag>)
    requires |rest| == 6
    ensures tags + [first] + [rest[0]] + [rest[1]] + [rest[2]] + [rest[3]] + [rest[4]] + [rest[5]] == tags + ([first] + rest)
  {
  }

  /** The licence block of `uploadTracks`, with `checkDerivationLicense`:
      only when a licence is chosen and not in development mode. */
  method AppendTrackLicenseTags(tags: seq<Tag>, data: Release, env: Env) returns (out: seq<Tag>)
    ensures out == tags + TrackLicenseTags(data, env)
  {
    out := tags;
    if data.license.Some? && !env.isDev {
      var license := data.license.value;
      out := out + [Tag(LicenseName, env.udl)];
      var head := out;
      if license.kind == Allowed {
        if license.commercial == "with-fee" {
          out := out + [Tag(Commercial, "allowed")];
          out := out + [Tag(LicenseFee, license.feeRecurrence + "-" + NatToString(license.commercialFee))];
          out := out + [Tag(Currency, license.currency)];
          out := out + [Tag(PaymentMode, license.paymentMode)];
        } else {
          out := out + [Tag(Commercial, "allowed-" + license.commercial)];
        }
        assert out == head + CommercialTags(license);
        out := out + [DerivationTag(license)];
      }
      if license.kind == Attribution {
        out := out + [Tag(Commercial, "allowed-with-credit")];
        out := out + [Tag(Derivation, "allowed-with-credit")];
      }
      if license.kind == Noncommercial {
        out := out + [DerivationTag(license)];
      }
      assert out == tags + [Tag(LicenseName, env.udl)] + CommercialTags(license) + DerivationTags(license);
    }
  }

  /** In development mode a track gets exactly the tags it would get outside
      it, minus the SmartWeave block and the licence block at the end. */
  lemma DevModeDropsAssetTags(data: Release, track: Track, address: string, thumbnail: string, collectionCode: Option<string>, env: Env)
    requires env.isDev
    ensures var live := TrackTags(data, track, address, thumbnail, collectionCode, env.(isDev := false));
      var dev := TrackTags(data, track, address, thumbnail, collectionCode, env);
      && |dev| <= |live| && live[..|dev|] == dev
      && live[|dev|..] == SongTags(data, track, address, env.(isDev := false)) + TrackLicenseTags(data, env.(isDev := false))
  {
    var live := env.(isDev := false);
    assert ReleaseDateTags(data.releaseDate, env) == ReleaseDateTags(data.releaseDate, live);
    PrefixOfSeven(ReleaseDateTags(data.releaseDate, live), CodeTags(collectionCode), BaseTags(track, thumbnail),
      DescriptionTags(track.metadata.description, track.metadata.title, address), TopicTags(track.metadata.topics),
      SongTags(data, track, address, live), TrackLicenseTags(data, live));
  }

  /** The first five of seven blocks are a prefix of the whole, and the last
      two are what remains. */
  lemma PrefixOfSeven(a: seq<Tag>, b: seq<Tag>, c: seq<Tag>, d: seq<Tag>, e: seq<Tag>, f: seq<Tag>, g: seq<Tag>)
    ensures var head := a + b + c + d + e;
      && (a + b + c + d + e + [] + []) == head
      && |head| <= |a + b + c + d + e + f + g|
      && (a + b + c + d + e + f + g)[..|head|] == head
      && (a + b + c + d + e + f + g)[|head|..] == f + g
  {
    var head := a + b + c + d + e;
    assert head + f + g == head + (f + g);
  }

  /* Where each name can occur, block by block. Each fact is proved once over
     arbitrary contents and then used for the concrete blocks. */

  /** The collection-code block holds the code, when it is a non-empty string. */
  lemma CodeValue(collectionCode: Option<string>)
    ensures Named(CodeTags(collectionCode), CollectionCode) ==
      if collectionCode.Some? && collectionCode.value != "" then [collectionCode.value] else []
  {
  }

  lemma CodeNone(collectionCode: Option<string>, name: Name)
    requires name != CollectionCode
    ensures Named(CodeTags(collectionCode), name) == []
  {
  }

  lemma BaseNamed(track: Track, thumbnail: string)
    ensures Named(BaseTags(track, thumbnail), ContentType) == [track.file.mimeType]
    ensures Named(BaseTags(track, thumbnail), Title) == [track.metadata.title]
    ensures Named(BaseTags(track, thumbnail), Thumbnail) == [thumbnail]
    ensures Named(BaseTags(track, thumbnail), GenreTopic) == [track.metadata.genre]
    ensures Named(BaseTags(track, thumbnail), Type) == ["audio"]
  {
    var c := BaseTags(track, thumbnail);
    Named5(c[0], c[1], c[2], c[3], c[4], ContentType);
    Named5(c[0], c[1], c[2], c[3], c[4], Title);
    Named5(c[0], c[1], c[2], c[3], c[4], Thumbnail);
    Named5(c[0], c[1], c[2], c[3], c[4], GenreTopic);
    Named5(c[0], c[1], c[2], c[3], c[4], Type);
  }

  /** A name none of the five fixed tags carries has no value among them. */
  lemma BaseNone(track: Track, thumbnail: string, name: Name)
    requires name != ContentType && name != Title && name != Thumbnail && name != GenreTopic && name != Type
    ensures Named(BaseTags(track, thumbnail), name) == []
  {
    var c := BaseTags(track, thumbnail);
    Named5(c[0], c[1], c[2], c[3], c[4], name);
  }

  lemma SongNone(data: Release, track: Track, address: string, env: Env, name: Name)
    requires !IsAtomicName(name)
    ensures Named(SongTags(data, track, address, env), name) == []
  {
    if !env.isDev {
      AtomicNone(address, InitStateJson(SongTicker, track.metadata.title, address, data.tokenQuantity), name);
    }
  }

  lemma AtomicNone(address: string, init: string, name: Name)
    requires !IsAtomicName(name)
    ensures Named([Tag(Creator, address)] + AtomicTags(init), name) == []
  {
    NamedAbsent([Tag(Creator, address)] + AtomicTags(init), name);
  }

  /** Outside development mode the SmartWeave block names the creator once. */
  lemma SongCreator(data: Release, track: Track, address: string, env: Env)
    requires !env.isDev
    ensures Named(SongTags(data, track, address, env), Creator) == [address]
  {
    AtomicOwner(address, InitStateJson(SongTicker, track.metadata.title, address, data.tokenQuantity));
  }

  /** Outside development mode the SmartWeave block carries one `Init-State`. */
  lemma SongInitState(data: Release, track: Track, address: string, env: Env)
    requires !env.isDev
    ensures Named(SongTags(data, track, address, env), InitState) ==
      [InitStateJson(SongTicker, track.metadata.title, address, data.tokenQuantity)]
  {
    AtomicOwner(address, InitStateJson(SongTicker, track.metadata.title, address, data.tokenQuantity));
  }

  lemma AtomicOwner(address: string, init: string)
    ensures Named([Tag(Creator, address)] + AtomicTags(init), Creator) == [address]
    ensures Named([Tag(Creator, address)] + AtomicTags(init), InitState) == [init]
  {
    var a := AtomicTags(init);
    assert a == [a[0]] + a[1..];
    NamedAppend([Tag(Creator, address)], a, Creator);
    NamedAppend([Tag(Creator, address)], a, InitState);
    NamedAppend([a[0]], a[1..], Creator);
    NamedAppend([a[0]], a[1..], InitState);
    NamedAbsent(a[1..], Creator);
    NamedAbsent(a[1..], InitState);
  }

  /** A name outside the licence names has no value in the licence block. */
  lemma LicenseNamedOther(data: Release, env: Env, name: Name)
    requires !IsLicenseName(name)
    ensures Named(TrackLicenseTags(data, env), name) == []
  {
    if data.license.Some? && !env.isDev {
      LicenseNone(data.license.value, env.udl, name);
    }
  }

  lemma LicenseNone(l: License, udl: string, name: Name)
    requires !IsLicenseName(name)
    ensures Named(LicenseTags(l, udl), name) == []
  {
    LicenseTagsNames(l, udl);
    NamedAbsent(LicenseTags(l, udl), name);
  }

  /** The `License` tag of a track: the UDL id, when a licence is chosen and
      not in development mode. */
  lemma LicenseNamedLicense(data: Release, env: Env)
    ensures Named(TrackLicenseTags(data, env), LicenseName) == if data.license.Some? && !env.isDev then [env.udl] else []
  {
    if data.license.Some? && !env.isDev {
      LicenseUdl(data.license.value, env.udl);
    }
  }

  lemma Named7(a: seq<Tag>, b: seq<Tag>, c: seq<Tag>, d: seq<Tag>, e: seq<Tag>, f: seq<Tag>, g: seq<Tag>, name: Name)
    ensures Named(a + b + c + d + e + f + g, name) ==
      Named(a, name) + Named(b, name) + Named(c, name) + Named(d, name) + Named(e, name) + Named(f, name) + Named(g, name)
  {
    NamedAppend(a + b + c + d + e + f, g, name);
    NamedAppend(a + b + c + d + e, f, name);
    NamedAppend(a + b + c + d, e, name);
    NamedAppend(a + b + c, d, name);
    NamedAppend(a + b, c, name);
    NamedAppend(a, b, name);
  }

  /** The values of a name that occurs in none of the seven blocks but the
      `k`-th ones listed as holding it: the concatenation of those blocks' values. */
  lemma NamedOnlyIn(a: seq<Tag>, b: seq<Tag>, c: seq<Tag>, d: seq<Tag>, e: seq<Tag>, f: seq<Tag>, g: seq<Tag>, name: Name)
    requires Named(a, name) == [] && Named(d, name) == [] && Named(e, name) == []
    ensures Named(b, name) == [] && Named(f, name) == [] && Named(g, name) == [] ==>
      Named(a + b + c + d + e + f + g, name) == Named(c, name)
    ensures Named(b, name) == [] && Named(c, name) == [] ==>
      Named(a + b + c + d + e + f + g, name) == Named(f, name) + Named(g, name)
    ensures Named(c, name) == [] && Named(f, name) == [] && Named(g, name) == [] ==>
      Named(a + b + c + d + e + f + g, name) == Named(b, name)
  {
    Named7(a, b, c, d, e, f, g, name);
  }

  /** A name that only the fourth block uses has that block's values. */
  lemma NamedOnlyInFourth(a: seq<Tag>, b: seq<Tag>, c: seq<Tag>, d: seq<Tag>, e: seq<Tag>, f: seq<Tag>, g: seq<Tag>, name: Name)
    requires Named(a, name) == [] && Named(b, name) == [] && Named(c, name) == []
    requires Named(e, name) == [] && Named(f, name) == [] && Named(g, name) == []
    ensures Named(a + b + c + d + e + f + g, name) == Named(d, name)
  {
    Named7(a, b, c, d, e, f, g, name);
  }

  /** A name none of the other blocks uses has, in a track's tags, exactly
      its values in the five fixed tags. */
  lemma NamedInBase(data: Release, track: Track, address: string, thumbnail: string, collectionCode: Option<string>, env: Env, name: Name)
    requires name != ReleaseDate && name != CollectionCode && name != Description && name != Topic
    requires !IsAtomicName(name) && !IsLicenseName(name)
    ensures Named(TrackTags(data, track, address, thumbnail, collectionCode, env), name) == Named(BaseTags(track, thumbnail), name)
  {
    ReleaseDateNamed(data.releaseDate, env, name);
    CodeNone(collectionCode, name);
    DescriptionNamed(track.metadata.description, track.metadata.title, address, name);
    TopicsNamed(track.metadata.topics, name);
    SongNone(data, track, address, env, name);
    LicenseNamedOther(data, env, name);
    NamedOnlyIn(ReleaseDateTags(data.releaseDate, env), CodeTags(collectionCode), BaseTags(track, thumbnail),
      DescriptionTags(track.metadata.description, track.metadata.title, address), TopicTags(track.metadata.topics),
      SongTags(data, track, address, env), TrackLicenseTags(data, env), name);
  }

  /** A track's tags hold exactly one `Thumbnail`: the artwork id given. */
  lemma TrackThumbnail(data: Release, track: Track, address: string, thumbnail: string, collectionCode: Option<string>, env: Env)
    ensures Named(TrackTags(data, track, address, thumbnail, collectionCode, env), Thumbnail) == [thumbnail]
  {
    BaseNamed(track, thumbnail);
    NamedInBase(data, track, address, thumbnail, collectionCode, env, Thumbnail);
  }

  /** A track's tags hold exactly one `Title`: the track's title. */
  lemma TrackTitle(data: Release, track: Track, address: string, thumbnail: string, collectionCode: Option<string>, env: Env)
    ensures Named(TrackTags(data, track, address, thumbnail, collectionCode, env), Title) == [track.metadata.title]
  {
    BaseNamed(track, thumbnail);
    NamedInBase(data, track, address, thumbnail, collectionCode, env, Title);
  }

  /** A track's tags hold exactly one `Content-Type`: the audio file's type. */
  lemma TrackContentType(data: Release, track: Track, address: string, thumbnail: string, collectionCode: Option<string>, env: Env)
    ensures Named(TrackTags(data, track, address, thumbnail, collectionCode, env), ContentType) == [track.file.mimeType]
  {
    BaseNamed(track, thumbnail);
    NamedInBase(data, track, address, thumbnail, collectionCode, env, ContentType);
  }

  /** A track's tags hold exactly one genre tag: the genre, whatever it is
      (even "none"). A topic "genre" is sent under the same name
      `Topic:genre`; `TrackGenreWire` counts the tags so sent. */
  lemma TrackGenre(data: Release, track: Track, address: string, thumbnail: string, collectionCode: Option<string>, env: Env)
    ensures Named(TrackTags(data, track, address, thumbnail, collectionCode, env), GenreTopic) == [track.metadata.genre]
  {
    BaseNamed(track, thumbnail);
    NamedInBase(data, track, address, thumbnail, collectionCode, env, GenreTopic);
  }

  /** The `Description` of a track: its description when it is non-empty and
      within 300 UTF-16 code units, none when it is longer, and "<title> by
      <address>" when it is empty. */
  lemma TrackDescription(data: Release, track: Track, address: string, thumbnail: string, collectionCode: Option<string>, env: Env)
    ensures var d := track.metadata.description;
      Named(TrackTags(data, track, address, thumbnail, collectionCode, env), Description) ==
        if d == "" then [track.metadata.title + " by " + address]
        else if Overflows(d) then []
        else [d]
  {
    DescriptionNotAhead(data, track, thumbnail, collectionCode, env);
    DescriptionNotAfter(data, track, address, env);
    NamedOnlyInFourth(ReleaseDateTags(data.releaseDate, env), CodeTags(collectionCode), BaseTags(track, thumbnail),
      DescriptionTags(track.metadata.description, track.metadata.title, address), TopicTags(track.metadata.topics),
      SongTags(data, track, address, env), TrackLicenseTags(data, env), Description);
    DescriptionValue(track.metadata.description, track.metadata.title, address);
  }

  /** None of the three blocks ahead of the description block holds a `Description`. */
  lemma DescriptionNotAhead(data: Release, track: Track, thumbnail: string, collectionCode: Option<string>, env: Env)
    ensures Named(ReleaseDateTags(data.releaseDate, env), Description) == []
    ensures Named(CodeTags(collectionCode), Description) == []
    ensures Named(BaseTags(track, thumbnail), Description) == []
  {
    ReleaseDateNamed(data.releaseDate, env, Description);
    CodeNone(collectionCode, Description);
    BaseNone(track, thumbnail, Description);
  }

  /** None of the three blocks after the description block holds a `Description`. */
  lemma DescriptionNotAfter(data: Release, track: Track, address: string, env: Env)
    ensures Named(TopicTags(track.metadata.topics), Description) == []
    ensures Named(SongTags(data, track, address, env), Description) == []
    ensures Named(TrackLicenseTags(data, env), Description) == []
  {
    TopicsNamed(track.metadata.topics, Description);
    SongNone(data, track, address, env, Description);
    LicenseNamedOther(data, env, Description);
  }

  /** A track's tags hold exactly one `Type`, which is "audio". */
  lemma TrackType(data: Release, track: Track, address: string, thumbnail: string, collectionCode: Option<string>, env: Env)
    ensures Named(TrackTags(data, track, address, thumbnail, collectionCode, env), Type) == ["audio"]
  {
    BaseNamed(track, thumbnail);
    NamedInBase(data, track, address, thumbnail, collectionCode, env, Type);
  }

  /** The values of `Collection-Code` in a track's tags are those of the
      code block: one, the argument's value, when the argument is a non-empty
      string, and none otherwise. */
  lemma TrackCollectionCode(data: Release, track: Track, address: string, thumbnail: string, collectionCode: Option<string>, env: Env)
    ensures Named(TrackTags(data, track, address, thumbnail, collectionCode, env), CollectionCode) ==
      if collectionCode.Some? && collectionCode.value != "" then [collectionCode.value] else []
  {
    NamedInCode(data, track, address, thumbnail, collectionCode, env, CollectionCode);
    CodeValue(collectionCode);
  }

  /** A name only the code block uses has, in a track's tags, exactly its
      values in that block. */
  lemma NamedInCode(data: Release, track: Track, address: string, thumbnail: string, collectionCode: Option<string>, env: Env, name: Name)
    requires name != ReleaseDate && name != Description && name != Topic && !IsAtomicName(name) && !IsLicenseName(name)
    requires name != ContentType && name != Title && name != Thumbnail && name != GenreTopic && name != Type
    ensures Named(TrackTags(data, track, address, thumbnail, collectionCode, env), name) == Named(CodeTags(collectionCode), name)
  {
    ReleaseDateNamed(data.releaseDate, env, name);
    BaseNone(track, thumbnail, name);
    DescriptionNamed(track.metadata.description, track.metadata.title, address, name);
    TopicsNamed(track.metadata.topics, name);
    SongNone(data, track, address, env, name);
    LicenseNamedOther(data, env, name);
    NamedOnlyIn(ReleaseDateTags(data.releaseDate, env), CodeTags(collectionCode), BaseTags(track, thumbnail),
      DescriptionTags(track.metadata.description, track.metadata.title, address), TopicTags(track.metadata.topics),
      SongTags(data, track, address, env), TrackLicenseTags(data, env), name);
  }

  /** A name only the SmartWeave and licence blocks use has, in a track's
      tags, exactly its values in those two blocks. */
  lemma AssetNamed(data: Release, track: Track, address: string, thumbnail: string, collectionCode: Option<string>, env: Env, name: Name)
    requires name != ReleaseDate && name != CollectionCode && name != Description && name != Topic
    requires name != ContentType && name != Title && name != Thumbnail && name != GenreTopic && name != Type
    ensures Named(TrackTags(data, track, address, thumbnail, collectionCode, env), name) ==
      Named(SongTags(data, track, address, env), name) + Named(TrackLicenseTags(data, env), name)
  {
    ReleaseDateNamed(data.releaseDate, env, name);
    CodeNone(collectionCode, name);
    BaseNone(track, thumbnail, name);
    DescriptionNamed(track.metadata.description, track.metadata.title, address, name);
    TopicsNamed(track.metadata.topics, name);
    NamedOnlyIn(ReleaseDateTags(data.releaseDate, env), CodeTags(collectionCode), BaseTags(track, thumbnail),
      DescriptionTags(track.metadata.description, track.metadata.title, address), TopicTags(track.metadata.topics),
      SongTags(data, track, address, env), TrackLicenseTags(data, env), name);
  }

  /** A SmartWeave name has, in a track's tags, exactly its values in the
      SmartWeave block. */
  lemma NamedInSong(data: Release, track: Track, address: string, thumbnail: string, collectionCode: Option<string>, env: Env, name: Name)
    requires name != ReleaseDate && name != CollectionCode && name != Description && name != Topic
    requires name != ContentType && name != Title && name != Thumbnail && name != GenreTopic && name != Type
    requires !IsLicenseName(name)
    ensures Named(TrackTags(data, track, address, thumbnail, collectionCode, env), name) == Named(SongTags(data, track, address, env), name)
  {
    AssetNamed(data, track, address, thumbnail, collectionCode, env, name);
    LicenseNamedOther(data, env, name);
  }

  /** A licence name has, in a track's tags, exactly its values in the
      licence block. */
  lemma NamedInLicense(data: Release, track: Track, address: string, thumbnail: string, collectionCode: Option<string>, env: Env, name: Name)
    requires name != ReleaseDate && name != CollectionCode && name != Description && name != Topic
    requires name != ContentType && name != Title && name != Thumbnail && name != GenreTopic && name != Type
    requires !IsAtomicName(name)
    ensures Named(TrackTags(data, track, address, thumbnail, collectionCode, env), name) == Named(TrackLicenseTags(data, env), name)
  {
    AssetNamed(data, track, address, thumbnail, collectionCode, env, name);
    SongNone(data, track, address, env, name);
  }

  /** Outside development mode a track names its creator, the wallet
      address, once. */
  lemma TrackCreator(data: Release, track: Track, address: string, thumbnail: string, collectionCode: Option<string>, env: Env)
    requires !env.isDev
    ensures Named(TrackTags(data, track, address, thumbnail, collectionCode, env), Creator) == [address]
  {
    NamedInSong(data, track, address, thumbnail, collectionCode, env, Creator);
    SongCreator(data, track, address, env);
  }

  /** Outside development mode a track carries one `Init-State`: the
      ATOMIC-SONG state of its title, owned by the wallet address. */
  lemma TrackInitState(data: Release, track: Track, address: string, thumbnail: string, collectionCode: Option<string>, env: Env)
    requires !env.isDev
    ensures Named(TrackTags(data, track, address, thumbnail, collectionCode, env), InitState) == [InitStateJson(SongTicker, track.metadata.title, address, data.tokenQuantity)]
  {
    NamedInSong(data, track, address, thumbnail, collectionCode, env, InitState);
    SongInitState(data, track, address, env);
  }

  /** A track carries one `License` tag, the UDL id, when a licence is chosen
      and not in development mode, and none otherwise. */
  lemma TrackLicense(data: Release, track: Track, address: string, thumbnail: string, collectionCode: Option<string>, env: Env)
    ensures Named(TrackTags(data, track, address, thumbnail, collectionCode, env), LicenseName) == if data.license.Some? && !env.isDev then [env.udl] else []
  {
    NamedInLicense(data, track, address, thumbnail, collectionCode, env, LicenseName);
    LicenseNamedLicense(data, env);
  }

  /** In development mode a track carries no creator, no `Init-State` and no
      `License` tag. */
  lemma DevTrackNoAsset(data: Release, track: Track, address: string, thumbnail: string, collectionCode: Option<string>, env: Env, name: Name)
    requires env.isDev
    requires name != ReleaseDate && name != CollectionCode && name != Description && name != Topic
    requires name != ContentType && name != Title && name != Thumbnail && name != GenreTopic && name != Type
    ensures Named(TrackTags(data, track, address, thumbnail, collectionCode, env), name) == []
  {
    AssetNamed(data, track, address, thumbnail, collectionCode, env, name);
  }

  /* Topic-named tags, block by block. */

  lemma TopicPartOnly(a: seq<Tag>, b: seq<Tag>, c: seq<Tag>, d: seq<Tag>, e: seq<Tag>, f: seq<Tag>, g: seq<Tag>)
    requires TopicPart(a) == [] && TopicPart(b) == [] && TopicPart(d) == [] && TopicPart(f) == [] && TopicPart(g) == []
    ensures TopicPart(a + b + c + d + e + f + g) == TopicPart(c) + TopicPart(e)
  {
    TopicPartAppend(a + b + c + d + e + f, g);
    TopicPartAppend(a + b + c + d + e, f);
    TopicPartAppend(a + b + c + d, e);
    TopicPartAppend(a + b + c, d);
    TopicPartAppend(a + b, c);
    TopicPartAppend(a, b);
  }

  lemma NoTopicBlocks(data: Release, track: Track, address: string, collectionCode: Option<string>, env: Env)
    ensures TopicPart(ReleaseDateTags(data.releaseDate, env)) == []
    ensures TopicPart(CodeTags(collectionCode)) == []
    ensures TopicPart(DescriptionTags(track.metadata.description, track.metadata.title, address)) == []
  {
    TopicPartNone(ReleaseDateTags(data.releaseDate, env));
    TopicPartNone(CodeTags(collectionCode));
    TopicPartNone(DescriptionTags(track.metadata.description, track.metadata.title, address));
  }

  /** The topic-named tags of a track are `Topic:genre`, always (even for the
      genre "none"), followed by the topic tags in order. */
  lemma TrackTopics(data: Release, track: Track, address: string, thumbnail: string, collectionCode: Option<string>, env: Env)
    ensures TopicPart(TrackTags(data, track, address, thumbnail, collectionCode, env)) ==
      [Tag(GenreTopic, track.metadata.genre)] + TopicTags(track.metadata.topics)
  {
    NoTopicBlocks(data, track, address, collectionCode, env);
    SongNoTopic(data, track, address, env);
    LicenseNoTopic(data, env);
    TopicTagsAreTopics(track.metadata.topics);
    BaseTopics(track, thumbnail);
    TopicPartOnly(ReleaseDateTags(data.releaseDate, env), CodeTags(collectionCode), BaseTags(track, thumbnail),
      DescriptionTags(track.metadata.description, track.metadata.title, address), TopicTags(track.metadata.topics),
      SongTags(data, track, address, env), TrackLicenseTags(data, env));
  }

  /** The tags a track sends under the name `Topic:genre`: the genre tag
      first, then every topic tag whose value is "genre". The genre tag is
      the only one exactly when no topic is "genre". */
  lemma TrackGenreWire(data: Release, track: Track, address: string, thumbnail: string, collectionCode: Option<string>, env: Env)
    ensures var sent := GenreSent(TrackTags(data, track, address, thumbnail, collectionCode, env));
      var topics := TopicTags(track.metadata.topics);
      && sent == [track.metadata.genre] + GenreSent(topics)
      && (forall k :: 1 <= k < |sent| ==> sent[k] == "genre")
      && (|sent| == 1 <==> forall k :: 0 <= k < |topics| ==> topics[k].value != "genre")
  {
    TrackTopics(data, track, address, thumbnail, collectionCode, env);
    TopicTagsNamedTopic(track.metadata.topics);
    GenreSentOf(TrackTags(data, track, address, thumbnail, collectionCode, env), track.metadata.genre, TopicTags(track.metadata.topics));
    GenreAheadOfTopics(track.metadata.genre, TopicTags(track.metadata.topics));
  }

  /** With the topics "genre" a track sends two `Topic:genre` tags. */
  lemma GenreTopicTwice(data: Release, track: Track, address: string, thumbnail: string, collectionCode: Option<string>, env: Env)
    requires track.metadata.topics == "genre"
    ensures GenreSent(TrackTags(data, track, address, thumbnail, collectionCode, env)) == [track.metadata.genre, "genre"]
  {
    TrackGenreWire(data, track, address, thumbnail, collectionCode, env);
    GenreTopicTags();
  }

  lemma SongNoTopic(data: Release, track: Track, address: string, env: Env)
    ensures TopicPart(SongTags(data, track, address, env)) == []
  {
    if !env.isDev {
      AtomicNoTopic(address, InitStateJson(SongTicker, track.metadata.title, address, data.tokenQuantity));
    }
  }

  lemma AtomicNoTopic(address: string, init: string)
    ensures TopicPart([Tag(Creator, address)] + AtomicTags(init)) == []
  {
    TopicPartNone([Tag(Creator, address)] + AtomicTags(init));
  }

  lemma LicenseNoTopic(data: Release, env: Env)
    ensures TopicPart(TrackLicenseTags(data, env)) == []
  {
    if data.license.Some? && !env.isDev {
      LicenseTopicFree(data.license.value, env.udl);
    }
  }

  lemma LicenseTopicFree(l: License, udl: string)
    ensures TopicPart(LicenseTags(l, udl)) == []
  {
    LicenseTagsNames(l, udl);
    TopicPartNone(LicenseTags(l, udl));
  }

  lemma BaseTopics(track: Track, thumbnail: string)
    ensures TopicPart(BaseTags(track, thumbnail)) == [Tag(GenreTopic, track.metadata.genre)]
  {
    var c := BaseTags(track, thumbnail);
    assert c == [c[0], c[1], c[2]] + [c[3]] + [c[4]];
    TopicPartNone([c[0], c[1], c[2]]);
    TopicPartNone([c[4]]);
    TopicPartAppend([c[0], c[1], c[2]] + [c[3]], [c[4]]);
    TopicPartAppend([c[0], c[1], c[2]], [c[3]]);
  }

  /* ---------------------------------------------------------------------- */
  /* Chunk arithmetic of the streaming uploader                              */
  /* ---------------------------------------------------------------------- */

  const ChunkSize := 25000000

  /** `totalChunks`: one for a file smaller than a chunk, otherwise the size
      divided by the chunk size, rounded down. */
  function TotalChunks(size: nat): (n: nat)
    ensures n >= 1
    ensures size < ChunkSize ==> n == 1
    ensures size >= ChunkSize ==> n * ChunkSize <= size < (n + 1) * ChunkSize
  {
    if size < ChunkSize then 1 else size / ChunkSize
  }

  /** The percentage shown after chunk number `chunkNumber` (counted from 1). */
  function ChunkProgress(chunkNumber: nat, total: nat): real
    requires total >= 1
  {
    if chunkNumber >= total then 100.0 else (chunkNumber as real / total as real) * 100.0
  }

  /** Progress stays within 0..100, is 100 exactly from the last counted chunk
      on, and never goes down as chunks arrive in order. */
  lemma ChunkProgressBounds(chunkNumber: nat, later: nat, total: nat)
    requires total >= 1 && chunkNumber <= later
    ensures 0.0 <= ChunkProgress(chunkNumber, total) <= 100.0
    ensures ChunkProgress(chunkNumber, total) == 100.0 <==> chunkNumber >= total
    ensures ChunkProgress(chunkNumber, total) <= ChunkProgress(later, total)
  {
    var t := total as real;
    if chunkNumber < total {
      assert chunkNumber as real / t < 1.0;
      if later < total {
        assert chunkNumber as real / t <= later as real / t;
      }
    }
  }

  /** The upload state after one event of the chunked uploader. */
  function AfterChunk(u: UploadState, event: ChunkEvent, total: nat): UploadState
    requires total >= 1
  {
    match event
    case ChunkUploaded(id) =>
      u.(status := if u.status == Idle then InProgress else u.status, progress := ChunkProgress(id + 1, total))
    case ChunkFailed(_) => u.(status := Failed)
  }

  /** The upload state after a run of events, in order. */
  function AfterChunks(u: UploadState, events: seq<ChunkEvent>, total: nat): UploadState
    requires total >= 1
    decreases |events|
  {
    if |events| == 0 then u else AfterChunk(AfterChunks(u, events[..|events| - 1], total), events[|events| - 1], total)
  }

  /** Chunk events touch only status and progress; one chunk error leaves the
      track failed whatever follows; without errors a track that was already
      in progress stays in progress; progress ends at the last uploaded
      chunk's percentage. */
  lemma {:induction false} ChunkEventsEffect(u: UploadState, events: seq<ChunkEvent>, total: nat)
    requires total >= 1
    ensures var v := AfterChunks(u, events, total);
      && v.tx == u.tx && v.registered == u.registered
      && ((exists k :: 0 <= k < |events| && events[k].ChunkFailed?) ==> v.status == Failed)
      && ((forall k :: 0 <= k < |events| ==> events[k].ChunkUploaded?) && u.status == InProgress ==> v.status == InProgress)
      && (|events| > 0 && events[|events| - 1].ChunkUploaded? ==> v.progress == ChunkProgress(events[|events| - 1].id + 1, total))
      && (u.status != UploadStatus.Success ==> v.status != UploadStatus.Success)
    decreases |events|
  {
    if |events| > 0 {
      var init := events[..|events| - 1];
      ChunkEventsEffect(u, init, total);
      if exists k :: 0 <= k < |events| && events[k].ChunkFailed? {
        var k :| 0 <= k < |events| && events[k].ChunkFailed?;
        if k < |events| - 1 {
          assert init[k].ChunkFailed?;
        }
      }
      if forall k :: 0 <= k < |events| ==> events[k].ChunkUploaded? {
        assert forall k :: 0 <= k < |init| ==> init[k] == events[k];
      }
    }
  }

  /** The `chunkUpload` handler. */
  method OnChunkUpload(form: UploadForm, i: nat, chunkId: nat, totalChunks: nat)
    requires i < |form.uploads| && totalChunks >= 1
    modifies form
    ensures form.uploads == old(form.uploads)[i := AfterChunk(old(form.uploads)[i], ChunkUploaded(chunkId), totalChunks)]
  {
    var chunkNumber := chunkId + 1;
    if form.Status(i) == Idle {
      form.SetStatus(i, InProgress);
    }
    if chunkNumber >= totalChunks {
      form.SetProgress(i, 100.0);
    } else {
      form.SetProgress(i, (chunkNumber as real / totalChunks as real) * 100.0);
    }
  }

  /** The `chunkError` handler: the track is marked failed; nothing is thrown. */
  method OnChunkError(form: UploadForm, i: nat)
    requires i < |form.uploads|
    modifies form
    ensures form.uploads == WithStatus(old(form.uploads), i, Failed)
  {
    form.SetStatus(i, Failed);
  }

  /* ---------------------------------------------------------------------- */
  /* The track loop                                                          */
  /* ---------------------------------------------------------------------- */

  /** The arguments of `uploadTracks`, by its own parameter list (the form
      and the irys options aside): `collectionCode` is optional. */
  datatype TracksCall = TracksCall(
    data: Release,
    address: string,
    artworkId: string,
    provider: Provider,
    collectionCode: Option<string>,
    env: Env)

  /** `after` differs from `before` only in track `i` and in requests
      appended to the log. */
  predicate Touches(before: Io, after: Io, i: nat) {
    && |after.uploads| == |before.uploads|
    && (forall k :: 0 <= k < |before.uploads| && k != i ==> after.uploads[k] == before.uploads[k])
    && |before.log| <= |after.log| && after.log[..|before.log|] == before.log
  }

  lemma TouchesTrans(a: Io, b: Io, c: Io, i: nat)
    requires Touches(a, b, i) && Touches(b, c, i)
    ensures Touches(a, c, i)
  {
    assert c.log[..|a.log|] == c.log[..|b.log|][..|a.log|];
  }

  /** Track `i` enters the upload: in progress, at 10%. */
  function StartTrack(uploads: seq<UploadState>, i: nat): seq<UploadState>
    requires i < |uploads|
  {
    WithProgress(WithStatus(uploads, i, InProgress), i, 10.0)
  }

  /** The artwork of track `i`: the release artwork's id when the track holds
      the very same file object, otherwise the id returned by one upload of
      the track's own artwork, after which irys shows 20%. */
  function ArtworkStep(io: Io, call: TracksCall, i: nat, world: World): (r: Outcome)
    requires i < |io.uploads| && i < |call.data.tracklist|
    ensures Touches(io, r.io, i)
    ensures r.io.uploads[i].status == io.uploads[i].status
  {
    var art := call.data.tracklist[i].metadata.artwork.file;
    if call.data.releaseArtwork.file == art then Done(io, call.artworkId)
    else
      var reply := world.answer(|io.log|);
      var uploads := if call.provider == Irys && reply.Success? then WithProgress(io.uploads, i, 20.0) else io.uploads;
      Settle(Io(io.log + [ArtworkRequest(call.provider, art)], uploads), reply)
  }

  /** The request that stores a track's audio file with its tags. */
  function AudioRequest(provider: Provider, track: Track, tags: seq<Tag>): Request {
    Store(if provider == Irys then IrysChunked else TurboSigned, FileContent(track.file), tags)
  }

  /** `uploadTrackWithIrys`: the chunk events reported during the call update
      the track, then the call settles. */
  function IrysStep(io: Io, i: nat, track: Track, tags: seq<Tag>, world: World): (r: Outcome)
    requires i < |io.uploads|
    ensures Touches(io, r.io, i)
    ensures r.io.log == io.log + [AudioRequest(Irys, track, tags)]
    ensures io.uploads[i].status != UploadStatus.Success ==> r.io.uploads[i].status != UploadStatus.Success
  {
    var n := |io.log|;
    var u := AfterChunks(io.uploads[i], world.chunks(n), TotalChunks(track.file.size));
    ChunkEventsEffect(io.uploads[i], world.chunks(n), TotalChunks(track.file.size));
    Settle(Io(io.log + [AudioRequest(Irys, track, tags)], io.uploads[i := u]), world.answer(n))
  }

  /** `uploadTrackWithTurbo`: in progress at 50%, one signed upload, then
      100% once it returns. */
  function TurboStep(io: Io, i: nat, track: Track, tags: seq<Tag>, world: World): (r: Outcome)
    requires i < |io.uploads|
    ensures Touches(io, r.io, i)
    ensures r.io.log == io.log + [AudioRequest(Turbo, track, tags)]
    ensures r.io.uploads[i].status == InProgress
    ensures r.Done? ==> r.io.uploads[i].progress == 100.0
  {
    var reply := world.answer(|io.log|);
    var before := WithProgress(WithStatus(io.uploads, i, InProgress), i, 50.0);
    var after := if reply.Success? then WithProgress(before, i, 100.0) else before;
    Settle(Io(io.log + [AudioRequest(Turbo, track, tags)], after), reply)
  }

  /** The `catch` of the loop: the track is marked failed and the error is
      re-thrown, ending the loop. */
  function Abort(ids: seq<string>, io: Io, i: nat, e: string): (r: Run)
    requires i < |io.uploads|
    ensures Touches(io, Io(r.log, r.uploads), i) && r.error == Some(e) && r.uploads[i].status == Failed
  {
    Run(io.log, WithStatus(io.uploads, i, Failed), ids, Some(e))
  }

  /** The end of a track's iteration: a non-empty id becomes the track's
      `tx`, the track succeeds and the id is collected; an empty id changes
      nothing. */
  function Finish(s: Run, i: nat, id: string): (r: Run)
    requires i < |s.uploads|
    ensures Touches(Io(s.log, s.uploads), Io(r.log, r.uploads), i)
  {
    if id != "" then s.(uploads := WithStatus(WithTx(s.uploads, i, id), i, UploadStatus.Success), ids := s.ids + [id]) else s
  }

  /** One iteration of `uploadTracks`, for track `i`. */
  function TrackStep(s: Run, call: TracksCall, i: nat, world: World): (r: Run)
    requires i < |s.uploads| && i < |call.data.tracklist|
    ensures Touches(Io(s.log, s.uploads), Io(r.log, r.uploads), i)
  {
    match ArtworkStep(Io(s.log, StartTrack(s.uploads, i)), call, i, world)
    case Thrown(io, e) => Abort(s.ids, io, i, e)
    case Done(io, thumbnail) =>
      var track := call.data.tracklist[i];
      AudioPhase(s.ids, io, call.provider, track, i, TrackTags(call.data, track, call.address, thumbnail, call.collectionCode, call.env), world)
  }

  /** The rest of an iteration once the track's tags are built: the audio
      upload through the provider, the overflow upload and the bookkeeping. */
  function AudioPhase(ids: seq<string>, io: Io, provider: Provider, track: Track, i: nat, tags: seq<Tag>, world: World): (r: Run)
    requires i < |io.uploads|
    ensures Touches(io, Io(r.log, r.uploads), i)
  {
    match (if provider == Irys then IrysStep(io, i, track, tags, world) else TurboStep(io, i, track, tags, world))
    case Thrown(io2, e) => Abort(ids, io2, i, e)
    case Done(io2, id) => Conclude(ids, io2, i, track.metadata.description, id, world)
  }

  /** The end of an iteration whose audio upload returned `id`. */
  function Conclude(ids: seq<string>, io: Io, i: nat, description: string, id: string, world: World): (r: Run)
    requires i < |io.uploads|
    ensures Touches(io, Io(r.log, r.uploads), i)
  {
    match OverflowStep(io, description, id, world)
    case Thrown(io3, e) => Abort(ids, io3, i, e)
    case Done(io3, _) => Finish(Run(io3.log, io3.uploads, ids, None), i, id)
  }

  /** The loop from iteration `i` on, in state `s`; it stops at the first
      error. */
  function TracksFrom(s: Run, call: TracksCall, i: nat, world: World): (r: Run)
    requires i <= |call.data.tracklist| == |s.uploads|
    ensures |r.uploads| == |s.uploads|
    ensures forall k :: 0 <= k < i ==> r.uploads[k] == s.uploads[k]
    ensures |s.log| <= |r.log| && r.log[..|s.log|] == s.log
    ensures s.error.None? ==> LoopOutcome(s, r, i)
    decreases |call.data.tracklist| - i
  {
    if i == |call.data.tracklist| || s.error.Some? then
      assert i == |call.data.tracklist| ==> s.uploads[i..] == [];
      s
    else
      var next := TrackStep(s, call, i, world);
      var r := TracksFrom(next, call, i + 1, world);
      TrackStepRecords(s, call, i, world);
      assert r.log[..|s.log|] == r.log[..|next.log|][..|s.log|];
      assert next.error.Some? ==> r == next;
      LoopStep(s, next, r, i);
      r
  }

  /** `uploadTracks`: the ids collected, or the error of the first track that
      failed. */
  method UploadTracks(call: TracksCall, form: UploadForm, g: Gateway) returns (uploadedTracks: seq<string>, error: Option<string>)
    requires |form.uploads| == |call.data.tracklist|
    modifies form, g
    ensures Run(g.log, form.uploads, uploadedTracks, error) == TracksFrom(Run(old(g.log), old(form.uploads), [], None), call, 0, g.world)
  {
    ghost var goal := TracksFrom(Run(g.log, form.uploads, [], None), call, 0, g.world);
    uploadedTracks := [];
    error := None;
    var i := 0;
    while i < |call.data.tracklist| && error.None?
      invariant i <= |call.data.tracklist| == |form.uploads|
      invariant TracksFrom(Run(g.log, form.uploads, uploadedTracks, error), call, i, g.world) == goal
    {
      uploadedTracks, error := UploadTrack(call, form, g, i, uploadedTracks);
      i := i + 1;
    }
  }

  /** One iteration of the loop, `try` and `catch` included. */
  method UploadTrack(call: TracksCall, form: UploadForm, g: Gateway, i: nat, uploadedTracks: seq<string>)
    returns (uploaded: seq<string>, error: Option<string>)
    requires i < |call.data.tracklist| == |form.uploads|
    modifies form, g
    ensures Run(g.log, form.uploads, uploaded, error) == TrackStep(Run(old(g.log), old(form.uploads), uploadedTracks, None), call, i, g.world)
  {
    form.SetStatus(i, InProgress);
    form.SetProgress(i, 10.0);
    var thumbnail := ResolveArtwork(call, form, g, i);
    if thumbnail.Failure? {
      form.SetStatus(i, Failed);
      return uploadedTracks, Some(thumbnail.error);
    }
    var track := call.data.tracklist[i];
    var tags := BuildTrackTags(call.data, track, call.address, thumbnail.value, call.collectionCode, call.env);
    uploaded, error := UploadAudio(call.provider, track, form, g, i, tags, uploadedTracks);
  }

  /** The audio upload of track `i`, its overflow upload and its bookkeeping. */
  method UploadAudio(provider: Provider, track: Track, form: UploadForm, g: Gateway, i: nat, tags: seq<Tag>, uploadedTracks: seq<string>)
    returns (uploaded: seq<string>, error: Option<string>)
    requires i < |form.uploads|
    modifies form, g
    ensures Run(g.log, form.uploads, uploaded, error) == AudioPhase(uploadedTracks, Io(old(g.log), old(form.uploads)), provider, track, i, tags, g.world)
  {
    uploaded, error := uploadedTracks, None;
    var result;
    if provider == Irys {
      result := UploadTrackWithIrys(form, g, track, i, tags);
    } else {
      result := UploadTrackWithTurbo(form, g, track, i, tags);
    }
    if result.Failure? {
      form.SetStatus(i, Failed);
      return uploaded, Some(result.error);
    }
    uploaded, error := ConcludeTrack(form, g, i, track.metadata.description, result.value, uploadedTracks);
  }

  /** The overflow upload of track `i`, then its `tx`, status and id. */
  method ConcludeTrack(form: UploadForm, g: Gateway, i: nat, description: string, resultId: string, uploadedTracks: seq<string>)
    returns (uploaded: seq<string>, error: Option<string>)
    requires i < |form.uploads|
    modifies form, g
    ensures Run(g.log, form.uploads, uploaded, error) == Conclude(uploadedTracks, Io(old(g.log), old(form.uploads)), i, description, resultId, g.world)
  {
    uploaded, error := uploadedTracks, None;
    if Overflows(description) {
      var reply := g.Call(OverflowRequest(description, resultId));
      if reply.Failure? {
        form.SetStatus(i, Failed);
        return uploaded, Some(reply.error);
      }
    }
    if resultId != "" {
      form.SetTx(i, resultId);
      form.SetStatus(i, UploadStatus.Success);
      uploaded := uploaded + [resultId];
    }
  }

  /** The thumbnail of track `i`: reused, or uploaded through the provider. */
  method ResolveArtwork(call: TracksCall, form: UploadForm, g: Gateway, i: nat) returns (thumbnail: Result<string, string>)
    requires i < |call.data.tracklist| && i < |form.uploads|
    modifies form, g
    ensures ArtworkStep(Io(old(g.log), old(form.uploads)), call, i, g.world) == Settle(Io(g.log, form.uploads), thumbnail)
  {
    var art := call.data.tracklist[i].metadata.artwork.file;
    if call.data.releaseArtwork.file == art {
      thumbnail := Result.Success(call.artworkId);
    } else {
      thumbnail := g.Call(ArtworkRequest(call.provider, art));
      if call.provider == Irys && thumbnail.Success? {
        form.SetProgress(i, 20.0);
      }
    }
  }

  /** `uploadTrackWithIrys`: one chunked upload, whose chunk events drive the
      track's status and progress. */
  method UploadTrackWithIrys(form: UploadForm, g: Gateway, track: Track, i: nat, tags: seq<Tag>) returns (result: Result<string, string>)
    requires i < |form.uploads|
    modifies form, g
    ensures IrysStep(Io(old(g.log), old(form.uploads)), i, track, tags, g.world) == Settle(Io(g.log, form.uploads), result)
  {
    var totalChunks := if track.file.size < ChunkSize then 1 else track.file.size / ChunkSize;
    var events := g.world.chunks(|g.log|);
    var j := 0;
    while j < |events|
      invariant j <= |events| && g.log == old(g.log)
      invariant form.uploads == old(form.uploads)[i := AfterChunks(old(form.uploads)[i], events[..j], totalChunks)]
    {
      assert events[..j + 1][..j] == events[..j];
      match events[j] {
        case ChunkUploaded(id) => OnChunkUpload(form, i, id, totalChunks);
        case ChunkFailed(_) => OnChunkError(form, i);
      }
      j := j + 1;
    }
    assert events[..j] == events;
    result := g.Call(AudioRequest(Irys, track, tags));
  }

  /** `uploadTrackWithTurbo`: synthetic progress around one signed upload. */
  method UploadTrackWithTurbo(form: UploadForm, g: Gateway, track: Track, i: nat, tags: seq<Tag>) returns (result: Result<string, string>)
    requires i < |form.uploads|
    modifies form, g
    ensures TurboStep(Io(old(g.log), old(form.uploads)), i, track, tags, g.world) == Settle(Io(g.log, form.uploads), result)
  {
    form.SetStatus(i, InProgress);
    form.SetProgress(i, 50.0);
    result := g.Call(AudioRequest(Turbo, track, tags));
    if result.Success? {
      form.SetProgress(i, 100.0);
    }
  }


  /* What the loop records */

  /** How one iteration leaves the collected ids: unchanged when it failed
      (the track then shows failed) or produced no id, and one more id, the
      track's new `tx`, exactly when the track shows success. */
  predicate Recorded(before: seq<string>, r: Run, i: nat)
    requires i < |r.uploads|
  {
    if r.error.Some? then r.ids == before && r.uploads[i].status == Failed
    else if r.uploads[i].status == UploadStatus.Success then
      r.uploads[i].tx.Some? && r.uploads[i].tx.value != "" && r.ids == before + [r.uploads[i].tx.value]
    else r.ids == before
  }

  lemma ConcludeRecords(ids: seq<string>, io: Io, i: nat, description: string, id: string, world: World)
    requires i < |io.uploads| && io.uploads[i].status != UploadStatus.Success
    ensures Recorded(ids, Conclude(ids, io, i, description, id, world), i)
  {
  }

  lemma AudioPhaseRecords(ids: seq<string>, io: Io, provider: Provider, track: Track, i: nat, tags: seq<Tag>, world: World)
    requires i < |io.uploads| && io.uploads[i].status != UploadStatus.Success
    ensures Recorded(ids, AudioPhase(ids, io, provider, track, i, tags, world), i)
  {
    var step := if provider == Irys then IrysStep(io, i, track, tags, world) else TurboStep(io, i, track, tags, world);
    if step.Done? {
      ConcludeRecords(ids, step.io, i, track.metadata.description, step.id, world);
    }
  }

  /** Every iteration records its track as `Recorded` says. */
  lemma TrackStepRecords(s: Run, call: TracksCall, i: nat, world: World)
    requires i < |s.uploads| && i < |call.data.tracklist|
    ensures Recorded(s.ids, TrackStep(s, call, i, world), i)
  {
    var step := ArtworkStep(Io(s.log, StartTrack(s.uploads, i)), call, i, world);
    if step.Done? {
      var track := call.data.tracklist[i];
      AudioPhaseRecords(s.ids, step.io, call.provider, track, i, TrackTags(call.data, track, call.address, step.id, call.collectionCode, call.env), world);
    }
  }

  /** The tx id a track contributes to the ids: its own when it shows
      success. */
  function TxOf(u: UploadState): seq<string> {
    if u.status == UploadStatus.Success && u.tx.Some? then [u.tx.value] else []
  }

  /** The tx ids of the tracks that show success, in list order. */
  function SuccessTxs(uploads: seq<UploadState>): seq<string> {
    if |uploads| == 0 then [] else TxOf(uploads[0]) + SuccessTxs(uploads[1..])
  }

  lemma SuccessTxsHead(uploads: seq<UploadState>, i: nat, j: nat)
    requires i < j <= |uploads|
    ensures SuccessTxs(uploads[i..j]) == TxOf(uploads[i]) + SuccessTxs(uploads[i + 1..j])
  {
    assert uploads[i..j][1..] == uploads[i + 1..j];
  }

  /** The outcome of the loop from iteration `i`, run from `s` to `r`:
      without an error the ids are the txs of the successful tracks, in list
      order; with one, a single track `j` shows failed, the ids are those of
      the successful tracks before it and the tracks after it were never
      touched. */
  predicate LoopOutcome(s: Run, r: Run, i: nat)
    requires i <= |s.uploads| == |r.uploads|
  {
    && (r.error.None? ==> r.ids == s.ids + SuccessTxs(r.uploads[i..]))
    && (r.error.Some? ==>
          exists j :: i <= j < |s.uploads| && r.uploads[j].status == Failed
            && r.ids == s.ids + SuccessTxs(r.uploads[i..j])
            && forall k :: j < k < |s.uploads| ==> r.uploads[k] == s.uploads[k])
  }

  /** One iteration, `s` to `next`, followed by the rest of the loop, `next`
      to `r`, adds up to a loop outcome from `s`. */
  lemma LoopStep(s: Run, next: Run, r: Run, i: nat)
    requires i < |s.uploads| == |next.uploads| == |r.uploads| && s.error.None?
    requires Recorded(s.ids, next, i) && Touches(Io(s.log, s.uploads), Io(next.log, next.uploads), i)
    requires next.error.Some? ==> r == next
    requires next.error.None? ==> r.uploads[i] == next.uploads[i] && LoopOutcome(next, r, i + 1)
    ensures LoopOutcome(s, r, i)
  {
    if next.error.Some? {
      LoopStepFailed(s, r, i);
    } else if r.error.None? {
      LoopStepDone(s, next, r, i);
    } else {
      LoopStepLater(s, next, r, i);
    }
  }

  lemma LoopStepFailed(s: Run, r: Run, i: nat)
    requires i < |s.uploads| == |r.uploads|
    requires r.error.Some? && r.ids == s.ids && r.uploads[i].status == Failed
    requires forall k :: 0 <= k < |s.uploads| && k != i ==> r.uploads[k] == s.uploads[k]
    ensures LoopOutcome(s, r, i)
  {
    assert r.uploads[i..i] == [];
    assert r.ids == s.ids + SuccessTxs(r.uploads[i..i]);
  }

  lemma LoopStepDone(s: Run, next: Run, r: Run, i: nat)
    requires i < |s.uploads| == |next.uploads| == |r.uploads|
    requires next.ids == s.ids + TxOf(next.uploads[i]) && r.uploads[i] == next.uploads[i]
    requires r.error.None? && r.ids == next.ids + SuccessTxs(r.uploads[i + 1..])
    ensures LoopOutcome(s, r, i)
  {
    SuccessTxsHead(r.uploads, i, |r.uploads|);
    assert r.uploads[i..] == r.uploads[i..|r.uploads|] && r.uploads[i + 1..] == r.uploads[i + 1..|r.uploads|];
  }

  lemma LoopStepLater(s: Run, next: Run, r: Run, i: nat)
    requires i < |s.uploads| == |next.uploads| == |r.uploads|
    requires next.ids == s.ids + TxOf(next.uploads[i]) && r.uploads[i] == next.uploads[i]
    requires forall k :: 0 <= k < |s.uploads| && k != i ==> next.uploads[k] == s.uploads[k]
    requires r.error.Some? && LoopOutcome(next, r, i + 1)
    ensures LoopOutcome(s, r, i)
  {
    var j :| i + 1 <= j < |s.uploads| && r.uploads[j].status == Failed
      && r.ids == next.ids + SuccessTxs(r.uploads[i + 1..j])
      && forall k :: j < k < |s.uploads| ==> r.uploads[k] == next.uploads[k];
    assert r.ids == s.ids + SuccessTxs(r.uploads[i..j]) by {
      SuccessTxsHead(r.uploads, i, j);
      assert r.ids == s.ids + TxOf(r.uploads[i]) + SuccessTxs(r.uploads[i + 1..j]);
    }
    forall k | j < k < |s.uploads|
      ensures r.uploads[k] == s.uploads[k]
    {
      assert r.uploads[k] == next.uploads[k];
    }
    assert i <= j < |s.uploads| && r.uploads[j].status == Failed;
  }

  /* The requests of one iteration */

  /** The end of an iteration whose audio upload returned `id`: when it
      succeeds, exactly one request more when the description overflows (the
      description stored under `id`) and none otherwise; progress is left
      alone and a non-empty `id` becomes the track's `tx`. */
  lemma ConcludeRequests(ids: seq<string>, io: Io, i: nat, description: string, id: string, world: World)
    requires i < |io.uploads|
    ensures var r := Conclude(ids, io, i, description, id, world);
      && (r.error.Some? ==> r.error == Some(world.answer(|io.log|).error) && r.uploads[i].status == Failed)
      && (r.error.None? && !Overflows(description) ==> r.log == io.log)
      && (r.error.None? && Overflows(description) ==> r.log == io.log + [OverflowRequest(description, id)])
      && (r.error.None? ==> r.uploads[i].progress == io.uploads[i].progress)
      && (r.error.None? && id != "" ==> r.uploads[i].status == UploadStatus.Success && r.uploads[i].tx == Some(id))
  {
  }

  /** After the tags are built: the audio upload comes first, carrying the
      tags; a failed audio upload ends the iteration with its error; after a
      successful one, the overflow upload and the bookkeeping are those of
      `Conclude` with the upload's id; turbo leaves the track at 100%. */
  lemma AudioPhaseRequests(ids: seq<string>, io: Io, provider: Provider, track: Track, i: nat, tags: seq<Tag>, world: World)
    requires i < |io.uploads|
    ensures var r := AudioPhase(ids, io, provider, track, i, tags, world);
      var n := |io.log|;
      var reply := world.answer(n);
      && |r.log| > n && r.log[n] == AudioRequest(provider, track, tags)
      && (reply.Failure? ==> r.error == Some(reply.error) && r.log == io.log + [r.log[n]] && r.uploads[i].status == Failed)
      && (reply.Success? ==> exists mid: Io :: mid.log == io.log + [r.log[n]] && i < |mid.uploads| && r == Conclude(ids, mid, i, track.metadata.description, reply.value, world))
      && (r.error.None? && provider == Turbo ==> r.uploads[i].progress == 100.0)
  {
  }

  /** A track holding the release artwork's own file object makes no artwork
      request: its audio upload comes first and names the release artwork's
      id as its thumbnail. */
  lemma ReusedArtwork(s: Run, call: TracksCall, i: nat, world: World)
    requires i < |s.uploads| && i < |call.data.tracklist|
    requires call.data.releaseArtwork.file == call.data.tracklist[i].metadata.artwork.file
    ensures var r := TrackStep(s, call, i, world);
      var track := call.data.tracklist[i];
      && |r.log| > |s.log|
      && r.log[|s.log|] == AudioRequest(call.provider, track, TrackTags(call.data, track, call.address, call.artworkId, call.collectionCode, call.env))
      && Named(r.log[|s.log|].tags, Thumbnail) == [call.artworkId]
  {
    var track := call.data.tracklist[i];
    var tags := TrackTags(call.data, track, call.address, call.artworkId, call.collectionCode, call.env);
    AudioPhaseRequests(s.ids, Io(s.log, StartTrack(s.uploads, i)), call.provider, track, i, tags, world);
    TrackThumbnail(call.data, track, call.address, call.artworkId, call.collectionCode, call.env);
  }

  /** Any other track first uploads its own artwork, tagged with its content
      type only; a failure there ends the iteration with that error, and a
      success is followed by the audio upload naming the new id as its
      thumbnail. */
  lemma OwnArtwork(s: Run, call: TracksCall, i: nat, world: World)
    requires i < |s.uploads| && i < |call.data.tracklist|
    requires call.data.releaseArtwork.file != call.data.tracklist[i].metadata.artwork.file
    ensures var r := TrackStep(s, call, i, world);
      var track := call.data.tracklist[i];
      var n := |s.log|;
      var reply := world.answer(n);
      && |r.log| > n && r.log[n] == ArtworkRequest(call.provider, track.metadata.artwork.file)
      && (reply.Failure? ==> r.error == Some(reply.error) && |r.log| == n + 1 && r.uploads[i].status == Failed)
      && (reply.Success? ==>
            && |r.log| > n + 1
            && r.log[n + 1] == AudioRequest(call.provider, track, TrackTags(call.data, track, call.address, reply.value, call.collectionCode, call.env))
            && Named(r.log[n + 1].tags, Thumbnail) == [reply.value])
  {
    var track := call.data.tracklist[i];
    var step := ArtworkStep(Io(s.log, StartTrack(s.uploads, i)), call, i, world);
    if step.Done? {
      var tags := TrackTags(call.data, track, call.address, step.id, call.collectionCode, call.env);
      AudioPhaseRequests(s.ids, step.io, call.provider, track, i, tags, world);
      TrackThumbnail(call.data, track, call.address, step.id, call.collectionCode, call.env);
    }
  }
}
