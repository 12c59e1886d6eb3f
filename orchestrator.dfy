/**
 * `upload` (src/lib/upload/index.ts): the wallet check, the release artwork,
 * the track loop, the registration of the track assets, and the collection
 * of a multi-track release, each awaited in turn. Every step is a function
 * of the calls made so far; the methods make the same calls through the
 * gateway and are proved to leave exactly the state the functions describe.
 */
module Orchestrator {
  import opened Basics
  import opened Schema
  import opened TagRules
  import opened Runtime
  import opened Tracks
  import opened Collection

  const NoWallet := "No wallet connected."

  /** The node every asset is registered on. */
  const RegisterNode := "arweave"

  /** The arguments of `upload`, with the environment made explicit: `uuid`
      is what `crypto.randomUUID()` returns, `env.isDev` what `isDev()` does.
      A `currentProvider` the caller leaves out is written "". */
  datatype UploadCall = UploadCall(data: Release, address: Option<string>, currentProvider: string, uuid: string, env: Env)

  /** How `upload` ends: the calls made, the track upload states, and the
      error it throws, if any. */
  datatype Ended = Ended(log: seq<Request>, uploads: seq<UploadState>, error: Option<string>)

  /** `!address` is false only for a present, non-empty address. */
  predicate HasWallet(address: Option<string>) {
    address.Some? && address.value != ""
  }

  predicate IsCollection(data: Release) {
    |data.tracklist| > 1
  }

  /** The collection code: none for a single track; the one supplied with
      the release when there is one; a fresh UUID otherwise. */
  function CollectionCodeFor(data: Release, uuid: string): (code: string)
    ensures !IsCollection(data) ==> code == ""
    ensures IsCollection(data) && data.collectionCode != "" ==> code == data.collectionCode
    ensures IsCollection(data) && data.collectionCode == "" ==> code == uuid
  {
    if IsCollection(data) then (if data.collectionCode != "" then data.collectionCode else uuid) else ""
  }

  /** The arguments `upload` hands to `uploadTracks`. The call passes eight
      arguments to a function of seven parameters: `uploadProvider` gets
      `data.uploadProvider`, `collectionCode` gets `currentProvider`, and the
      collection code itself is dropped. */
  function TracksArgs(call: UploadCall, artworkTx: string): TracksCall
    requires HasWallet(call.address)
  {
    TracksCall(call.data, call.address.value, artworkTx, call.data.uploadProvider, Some(call.currentProvider), call.env)
  }

  /** Calls are only ever appended, and the track list keeps its length. */
  predicate Extends(io: Io, r: Ended) {
    |r.uploads| == |io.uploads| && |io.log| <= |r.log| && r.log[..|io.log|] == io.log
  }

  /* ---------------------------------------------------------------------- */
  /* Specification                                                           */
  /* ---------------------------------------------------------------------- */

  /** `upload`, step by step. */
  function UploadRun(call: UploadCall, io: Io, world: World): Ended
    requires |io.uploads| == |call.data.tracklist|
  {
    if !HasWallet(call.address) then Ended(io.log, io.uploads, Some(NoWallet))
    else
      var reply := world.answer(|io.log|);
      var art := Settle(Io(io.log + [ArtworkRequest(call.data.uploadProvider, call.data.releaseArtwork.file)], io.uploads), reply);
      match art
      case Thrown(io1, e) => Ended(io1.log, io1.uploads, Some(e))
      case Done(io1, artworkTx) => AfterArtwork(call, io1, artworkTx, world)
  }

  /** The track loop, then what follows it when no track failed. */
  function AfterArtwork(call: UploadCall, io: Io, artworkTx: string, world: World): Ended
    requires HasWallet(call.address) && |io.uploads| == |call.data.tracklist|
  {
    var t := TracksFrom(Run(io.log, io.uploads, [], None), TracksArgs(call, artworkTx), 0, world);
    if t.error.Some? then Ended(t.log, t.uploads, t.error)
    else AfterTracks(call, Io(t.log, t.uploads), t.ids, world)
  }

  /** The registration of the track ids outside development mode, then the
      collection of a multi-track release. */
  function AfterTracks(call: UploadCall, io: Io, trackTxs: seq<string>, world: World): Ended
    requires HasWallet(call.address)
  {
    var reg := TrackRegistration(call.env, io, trackTxs, call.data.tracklist, world);
    if reg.error.Some? then reg
    else if !IsCollection(call.data) then reg
    else AfterRegistration(call, Io(reg.log, reg.uploads), trackTxs, world)
  }

  /** Outside development mode every track id is registered, in order;
      in development mode nothing is. */
  function TrackRegistration(env: Env, io: Io, trackTxs: seq<string>, tracklist: seq<Track>, world: World): (r: Ended)
    ensures |r.uploads| == |io.uploads|
    ensures r.log == io.log + (if env.isDev then [] else RegisterRequests(trackTxs))
  {
    assert trackTxs[0..] == trackTxs;
    if env.isDev then Ended(io.log, io.uploads, None)
    else RegisterFrom(Ended(io.log, io.uploads, None), trackTxs, 0, tracklist, world)
  }

  /** `uploadCollection`, then, outside development mode, the registration
      of the collection's id. */
  function AfterRegistration(call: UploadCall, io: Io, trackTxs: seq<string>, world: World): Ended
    requires HasWallet(call.address)
  {
    var col := CollectionUpload(io, CollectionArgs(call, trackTxs), world);
    match col
    case Thrown(io1, e) => Ended(io1.log, io1.uploads, Some(e))
    case Done(io1, collectionTx) =>
      if call.env.isDev then Ended(io1.log, io1.uploads, None)
      else
        var reply := world.answer(|io1.log|);
        Ended(io1.log + [Register(collectionTx, RegisterNode)], io1.uploads, if reply.Success? then None else Some(reply.error))
  }

  function CollectionArgs(call: UploadCall, trackTxs: seq<string>): CollectionCall
    requires HasWallet(call.address)
  {
    CollectionCall(call.data, trackTxs, call.address.value, CollectionCodeFor(call.data, call.uuid), call.env)
  }

  /* ---------------------------------------------------------------------- */
  /* Registration of the track assets                                        */
  /* ---------------------------------------------------------------------- */

  /** `findIndex` over the submitted track list: the first track whose
      `upload.tx` is `tx`, or -1. */
  function FindTx(tracklist: seq<Track>, tx: string): (index: int)
    ensures -1 <= index < |tracklist|
    ensures index == -1 <==> forall k :: 0 <= k < |tracklist| ==> tracklist[k].upload.tx != Some(tx)
    ensures index >= 0 ==> tracklist[index].upload.tx == Some(tx)
    ensures forall k :: 0 <= k < index ==> tracklist[k].upload.tx != Some(tx)
    decreases |tracklist|
  {
    if |tracklist| == 0 then -1
    else if tracklist[0].upload.tx == Some(tx) then 0
    else
      var rest := FindTx(tracklist[1..], tx);
      if rest == -1 then -1 else rest + 1
  }

  function RegisterRequests(ids: seq<string>): (r: seq<Request>)
    ensures |r| == |ids|
    ensures forall k :: 0 <= k < |ids| ==> r[k] == Register(ids[k], RegisterNode)
    decreases |ids|
  {
    if |ids| == 0 then [] else [Register(ids[0], RegisterNode)] + RegisterRequests(ids[1..])
  }

  /** A reply confirms track `k` when it is a registration whose contract id
      `findIndex` first finds at index `k` of the submitted list. */
  predicate Confirms(reply: Result<string, string>, tracklist: seq<Track>, k: int) {
    reply.Success? && FindTx(tracklist, reply.value) == k
  }

  /** One `warp.register` call: a confirmed registration flags the track
      `findIndex` picks; a rejection becomes the error unless there is one. */
  function RegisterOne(s: Ended, id: string, tracklist: seq<Track>, world: World): (r: Ended)
    ensures r.log == s.log + [Register(id, RegisterNode)] && |r.uploads| == |s.uploads|
    ensures forall k :: 0 <= k < |s.uploads| ==>
      r.uploads[k] == if Confirms(world.answer(|s.log|), tracklist, k) then s.uploads[k].(registered := true) else s.uploads[k]
    ensures s.error.Some? ==> r.error == s.error
    ensures s.error.None? ==> (r.error.None? <==> world.answer(|s.log|).Success?)
  {
    var reply := world.answer(|s.log|);
    Ended(
      s.log + [Register(id, RegisterNode)],
      if reply.Success? then WithRegistered(s.uploads, FindTx(tracklist, reply.value)) else s.uploads,
      if s.error.None? && reply.Failure? then Some(reply.error) else s.error)
  }

  /** The state after registering `ids[j..]`, in list order. Every id is
      sent, whatever happened to the earlier ones (`Promise.all` starts them
      all), and the first rejection becomes the error. */
  function RegisterFrom(s: Ended, ids: seq<string>, j: nat, tracklist: seq<Track>, world: World): (r: Ended)
    requires j <= |ids|
    ensures |r.uploads| == |s.uploads|
    ensures r.log == s.log + RegisterRequests(ids[j..])
    ensures s.error.Some? ==> r.error == s.error
    decreases |ids| - j
  {
    if j == |ids| then
      assert ids[j..] == [];
      s
    else
      var next := RegisterOne(s, ids[j], tracklist, world);
      var r := RegisterFrom(next, ids, j + 1, tracklist, world);
      RegisterRequestsFrom(s.log, ids, j);
      r
  }

  lemma RegisterRequestsFrom(log: seq<Request>, ids: seq<string>, j: nat)
    requires j < |ids|
    ensures log + RegisterRequests(ids[j..]) == log + [Register(ids[j], RegisterNode)] + RegisterRequests(ids[j + 1..])
  {
    assert ids[j..][1..] == ids[j + 1..];
  }

  /** Registration changes nothing but `registered` flags, and raises only
      flags of tracks whose submitted `upload.tx` is set. */
  lemma {:induction false} RegistrationFlags(s: Ended, ids: seq<string>, j: nat, tracklist: seq<Track>, world: World)
    requires j <= |ids| && |s.uploads| == |tracklist|
    ensures var r := RegisterFrom(s, ids, j, tracklist, world);
      forall k :: 0 <= k < |s.uploads| ==>
        && r.uploads[k] == s.uploads[k].(registered := r.uploads[k].registered)
        && (s.uploads[k].registered ==> r.uploads[k].registered)
        && (r.uploads[k].registered && !s.uploads[k].registered ==> tracklist[k].upload.tx.Some?)
    decreases |ids| - j
  {
    if j < |ids| {
      var next := RegisterOne(s, ids[j], tracklist, world);
      RegistrationFlags(next, ids, j + 1, tracklist, world);
    }
  }

  /** After registration a track is flagged exactly when it was flagged
      before or one of the replies confirmed it. */
  lemma {:induction false} RegisteredExactly(s: Ended, ids: seq<string>, j: nat, tracklist: seq<Track>, world: World)
    requires j <= |ids|
    ensures var r := RegisterFrom(s, ids, j, tracklist, world);
      forall k :: 0 <= k < |s.uploads| ==>
        (r.uploads[k].registered <==>
          s.uploads[k].registered
          || exists n :: |s.log| <= n < |s.log| + (|ids| - j) && Confirms(world.answer(n), tracklist, k))
    decreases |ids| - j
  {
    if j < |ids| {
      var next := RegisterOne(s, ids[j], tracklist, world);
      RegisteredExactly(next, ids, j + 1, tracklist, world);
      var r := RegisterFrom(s, ids, j, tracklist, world);
      assert r == RegisterFrom(next, ids, j + 1, tracklist, world);
      forall k | 0 <= k < |s.uploads|
        ensures r.uploads[k].registered <==>
          s.uploads[k].registered
          || exists n :: |s.log| <= n < |s.log| + (|ids| - j) && Confirms(world.answer(n), tracklist, k)
      {
        if exists n :: |s.log| <= n < |s.log| + (|ids| - j) && Confirms(world.answer(n), tracklist, k) {
          var n :| |s.log| <= n < |s.log| + (|ids| - j) && Confirms(world.answer(n), tracklist, k);
          if n > |s.log| {
            assert |next.log| <= n < |next.log| + (|ids| - (j + 1));
          }
        }
      }
    }
  }

  /** When the submitted track list carries no `upload.tx` (a release being
      uploaded for the first time), `findIndex` always gives -1 and
      registration flags no track. */
  lemma {:induction false} FreshListFlagsNothing(s: Ended, ids: seq<string>, j: nat, tracklist: seq<Track>, world: World)
    requires j <= |ids|
    requires forall k :: 0 <= k < |tracklist| ==> tracklist[k].upload.tx.None?
    ensures RegisterFrom(s, ids, j, tracklist, world).uploads == s.uploads
    decreases |ids| - j
  {
    if j < |ids| {
      var reply := world.answer(|s.log|);
      if reply.Success? {
        assert FindTx(tracklist, reply.value) == -1;
      }
      var next := RegisterOne(s, ids[j], tracklist, world);
      FreshListFlagsNothing(next, ids, j + 1, tracklist, world);
    }
  }

  /** Registration fails exactly when one of its calls is rejected. */
  lemma {:induction false} RegistrationError(s: Ended, ids: seq<string>, j: nat, tracklist: seq<Track>, world: World)
    requires s.error.None? && j <= |ids|
    ensures RegisterFrom(s, ids, j, tracklist, world).error.None? <==>
      forall n :: |s.log| <= n < |s.log| + (|ids| - j) ==> world.answer(n).Success?
    decreases |ids| - j
  {
    if j < |ids| {
      var reply := world.answer(|s.log|);
      var next := RegisterOne(s, ids[j], tracklist, world);
      if reply.Success? {
        RegistrationError(next, ids, j + 1, tracklist, world);
      }
    }
  }

  /** Registration in development mode makes no call; otherwise it fails
      exactly when one of its calls is rejected. */
  lemma {:induction false} TrackRegistrationError(env: Env, io: Io, trackTxs: seq<string>, tracklist: seq<Track>, world: World)
    ensures TrackRegistration(env, io, trackTxs, tracklist, world).error.None? <==>
      env.isDev || forall n :: |io.log| <= n < |io.log| + |trackTxs| ==> world.answer(n).Success?
  {
    if !env.isDev {
      RegistrationError(Ended(io.log, io.uploads, None), trackTxs, 0, tracklist, world);
    }
  }

  /* ---------------------------------------------------------------------- */
  /* The order of the steps                                                  */
  /* ---------------------------------------------------------------------- */

  /** `upload` throws "No wallet connected." without making any call exactly
      when there is no wallet address. */
  lemma WalletGuard(call: UploadCall, io: Io, world: World)
    requires |io.uploads| == |call.data.tracklist|
    ensures var r := UploadRun(call, io, world);
      !HasWallet(call.address) <==> (r.log == io.log && r.error == Some(NoWallet))
  {
    if HasWallet(call.address) {
      ArtworkFirst(call, io, world);
    }
  }

  /** With a wallet, the release artwork is the first call, through the
      release's provider; when it is rejected nothing else is called and the
      rejection is the error. */
  lemma ArtworkFirst(call: UploadCall, io: Io, world: World)
    requires HasWallet(call.address) && |io.uploads| == |call.data.tracklist|
    ensures var r := UploadRun(call, io, world);
      var artwork := ArtworkRequest(call.data.uploadProvider, call.data.releaseArtwork.file);
      && Extends(io, r)
      && |io.log| < |r.log| && r.log[|io.log|] == artwork
      && (world.answer(|io.log|).Failure? ==>
            r == Ended(io.log + [artwork], io.uploads, Some(world.answer(|io.log|).error)))
  {
    var artwork := ArtworkRequest(call.data.uploadProvider, call.data.releaseArtwork.file);
    var io1 := Io(io.log + [artwork], io.uploads);
    var reply := world.answer(|io.log|);
    if reply.Success? {
      TracksFirst(call, io1, reply.value, world);
      var r := AfterArtwork(call, io1, reply.value, world);
      PrefixTrans(io.log, io1.log, r.log);
      assert r.log[|io.log|] == r.log[..|io1.log|][|io.log|];
    }
  }

  /** After the artwork come the calls of `uploadTracks`; a failed track
      ends `upload` with its error and its track states, and nothing else is
      called. */
  lemma TracksFirst(call: UploadCall, io: Io, artworkTx: string, world: World)
    requires HasWallet(call.address) && |io.uploads| == |call.data.tracklist|
    ensures var t := TracksFrom(Run(io.log, io.uploads, [], None), TracksArgs(call, artworkTx), 0, world);
      var r := AfterArtwork(call, io, artworkTx, world);
      && Extends(io, r)
      && |t.log| <= |r.log| && r.log[..|t.log|] == t.log
      && (t.error.Some? ==> r == Ended(t.log, t.uploads, t.error))
  {
    var t := TracksFrom(Run(io.log, io.uploads, [], None), TracksArgs(call, artworkTx), 0, world);
    var r := AfterArtwork(call, io, artworkTx, world);
    if t.error.None? {
      var reg := TrackRegistration(call.env, Io(t.log, t.uploads), t.ids, call.data.tracklist, world);
      RegistrationNext(call, Io(t.log, t.uploads), t.ids, world);
      PrefixTrans(t.log, reg.log, r.log);
    }
    PrefixTrans(io.log, t.log, r.log);
  }

  /** After the tracks, registration (whose calls `TrackRegistration`
      states). A rejected registration ends `upload`, and so does the end of
      the registration of a single-track release; a multi-track release
      whose tracks were all registered stores its collection next. */
  lemma RegistrationNext(call: UploadCall, io: Io, trackTxs: seq<string>, world: World)
    requires HasWallet(call.address)
    ensures var reg := TrackRegistration(call.env, io, trackTxs, call.data.tracklist, world);
      var r := AfterTracks(call, io, trackTxs, world);
      && |r.uploads| == |io.uploads|
      && |reg.log| <= |r.log| && r.log[..|reg.log|] == reg.log
      && (reg.error.Some? || !IsCollection(call.data) ==> r == reg)
      && (reg.error.None? && IsCollection(call.data) ==>
            |reg.log| < |r.log| && r.log[|reg.log|] == CollectionRequest(CollectionArgs(call, trackTxs)))
  {
    var reg := TrackRegistration(call.env, io, trackTxs, call.data.tracklist, world);
    if reg.error.None? && IsCollection(call.data) {
      CollectionNext(call, Io(reg.log, reg.uploads), trackTxs, world);
    }
  }

  lemma PrefixTrans(a: seq<Request>, b: seq<Request>, c: seq<Request>)
    requires |a| <= |b| && b[..|a|] == a
    requires |b| <= |c| && c[..|b|] == b
    ensures c[..|a|] == a
  {
    assert c[..|a|] == c[..|b|][..|a|];
  }

  /** The collection is stored right after registration; after a stored
      collection, outside development mode, its id is registered as the
      last call, and a rejection of that call is the error. */
  lemma CollectionNext(call: UploadCall, io: Io, trackTxs: seq<string>, world: World)
    requires HasWallet(call.address)
    ensures var col := CollectionUpload(io, CollectionArgs(call, trackTxs), world);
      var r := AfterRegistration(call, io, trackTxs, world);
      && r.uploads == io.uploads
      && |io.log| < |col.io.log| && col.io.log[..|io.log|] == io.log
      && col.io.log[|io.log|] == CollectionRequest(CollectionArgs(call, trackTxs))
      && (col.Thrown? ==> r == Ended(col.io.log, io.uploads, Some(col.error)))
      && (col.Done? && call.env.isDev ==> r == Ended(col.io.log, io.uploads, None))
      && (col.Done? && !call.env.isDev ==>
            && r.log == col.io.log + [Register(col.id, RegisterNode)]
            && (r.error.None? <==> world.answer(|col.io.log|).Success?))
  {
  }

  /** The collection record read back from its request lists the track ids
      in the order `uploadTracks` returned them, and its tags carry the
      wallet address and the collection code chosen at the start. */
  lemma CollectionContents(call: UploadCall, trackTxs: seq<string>)
    requires HasWallet(call.address)
    ensures var request := CollectionRequest(CollectionArgs(call, trackTxs));
      && request.Store? && request.payload.Text?
      && ReadCollection(request.payload.text) == Some(trackTxs)
      && Named(request.tags, CollectionCode) == [CollectionCodeFor(call.data, call.uuid)]
      && Named(request.tags, Creator) == [call.address.value]
  {
    var args := CollectionArgs(call, trackTxs);
    CollectionRoundTrip(trackTxs);
    CollectionCreator(args.data, args.address, args.collectionCode, AlbumState(args.data, args.address), args.env);
  }

  /** The tracks of a release are tagged with `currentProvider` as their
      Collection-Code, whatever collection code `upload` chose. */
  lemma TrackCodeIsProvider(call: UploadCall, artworkTx: string, track: Track, thumbnail: string)
    requires HasWallet(call.address)
    ensures var a := TracksArgs(call, artworkTx);
      Named(TrackTags(a.data, track, a.address, thumbnail, a.collectionCode, a.env), CollectionCode) ==
        if call.currentProvider != "" then [call.currentProvider] else []
  {
    var a := TracksArgs(call, artworkTx);
    TrackCollectionCode(a.data, track, a.address, thumbnail, a.collectionCode, a.env);
    CodeValue(a.collectionCode);
  }

  /* ---------------------------------------------------------------------- */
  /* The calls                                                               */
  /* ---------------------------------------------------------------------- */

  /** `upload`: the steps, each awaited before the next, and the first error
      thrown, if any. */
  method Upload(call: UploadCall, form: UploadForm, g: Gateway) returns (error: Option<string>)
    requires |form.uploads| == |call.data.tracklist|
    modifies form, g
    ensures Ended(g.log, form.uploads, error) == UploadRun(call, Io(old(g.log), old(form.uploads)), g.world)
  {
    if call.address.None? || call.address.value == "" {
      return Some(NoWallet);
    }
    var isCollection := |call.data.tracklist| > 1;
    var collectionCode := "";
    if isCollection {
      if call.data.collectionCode != "" {
        collectionCode := call.data.collectionCode;
      } else {
        collectionCode := call.uuid;
      }
    }
    var artworkTx := UploadArtwork(g, call.data.releaseArtwork, call.data.uploadProvider);
    if artworkTx.Failure? {
      return Some(artworkTx.error);
    }
    error := UploadAfterArtwork(call, form, g, artworkTx.value, isCollection, collectionCode);
  }

  /** `uploadArtwork`: one upload of the artwork file, tagged with its
      content type, through the release's provider. */
  method UploadArtwork(g: Gateway, artwork: Artwork, uploadProvider: Provider) returns (artworkTx: Result<string, string>)
    modifies g
    ensures g.log == old(g.log) + [ArtworkRequest(uploadProvider, artwork.file)]
    ensures artworkTx == g.world.answer(|old(g.log)|)
  {
    var tags := [Tag(ContentType, artwork.file.mimeType)];
    if uploadProvider == Irys {
      artworkTx := g.Call(Store(IrysFile, FileContent(artwork.file), tags));
    } else {
      artworkTx := g.Call(Store(TurboSigned, FileContent(artwork.file), tags));
    }
  }

  /** The tracks, their registration and the collection, once the artwork
      is stored. */
  method UploadAfterArtwork(call: UploadCall, form: UploadForm, g: Gateway, artworkTx: string, isCollection: bool, collectionCode: string)
    returns (error: Option<string>)
    requires HasWallet(call.address) && |form.uploads| == |call.data.tracklist|
    requires isCollection == IsCollection(call.data) && collectionCode == CollectionCodeFor(call.data, call.uuid)
    modifies form, g
    ensures Ended(g.log, form.uploads, error) == AfterArtwork(call, Io(old(g.log), old(form.uploads)), artworkTx, g.world)
  {
    var address := call.address.value;
    var trackTxs, tracksError := UploadTracks(TracksCall(call.data, address, artworkTx, call.data.uploadProvider, Some(call.currentProvider), call.env), form, g);
    if tracksError.Some? {
      return tracksError;
    }
    error := UploadAfterTracks(call, form, g, trackTxs, isCollection, collectionCode);
  }

  /** Registration of the track ids, then the collection. */
  method UploadAfterTracks(call: UploadCall, form: UploadForm, g: Gateway, trackTxs: seq<string>, isCollection: bool, collectionCode: string)
    returns (error: Option<string>)
    requires HasWallet(call.address)
    requires isCollection == IsCollection(call.data) && collectionCode == CollectionCodeFor(call.data, call.uuid)
    modifies form, g
    ensures Ended(g.log, form.uploads, error) == AfterTracks(call, Io(old(g.log), old(form.uploads)), trackTxs, g.world)
  {
    error := None;
    if !call.env.isDev {
      error := RegisterTracks(form, g, trackTxs, call.data.tracklist);
      if error.Some? {
        return;
      }
    }
    if isCollection {
      error := UploadAfterRegistration(call, form, g, trackTxs, collectionCode);
    }
  }

  /** The registration of the track ids: every id is sent, in list order; a
      confirmed registration flags the track `findIndex` picks in the
      submitted list, and the first rejection is the error. */
  method RegisterTracks(form: UploadForm, g: Gateway, trackTxs: seq<string>, tracklist: seq<Track>) returns (error: Option<string>)
    modifies form, g
    ensures Ended(g.log, form.uploads, error) == RegisterFrom(Ended(old(g.log), old(form.uploads), None), trackTxs, 0, tracklist, g.world)
  {
    ghost var goal := RegisterFrom(Ended(g.log, form.uploads, None), trackTxs, 0, tracklist, g.world);
    error := None;
    var j := 0;
    while j < |trackTxs|
      invariant j <= |trackTxs|
      invariant RegisterFrom(Ended(g.log, form.uploads, error), trackTxs, j, tracklist, g.world) == goal
    {
      var reply := g.Call(Register(trackTxs[j], RegisterNode));
      if reply.Success? {
        var index := FindTx(tracklist, reply.value);
        form.SetRegistered(index);
      } else if error.None? {
        error := Some(reply.error);
      }
      j := j + 1;
    }
  }

  /** `uploadCollection`, then, outside development mode, the registration
      of its id. */
  method UploadAfterRegistration(call: UploadCall, form: UploadForm, g: Gateway, trackTxs: seq<string>, collectionCode: string)
    returns (error: Option<string>)
    requires HasWallet(call.address) && collectionCode == CollectionCodeFor(call.data, call.uuid)
    modifies g
    ensures Ended(g.log, form.uploads, error) == AfterRegistration(call, Io(old(g.log), form.uploads), trackTxs, g.world)
  {
    var collectionTx := UploadCollection(CollectionCall(call.data, trackTxs, call.address.value, collectionCode, call.env), g);
    if collectionTx.Failure? {
      return Some(collectionTx.error);
    }
    if !call.env.isDev {
      var reply := g.Call(Register(collectionTx.value, RegisterNode));
      if reply.Failure? {
        return Some(reply.error);
      }
    }
    return None;
  }
}
