/**
 * The upload form's data model (src/modules/upload/schema.ts): the release,
 * its tracks with their per-track upload state, artwork and licence terms,
 * and the field rules the form enforces before the upload pipeline runs.
 */
module Schema {
  import opened Basics
  import opened Text

  /** A browser `File` object. Two tracks share artwork exactly when they hold
      the same object, so `==` on `File` is object identity, as in the source. */
  class File {
    const mimeType: string
    const size: nat

    constructor (mimeType: string, size: nat)
      ensures this.mimeType == mimeType && this.size == size
    {
      this.mimeType := mimeType;
      this.size := size;
    }
  }

  datatype Artwork = Artwork(file: File, url: Option<string>)

  datatype UploadStatus = Idle | InProgress | Success | Failed

  /** `tracklist.<i>.upload`: status, percentage, resulting id, registration flag. */
  datatype UploadState = UploadState(status: UploadStatus, progress: real, tx: Option<string>, registered: bool)

  /** The upload state a track is given when it is added to the form. */
  const InitialUpload := UploadState(Idle, 0.0, None, false)

  /** `genre` and `topics` are plain strings: the genre list is not part of
      this model, and an absent topics string is the empty string. */
  datatype TrackMetadata = TrackMetadata(title: string, description: string, genre: string, topics: string, artwork: Artwork)

  datatype Track = Track(file: File, url: string, metadata: TrackMetadata, upload: UploadState)

  /** The four licence types the pipeline distinguishes; `PublicUse` is the default. */
  datatype LicenseType = PublicUse | Allowed | Attribution | Noncommercial

  /** The option lists for derivation, commercial use, fee recurrence,
      currency and payment mode are not part of this model: they are strings. */
  datatype License = License(
    kind: LicenseType,
    derivation: string,
    commercial: string,
    revShare: nat,
    commercialFee: nat,
    feeRecurrence: string,
    currency: string,
    paymentMode: string)

  datatype Provider = Irys | Turbo

  /** The whole form. Absent optional strings (`topics`, `collectionCode`,
      `releaseDate`) are the empty string, which the pipeline treats alike. */
  datatype Release = Release(
    title: string,
    description: string,
    genre: string,
    topics: string,
    collectionCode: string,
    releaseDate: string,
    releaseArtwork: Artwork,
    tracklist: seq<Track>,
    license: Option<License>,
    tokenQuantity: nat,
    uploadProvider: Provider)

  const TitleMax := 80
  const DescriptionMax := 1000

  /** Zod's `min` and `max` on a string bound its `.length`, in UTF-16 code units. */
  predicate ValidTitle(t: string) {
    1 <= JsLength(t) <= TitleMax
  }

  predicate ValidDescription(d: string) {
    JsLength(d) <= DescriptionMax
  }

  predicate ValidMetadata(m: TrackMetadata) {
    ValidTitle(m.title) && ValidDescription(m.description)
  }

  predicate ValidLicense(l: License) {
    1 <= l.revShare <= 100 && 1 <= l.commercialFee
  }

  /** Everything the form demands of a release before it may be submitted. */
  predicate ValidRelease(r: Release) {
    && ValidTitle(r.title)
    && ValidDescription(r.description)
    && |r.tracklist| >= 1
    && (forall k :: 0 <= k < |r.tracklist| ==> ValidMetadata(r.tracklist[k].metadata))
    && (r.license.Some? ==> ValidLicense(r.license.value))
    && 1 <= r.tokenQuantity <= 100
  }

  /** One complaint of the form validator: the field path and the custom
      message, or `None` where the schema relies on the library's default. */
  datatype Issue = Issue(path: string, message: Option<string>)

  function TitleIssues(path: string, t: string): seq<Issue> {
    if JsLength(t) < 1 then [Issue(path, Some("Title is required"))]
    else if JsLength(t) > TitleMax then [Issue(path, Some("Title must contain less than 80 characters"))]
    else []
  }

  /** The bound is 1000 characters although the message says 300. */
  function DescriptionIssues(path: string, d: string): seq<Issue> {
    if JsLength(d) > DescriptionMax then [Issue(path, Some("Description must contain less than 300 characters"))] else []
  }

  function MetadataIssues(path: string, m: TrackMetadata): seq<Issue> {
    TitleIssues(path + ".title", m.title) + DescriptionIssues(path + ".description", m.description)
  }

  /** Issues of the tracks from index `k` on, in list order. */
  function TrackIssuesFrom(tracks: seq<Track>, k: nat): seq<Issue>
    decreases |tracks| - k
  {
    if k >= |tracks| then []
    else MetadataIssues("tracklist." + NatToString(k) + ".metadata", tracks[k].metadata) + TrackIssuesFrom(tracks, k + 1)
  }

  function LicenseIssues(l: Option<License>): seq<Issue> {
    if l.None? then []
    else
      (if l.value.revShare < 1 then [Issue("license.revShare", None)] else [])
      + (if l.value.revShare > 100 then [Issue("license.revShare", Some("Percentage cannot exceed 100."))] else [])
      + (if l.value.commercialFee < 1 then [Issue("license.commercialFee", None)] else [])
  }

  function QuantityIssues(q: nat): seq<Issue> {
    (if q < 1 then [Issue("tokenQuantity", None)] else [])
    + (if q > 100 then [Issue("tokenQuantity", None)] else [])
  }

  /** All issues the validator reports for a release, in field order. */
  function Issues(r: Release): seq<Issue> {
    TitleIssues("title", r.title)
    + DescriptionIssues("description", r.description)
    + (if |r.tracklist| < 1 then [Issue("tracklist", Some("At least 1 track is required"))] else [])
    + TrackIssuesFrom(r.tracklist, 0)
    + LicenseIssues(r.license)
    + QuantityIssues(r.tokenQuantity)
  }

  lemma {:induction false} TrackIssuesFromEmpty(tracks: seq<Track>, k: nat)
    ensures TrackIssuesFrom(tracks, k) == [] <==> forall j :: k <= j < |tracks| ==> ValidMetadata(tracks[j].metadata)
    decreases |tracks| - k
  {
    if k < |tracks| {
      TrackIssuesFromEmpty(tracks, k + 1);
    }
  }

  /** The validator accepts a release (reports no issue) exactly when the
      release satisfies every field rule. */
  lemma IssuesEmptyIffValid(r: Release)
    ensures Issues(r) == [] <==> ValidRelease(r)
  {
    TrackIssuesFromEmpty(r.tracklist, 0);
  }
}
