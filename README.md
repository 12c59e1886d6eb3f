# Permaweb music uploader: the upload pipeline in Dafny

This project models the upload pipeline of the permaweb music uploader.
The pipeline takes a release from the upload form and works in order:

- it checks for a wallet;
- it chooses a collection code;
- it stores the release artwork;
- it uploads every track with its ANS-110, SmartWeave atomic-asset and UDL licence tags, updating each track's upload state in the form as it goes;
- it registers the track ids with the warp contract registry;
- for a release of more than one track, it stores a collection record listing the track ids and registers that too.

The model also covers the form schema and its validity rules, and the small helpers the pages use: byte-buffer equality, label formatting, address abbreviation, duration formatting and total file size.

Each file models one part:

- `basics.dfy`: `Option` and `Result`.
- `text.dfy`: the string operations the code relies on. These are `split`, `join`, `replace` of the first occurrence, `.length` in UTF-16 code units, and decimal printing and parsing of whole numbers.
- `json.dfy`: `JSON.stringify` of strings and string arrays, with decoders and round-trip lemmas.
- `schema.dfy`: `src/modules/upload/schema.ts`. It holds the datatypes of the form, the validity predicate, and the validator's list of issues.
- `utils.dfy`: `src/utils/index.ts`.
- `tagrules.dfy`: the tag rules shared by tracks and collections. These are the description rule, topics, the atomic-asset block, the `Init-State` JSON and the licence table.
- `runtime.dfy`: the outside world and the form.
  - `Gateway` is every remote call: irys, turbo, wallet signing and `warp.register`. Each call is appended to `log` and answered by a scripted `World`.
  - `UploadForm` holds the live `tracklist.<i>.upload` fields that `form.setValue` writes.
- `tracks.dfy`: `src/lib/upload/tracks.ts`. It covers the tag list of a track, the chunk arithmetic, the two provider paths and the track loop.
- `collection.dfy`: `src/lib/upload/collection.ts`.
- `orchestrator.dfy`: `upload` and `uploadArtwork` in `src/lib/upload/index.ts`.

Each step of the pipeline is described twice:

- by a function from the calls made so far (and the replies the world gives) to the calls made afterwards and the state left behind;
- by a method that makes the same calls through a `Gateway` and writes the same fields of an `UploadForm`.

Each method is proved to end in exactly the state its function describes. The lemmas then state what the source promises about the functions.

Behaviour of the code as written, which the model keeps:

- `upload` passes eight arguments to the seven-parameter `uploadTracks` (src/lib/upload/index.ts:53-62 against src/lib/upload/tracks.ts:10-18). `uploadTracks` therefore receives `data.uploadProvider` as its provider and `currentProvider` as its `collectionCode`. The collection code chosen by `upload` never reaches the tracks. `Orchestrator.TracksArgs` makes the mapping explicit, and `Orchestrator.TrackCodeIsProvider` states its effect on every track's `Collection-Code` tag.
- A collection description of more than 300 UTF-16 code units is stored as a separate item only on irys. On turbo the collection gets neither a `Description` tag nor that item (`Collection.TurboDropsLongDescription`).
- The genre "none" is left out of a collection's tags but kept in every track's tags.
- Registration looks up the returned contract id in `data.tracklist`, the list submitted to `upload`, not in the live form. A release uploaded for the first time has no `upload.tx` in that list. So registration flags no track (`Orchestrator.FreshListFlagsNothing`), and `setValue` is given index -1.
- `totalChunks` rounds down. A 60 MB file counts two chunks, and progress reaches 100% after the second.
- A track succeeds and its id is collected only when the provider returned a non-empty id. An empty id leaves the track "in-progress" without an error.
- The description bound in the schema is 1000, although its message says 300.
- Every length bound is on JavaScript's `.length`, which counts UTF-16 code units. A character beyond U+FFFF counts twice, so 151 emoji already exceed the 300 limit of the `Description` tag (`TagRules.WideDescriptionOverflows`).
- A topic "genre" is sent under the same tag name, `Topic:genre`, as the genre (`Tracks.GenreTopicTwice`).
- `topic.replace(" ", "")` removes only the first space of each topic. Empty topics still produce tags.
- The turbo paths build `new DataItem(signed)` right after the wallet signs (src/lib/upload/tracks.ts:65 and :335, src/lib/upload/collection.ts:144, src/utils/index.ts:207), each under `//@ts-ignore`, but none of those modules imports `DataItem`; only src/lib/upload/index.ts:13 imports it, and it does not use it. Unless a global `DataItem` exists, every turbo upload rejects with a `ReferenceError` after signing. The model lets a signed turbo call succeed (`Tracks.TurboStep`, the turbo half of `Collection.CollectionRecord`), so those successes assume a global `DataItem`; the failure is the world's `Failure` reply.

## Model

| member | source | states |
|---|---|---|
| Text.JoinSplit | src/lib/upload/tracks.ts:112 | splitting a string on a separator and joining the parts with it gives the string back |
| Text.SplitParts | src/lib/upload/tracks.ts:112 | `split` gives one part more than there are separators, and no part contains the separator |
| Text.SplitJoin | src/utils/index.ts:27-30 | joining separator-free parts and splitting again gives back the parts |
| Text.RemoveFirstSplice | src/lib/upload/tracks.ts:116-117 | `replace(" ", "")` removes exactly the first space: the text before it and after it, one space fewer, unchanged when there is none |
| Text.JsLengthAppend | src/lib/upload/tracks.ts:96 | `.length` of a concatenation is the sum of the lengths |
| Text.JsLengthCharacters | src/lib/upload/tracks.ts:96 | `.length` equals the number of characters exactly when every character lies in the Basic Multilingual Plane |
| Text.JsLengthRepeat | src/lib/upload/tracks.ts:96 | a character repeated n times has n times its code units |
| Text.ParseNatToString | src/lib/upload/collection.ts:56-63 | the decimal text of a whole number reads back as that number |
| Json.DecodeQuote | src/lib/upload/collection.ts:56-63 | the JSON string literal of any text decodes back to that text, whatever follows it |
| Json.DecodeStringArray | src/lib/upload/collection.ts:106-109 | the JSON array of any list of strings decodes back to that list |
| Schema.TrackIssuesFromEmpty | src/modules/upload/schema.ts:34-48 | the tracks raise no issue exactly when every track's metadata is valid (title 1..80 and description at most 1000 UTF-16 code units) |
| Schema.IssuesEmptyIffValid | src/modules/upload/schema.ts:67-87 | the validator reports no issue exactly when the release meets every field rule (title 1..80 and description at most 1000 UTF-16 code units, at least one track, licence and token bounds) |
| Utils.ArrayBuffersEqual | src/utils/index.ts:6-24 | true exactly when both buffers have the same length and the same byte at every index |
| Utils.FormatSchemaValueLength | src/utils/index.ts:26-32 | the label is exactly as long as the value |
| Utils.FormatSchemaValueWords | src/utils/index.ts:26-32 | the words of the label are the hyphen-separated parts, each capitalised, one word per part |
| Utils.AbbreviateAddress | src/utils/index.ts:51-61 | the first `startChars` characters, `noOfEllipsis` dots and the last `endChars` characters, with defaults `startChars` 5, `endChars` 4 and `noOfEllipsis` 2, clamped to the address as `substring` does (positions counted in characters); an absent address gives "undefined", the dots and "undefined" |
| Utils.DurationParts | src/utils/index.ts:75-77 | minutes and seconds are below 60, and hours, minutes and seconds add back up to the duration |
| Utils.FractionalDurationParts | src/utils/index.ts:75-77 | for a fractional duration d >= 0, the floored hours, minutes and seconds are those of the whole seconds of d, so the text is that of `FormatDuration` of the floor |
| Utils.PaddedSeconds | src/utils/index.ts:82-84 | the unsuffixed seconds field is always two digits and reads back as the seconds |
| Utils.ClockRoundTrip | src/utils/index.ts:86-98 | the clock text reads back as the duration, and its last (seconds) field has two digits |
| Utils.SuffixWords | src/utils/index.ts:79-95 | the suffixed text is number/unit pairs (hours only when there are any), each unit singular exactly when its number is 1 |
| Utils.CalculateTotalFileSize | src/utils/index.ts:113-138 | the total is the release artwork size plus every track's audio size and artwork size |
| Utils.SharedArtworkCountedPerUse | src/utils/index.ts:113-138 | artwork shared by all tracks is counted once per track plus once for the release |
| TagRules.DescriptionPlacement | src/lib/upload/tracks.ts:96-109 | a description is carried whole when its `.length` is at most 300 UTF-16 code units, is dropped when longer, and an empty one becomes "<title> by <address>" |
| TagRules.WideDescriptionOverflows | src/lib/upload/tracks.ts:96-97 | 151 characters beyond U+FFFF overflow the 300 limit and get no `Description` tag |
| TagRules.AppendDescriptionTags | src/lib/upload/tracks.ts:96-109 | the appended block is the description block |
| TagRules.TopicTagOfPart | src/lib/upload/tracks.ts:115-118 | a topic tag holds the part with its first space removed and no comma |
| TagRules.TopicTagsShape | src/lib/upload/tracks.ts:111-120 | one `Topic:` tag per comma-separated part, empty parts included, each value the part minus its first space |
| TagRules.TopicTagsAreTopics | src/lib/upload/collection.ts:96-104 | every topic tag is topic-named |
| TagRules.AppendTopicTags | src/lib/upload/tracks.ts:111-120 | the loop over the parts appends exactly the topic tags, in order |
| TagRules.InitStateRoundTrip | src/lib/upload/tracks.ts:124-131 | the `Init-State` JSON reads back as its ticker, name, holder and token balance |
| TagRules.GenreWireText | src/lib/upload/tracks.ts:93-117 | a tag is sent under the name `Topic:genre` exactly when it is the genre tag or a `Topic:` tag whose value is "genre" |
| TagRules.GenreSentInTopicPart | src/lib/upload/tracks.ts:93-117 | only topic-named tags are sent under the name `Topic:genre` |
| TagRules.TopicTagsGenreSent | src/lib/upload/tracks.ts:111-120 | of topic tags, those sent as `Topic:genre` are the ones whose value is "genre", and there are none exactly when no topic is "genre" |
| TagRules.LicenseTagsNames | src/lib/upload/tracks.ts:167-168 | the licence block starts with `License` (the UDL id) and uses licence names only |
| TagRules.LicenseUdl | src/lib/upload/tracks.ts:167-168 | a licence block holds exactly one `License` tag |
| TagRules.LicenseCommercial | src/lib/upload/tracks.ts:170-199 | `Commercial` is "allowed" with a fee, "allowed-<commercial>" otherwise for an allowed licence, "allowed-with-credit" for attribution, absent otherwise |
| TagRules.LicenseFeeAndCurrency | src/lib/upload/tracks.ts:171-184 | `License-Fee` is "<recurrence>-<fee>", and `Currency` and `Payment-Mode` carry the licence's currency and payment mode, only for an allowed licence with a fee |
| TagRules.LicenseDerivation | src/lib/upload/tracks.ts:153-165 | a `Derivation` tag for every licence type but public use: the revenue-share form, "allowed-<derivation>", or "allowed-with-credit" |
| TagRules.RevenueShareReadsBack | src/lib/upload/tracks.ts:154-158 | the revenue share written in the `Derivation` tag reads back as the licence's percentage |
| Runtime.Gateway.Call | src/lib/upload/index.ts:77 | a remote call is appended to the log and answered by the world's reply for its position |
| Runtime.UploadForm.SetStatus | src/lib/upload/tracks.ts:28 | `setValue` of a status changes that field of that track only |
| Runtime.UploadForm.SetProgress | src/lib/upload/tracks.ts:29 | `setValue` of a progress changes that field of that track only |
| Runtime.UploadForm.SetTx | src/lib/upload/tracks.ts:235 | `setValue` of a tx changes that field of that track only |
| Runtime.UploadForm.SetRegistered | src/lib/upload/index.ts:82 | `setValue` of the registered flag raises it on the indexed track; index -1 changes no track |
| Runtime.OverflowStep | src/lib/upload/tracks.ts:219-231 | a description of more than 300 UTF-16 code units adds exactly one request, pointing at the upload's id; the upload keeps its id unless that request fails |
| Runtime.UploadOverflow | src/lib/upload/tracks.ts:219-231 | makes the calls `OverflowStep` describes |
| Tracks.BuildTrackTags | src/lib/upload/tracks.ts:37-209 | the appends build exactly the track's tag list |
| Tracks.DevModeDropsAssetTags | src/lib/upload/tracks.ts:122-167 | development mode gives the same tags minus the SmartWeave and licence blocks at the end |
| Tracks.TrackThumbnail | src/lib/upload/tracks.ts:92 | exactly one `Thumbnail`: the artwork id |
| Tracks.TrackTitle | src/lib/upload/tracks.ts:91 | exactly one `Title`: the track's title |
| Tracks.TrackContentType | src/lib/upload/tracks.ts:90 | exactly one `Content-Type`: the audio file's type |
| Tracks.TrackGenre | src/lib/upload/tracks.ts:93 | exactly one genre tag, the genre, even "none" |
| Tracks.TrackGenreWire | src/lib/upload/tracks.ts:93-120 | the tags sent as `Topic:genre` are the genre and then every topic "genre"; the genre is alone exactly when no topic is "genre" |
| Tracks.GenreTopicTwice | src/lib/upload/tracks.ts:93-117 | with the topics "genre" a track sends two `Topic:genre` tags, the genre and "genre" |
| Tracks.TrackDescription | src/lib/upload/tracks.ts:96-109 | a track's `Description` values: its description when non-empty and at most 300 UTF-16 code units, none when longer, "<title> by <address>" when empty |
| Tracks.TrackType | src/lib/upload/tracks.ts:94 | exactly one `Type`: "audio" |
| Tracks.TrackCollectionCode | src/lib/upload/tracks.ts:82-87 | a track's tags hold one `Collection-Code`, the code, when the code is a non-empty string, and none otherwise |
| Tracks.TrackCreator | src/lib/upload/tracks.ts:133-136 | outside development mode, exactly one `Creator`: the wallet address |
| Tracks.TrackInitState | src/lib/upload/tracks.ts:124-137 | outside development mode, exactly one `Init-State`: the ATOMIC-SONG state of the title held by the address |
| Tracks.TrackLicense | src/lib/upload/tracks.ts:167-168 | one `License` tag when a licence is chosen outside development mode, none otherwise |
| Tracks.DevTrackNoAsset | src/lib/upload/tracks.ts:122-167 | in development mode no SmartWeave or licence tag at all |
| Tracks.TrackTopics | src/lib/upload/tracks.ts:93-120 | the topic-named tags are `Topic:genre` followed by the topic tags in order |
| Tracks.TotalChunks | src/lib/upload/tracks.ts:270-274 | one chunk below the chunk size; otherwise the number of whole chunks, rounded down, so a partial last chunk is not counted |
| Tracks.ChunkProgressBounds | src/lib/upload/tracks.ts:283-290 | progress stays within 0..100, is 100 exactly from the last counted chunk on, and never decreases |
| Tracks.ChunkEventsEffect | src/lib/upload/tracks.ts:276-296 | chunk events change only status and progress; a chunk error leaves the track failed; progress ends at the last chunk's percentage; they never make a track succeed |
| Tracks.OnChunkUpload | src/lib/upload/tracks.ts:276-291 | the handler leaves the track as one uploaded-chunk event does |
| Tracks.OnChunkError | src/lib/upload/tracks.ts:293-296 | the handler marks the track failed and changes nothing else |
| Tracks.ArtworkStep | src/lib/upload/tracks.ts:33-69 | the thumbnail step changes only its own track, leaves its status alone and only appends calls |
| Tracks.IrysStep | src/lib/upload/tracks.ts:249-307 | one chunked upload with the tags; only this track changes; chunk events never make it succeed |
| Tracks.TurboStep | src/lib/upload/tracks.ts:309-343 | one signed upload with the tags; the track is in progress, at 100% once the upload returns |
| Tracks.Abort | src/lib/upload/tracks.ts:239-243 | a failure marks the track failed and re-throws its error |
| Tracks.TrackStep | src/lib/upload/tracks.ts:24-243 | an iteration changes only its own track and only appends calls |
| Tracks.AudioPhase | src/lib/upload/tracks.ts:211-238 | the audio upload and its bookkeeping change only their own track |
| Tracks.Conclude | src/lib/upload/tracks.ts:219-238 | the overflow upload and the bookkeeping change only their own track |
| Tracks.TracksFrom | src/lib/upload/tracks.ts:23-246 | the loop only appends calls; without an error the ids are the txs of the successful tracks in list order; with one, some track failed, the ids are those of the successful tracks before it and later tracks are untouched |
| Tracks.UploadTracks | src/lib/upload/tracks.ts:10-247 | the loop's calls, track states, ids and error are those `TracksFrom` describes |
| Tracks.UploadTrack | src/lib/upload/tracks.ts:24-243 | one iteration, as `TrackStep` describes |
| Tracks.ResolveArtwork | src/lib/upload/tracks.ts:31-69 | the thumbnail, as `ArtworkStep` describes |
| Tracks.UploadAudio | src/lib/upload/tracks.ts:211-238 | the audio phase, as `AudioPhase` describes |
| Tracks.ConcludeTrack | src/lib/upload/tracks.ts:219-238 | the end of an iteration, as `Conclude` describes |
| Tracks.UploadTrackWithIrys | src/lib/upload/tracks.ts:249-307 | the chunked upload, as `IrysStep` describes |
| Tracks.UploadTrackWithTurbo | src/lib/upload/tracks.ts:309-343 | the signed upload, as `TurboStep` describes |
| Tracks.ConcludeRequests | src/lib/upload/tracks.ts:219-238 | after the audio upload: one more request exactly when the description is over 300 UTF-16 code units, and its rejection fails the track with that error; otherwise progress is kept, and a non-empty id becomes the tx and the track succeeds |
| Tracks.AudioPhaseRequests | src/lib/upload/tracks.ts:211-238 | the audio upload comes first and carries the tags; its failure ends the iteration with its error |
| Tracks.ReusedArtwork | src/lib/upload/tracks.ts:33-40 | a track holding the release artwork's own file makes no artwork call and names the release artwork id as its thumbnail |
| Tracks.OwnArtwork | src/lib/upload/tracks.ts:41-69 | any other track first uploads its own artwork; a failure there ends the iteration; otherwise the audio upload names the new id as its thumbnail |
| Collection.BuildCollectionTags | src/lib/upload/collection.ts:17-104 | the pushes build exactly the collection's tag list |
| Collection.CollectionCreator | src/lib/upload/collection.ts:17-42 | exactly one `Creator` (the address), `Collection-Code` (the code), `Title`, `Data-Protocol` "Collection" and `Type` "Document" |
| Collection.CollectionInitState | src/lib/upload/collection.ts:56-79 | outside development mode the one `Init-State` is the album state; in development mode no SmartWeave tag but `Creator` |
| Collection.CollectionDescription | src/lib/upload/collection.ts:44-54 | the `Description` values: the text when at most 300 UTF-16 code units, none when longer, "<title> by <address>" when empty |
| Collection.CollectionTopics | src/lib/upload/collection.ts:89-104 | the topic-named tags are `Topic:genre` unless the genre is "none", followed by the topic tags |
| Collection.CollectionRoundTrip | src/lib/upload/collection.ts:106-109 | the collection record reads back as the list of track ids |
| Collection.StoreRecord | src/lib/upload/collection.ts:111-146 | the record request is the first call of the step, and calls are only appended |
| Collection.CollectionCalls | src/lib/upload/collection.ts:111-148 | the record call, then an overflow call only on irys after a stored record with a description over 300 UTF-16 code units; the result is the record's id unless a call was rejected |
| Collection.CollectionRecord | src/lib/upload/collection.ts:106-120 | the stored record lists the track ids in order, whatever the provider |
| Collection.TurboDropsLongDescription | src/lib/upload/collection.ts:136-146 | on turbo a description over 300 UTF-16 code units is stored nowhere: one call, no `Description` tag |
| Collection.BuildCollectionRequest | src/lib/upload/collection.ts:17-109 | builds the collection's request |
| Collection.StoreCollection | src/lib/upload/collection.ts:111-148 | makes the calls `StoreRecord` describes |
| Collection.UploadCollection | src/lib/upload/collection.ts:7-152 | makes the calls `CollectionUpload` describes and resolves to its id or error |
| Orchestrator.CollectionCodeFor | src/lib/upload/index.ts:30-40 | no code for a single track; for a collection the supplied code when non-empty, else the fresh UUID |
| Orchestrator.FindTx | src/lib/upload/index.ts:78-80 | the first track whose `upload.tx` is the id, or -1 exactly when there is none |
| Orchestrator.RegisterRequests | src/lib/upload/index.ts:75-77 | one registration on node "arweave" per id, in order |
| Orchestrator.RegisterOne | src/lib/upload/index.ts:77-84 | one registration call; a confirmed reply flags exactly the track `findIndex` finds for its id; a rejection is the error unless an earlier one is kept |
| Orchestrator.RegisterFrom | src/lib/upload/index.ts:75-89 | every id is registered, in order, whatever happened to the others; an earlier error is kept |
| Orchestrator.TrackRegistration | src/lib/upload/index.ts:72-90 | outside development mode every track id is registered in order; in development mode no call |
| Orchestrator.RegistrationFlags | src/lib/upload/index.ts:78-82 | registration changes only `registered` flags, never lowers one, and raises only flags of tracks whose submitted `upload.tx` is set |
| Orchestrator.RegisteredExactly | src/lib/upload/index.ts:75-89 | after registration a track is flagged exactly when it was flagged before or some reply confirmed its submitted `upload.tx` |
| Orchestrator.FreshListFlagsNothing | src/lib/upload/index.ts:78-82 | with no `upload.tx` in the submitted list, registration flags no track |
| Orchestrator.RegistrationError | src/lib/upload/index.ts:75-89 | registration fails exactly when one of its calls is rejected |
| Orchestrator.TrackRegistrationError | src/lib/upload/index.ts:72-90 | the registration step fails exactly when it is outside development mode and a call is rejected |
| Orchestrator.WalletGuard | src/lib/upload/index.ts:26-28 | "No wallet connected." without any call exactly when the address is missing or empty |
| Orchestrator.ArtworkFirst | src/lib/upload/index.ts:46-50 | with a wallet the release artwork is the first call; its rejection ends `upload` with nothing else called |
| Orchestrator.TracksFirst | src/lib/upload/index.ts:53-62 | the track calls come next; a failed track ends `upload` with its error and track states |
| Orchestrator.RegistrationNext | src/lib/upload/index.ts:72-102 | registration follows the tracks; a rejection, or a single-track release, ends `upload` there; otherwise the collection request comes next |
| Orchestrator.CollectionNext | src/lib/upload/index.ts:94-111 | the collection request comes first; after a stored collection, outside development mode, its id is registered last and a rejection is the error |
| Orchestrator.CollectionContents | src/lib/upload/index.ts:96-102 | the collection record lists the returned track ids, its `Collection-Code` is the code chosen at the start and its `Creator` the wallet address |
| Orchestrator.TrackCodeIsProvider | src/lib/upload/index.ts:53-62 | every track's `Collection-Code` is `currentProvider` (none if empty), whatever collection code was chosen |
| Orchestrator.Upload | src/lib/upload/index.ts:18-116 | the calls, track states and error of `upload` are those `UploadRun` describes |
| Orchestrator.UploadArtwork | src/lib/upload/index.ts:118-143 | one upload of the artwork file through the chosen provider, tagged only with its content type; it resolves to that call's reply |
| Orchestrator.UploadAfterArtwork | src/lib/upload/index.ts:53-111 | the steps after the artwork, as `AfterArtwork` describes |
| Orchestrator.UploadAfterTracks | src/lib/upload/index.ts:72-111 | registration and the collection, as `AfterTracks` describes |
| Orchestrator.RegisterTracks | src/lib/upload/index.ts:75-89 | the loop of registrations, as `RegisterFrom` describes |
| Orchestrator.UploadAfterRegistration | src/lib/upload/index.ts:94-111 | the collection and its registration, as `AfterRegistration` describes |

## Left out

- The network and wallet: irys, turbo, `signDataItem`, `DataItem` and `warp.register` are the `Gateway`'s scripted replies. Signing and the turbo upload are one call. A turbo success therefore assumes that `DataItem` is available at run time; see the note on `DataItem` above. A `ReferenceError` from it is covered only as a `Failure` reply of the world.
- The irys node choice (`irysOpts`, `getIrys`) and the `currentProvider` passed to `uploadFile` and `uploadData`: a request records only its channel.
- File reading (`convertFileToUint8Array`, `fileReaderStream`), console logging and the `try`/`catch` blocks that only re-throw.
- Timing: the one-second `setTimeout` pauses of registration.
- Chunk events: the events reported during a chunked upload are applied before that upload settles.
- `Date` parsing behind `Release-Date`: a function `epochSeconds` of the environment.
- `crypto.randomUUID` is a `uuid` parameter, `isDev()` is a boolean of the environment, and `appConfig.UDL` is a string of the environment.
- The type `CurrentProvider` is not visible: `currentProvider` is a string. The page calls `upload` with four arguments (src/modules/upload/index.tsx:365), so `currentProvider` is `undefined` there. The model writes that missing argument as "", and by `Orchestrator.TrackCodeIsProvider` no track then gets a `Collection-Code` tag.
- `formatFileSize`, `formatCredits`, `floorToFixed` and `userPreferredGateway` (floating point, BigNumber, local storage), and the body of `isDev`.
- `formatDuration` of a negative duration; a fractional non-negative one is covered through its floor (`Utils.FractionalDurationParts`).
- The Zod library's coercion and default values, the genre list and the UDL option lists: enums given as strings.
- FormatSchemaValueLength: `toUpperCase` is modelled on the ASCII letters only. A value starting with a letter such as "ß", which JavaScript upper-cases to "SS", is outside the model. The values passed in are the licence options, which are ASCII.
- IssuesEmptyIffValid: `revShare`, `commercialFee` and `tokenQuantity` are whole numbers in the model. `z.coerce.number()` has no `.int()`, so the schema also accepts fractions such as 2.5, which the model cannot represent.
- InitStateRoundTrip: the balance reads back for whole token quantities only; a fractional `tokenQuantity` is not represented.
- LicenseFeeAndCurrency: the fee in `License-Fee` is a whole number written in plain decimal; a fractional `commercialFee` is not represented. The schema sets no upper bound on the fee, and JavaScript writes a fee of 1e21 or more as "1e+21" and rounds whole numbers above 2^53, which the model's decimal text does not.
- LicenseDerivation: the revenue-share form is stated for whole percentages only; a fractional `revShare` is not represented.
- RevenueShareReadsBack: only whole percentages read back; a fractional `revShare` is not represented.
- CalculateTotalFileSize: every track has an audio file in the model. The source adds 0 for a track without one, which `z.custom<File>()` lets through; the upload itself reads the file of every track. The release and track artwork files are required by the artwork schema.
- ChunkProgressBounds: progress is an exact rational, (chunk / total) * 100. The source stores a JavaScript float, so after chunk 1 of 3 it holds 33.33333333333333 where the model holds 100/3. The bounds, the 100% point and the monotonicity are stated for the exact value.
- AbbreviateAddress: `startChars`, `endChars` and `noOfEllipsis` are whole numbers or absent. Negative or fractional counts are not represented; a negative `noOfEllipsis` makes `repeat` throw a RangeError. Positions and the address length count characters, where `substring` and `.length` count UTF-16 code units: for an address holding a character beyond U+FFFF the cut differs (JavaScript keeps "\u{1F600}abc" of "\u{1F600}abcdefgh" as the first five units, the model "\u{1F600}abcd"), and a cut through a surrogate pair has no string value here. The two agree on the ASCII wallet addresses the pages pass in.
- Orchestrator.RegisterTracks: the registrations of `Promise.all` run concurrently. The model sends them in list order, and its error is the first rejection in list order, not the first in time.
- Orchestrator.RegistrationFlags: when the form holds the submitted list itself, `setValue` with index -1 writes a property "-1" of the array. The model leaves the tracks unchanged in that case.
- Orchestrator.ArtworkFirst: it does not state that the release artwork is never uploaded again. A track artwork upload of another file object with the same content is a separate call.
