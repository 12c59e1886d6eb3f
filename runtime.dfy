/**
 * What the upload code talks to. `Gateway` stands for every remote service
 * (the irys bundler, the wallet's `signDataItem` followed by the turbo
 * upload, `warp.register`): each call is appended to a log and answered by
 * a fixed, arbitrary `World`, so the model states exactly which requests
 * are made, in which order, for every possible sequence of replies.
 * `UploadForm` is the live react-hook-form state of the track list, which
 * the pipeline writes through `form.setValue`.
 */
module Runtime {
  import opened Basics
  import opened Schema
  import opened TagRules

  /** The ways data is stored. */
  datatype Channel =
    | IrysFile     // irys `uploadFile`
    | IrysChunked  // the irys chunked uploader
    | IrysData     // irys `uploadData`
    | TurboSigned  // wallet `signDataItem`, then `uploadFileTurbo`

  datatype Payload = FileContent(file: File) | Text(text: string)

  datatype Request =
    | Store(channel: Channel, payload: Payload, tags: seq<Tag>)
    | Register(id: string, node: string)

  /** What the chunked uploader reports while it sends a file. */
  datatype ChunkEvent = ChunkUploaded(id: nat) | ChunkFailed(id: nat)

  /** The replies of the outside world: the answer to the n-th call (an id or
      an error message), and the chunk events reported during the n-th call. */
  datatype World = World(answer: nat -> Result<string, string>, chunks: nat -> seq<ChunkEvent>)

  class Gateway {
    var log: seq<Request>
    const world: World

    constructor (world: World)
      ensures this.world == world && log == []
    {
      this.world := world;
      log := [];
    }

    /** Makes one remote call; it resolves to an id or rejects with an error. */
    method Call(request: Request) returns (reply: Result<string, string>)
      modifies this
      ensures log == old(log) + [request]
      ensures reply == world.answer(|old(log)|)
    {
      reply := world.answer(|log|);
      log := log + [request];
    }
  }

  /** The request that stores one artwork file through the chosen provider,
      tagged only with its content type. */
  function ArtworkRequest(provider: Provider, file: File): Request {
    Store(if provider == Irys then IrysFile else TurboSigned, FileContent(file), [Tag(ContentType, file.mimeType)])
  }

  /** The request that stores an overflowing description, pointing back at
      the upload `id`; it always goes through irys. */
  function OverflowRequest(description: string, id: string): Request {
    Store(IrysData, Text(description), [Tag(DescriptionFor, id)])
  }

  function WithStatus(uploads: seq<UploadState>, i: nat, status: UploadStatus): seq<UploadState>
    requires i < |uploads|
  {
    uploads[i := uploads[i].(status := status)]
  }

  function WithProgress(uploads: seq<UploadState>, i: nat, progress: real): seq<UploadState>
    requires i < |uploads|
  {
    uploads[i := uploads[i].(progress := progress)]
  }

  function WithTx(uploads: seq<UploadState>, i: nat, tx: string): seq<UploadState>
    requires i < |uploads|
  {
    uploads[i := uploads[i].(tx := Some(tx))]
  }

  /** `setValue("tracklist.<index>.upload.registered", true)`: an index outside
      the list (`findIndex` gave -1) leaves every track as it was. */
  function WithRegistered(uploads: seq<UploadState>, index: int): seq<UploadState> {
    if 0 <= index < |uploads| then uploads[index := uploads[index].(registered := true)] else uploads
  }

  /** The `tracklist.<i>.upload` fields of the form. */
  class UploadForm {
    var uploads: seq<UploadState>

    constructor (uploads: seq<UploadState>)
      ensures this.uploads == uploads
    {
      this.uploads := uploads;
    }

    /** `getValues("tracklist.<i>.upload.status")`. */
    function Status(i: nat): UploadStatus
      requires i < |uploads|
      reads this
    {
      uploads[i].status
    }

    method SetStatus(i: nat, status: UploadStatus)
      requires i < |uploads|
      modifies this
      ensures uploads == WithStatus(old(uploads), i, status)
    {
      uploads := uploads[i := uploads[i].(status := status)];
    }

    method SetProgress(i: nat, progress: real)
      requires i < |uploads|
      modifies this
      ensures uploads == WithProgress(old(uploads), i, progress)
    {
      uploads := uploads[i := uploads[i].(progress := progress)];
    }

    method SetTx(i: nat, tx: string)
      requires i < |uploads|
      modifies this
      ensures uploads == WithTx(old(uploads), i, tx)
    {
      uploads := uploads[i := uploads[i].(tx := Some(tx))];
    }

    method SetRegistered(index: int)
      modifies this
      ensures uploads == WithRegistered(old(uploads), index)
    {
      if 0 <= index < |uploads| {
        uploads := uploads[index := uploads[index].(registered := true)];
      }
    }
  }

  /** What a step of the pipeline leaves behind: the calls made so far and
      the track upload states. */
  datatype Io = Io(log: seq<Request>, uploads: seq<UploadState>)

  /** How an awaited step ends: with an id, or with the error it throws. */
  datatype Outcome = Done(io: Io, id: string) | Thrown(io: Io, error: string)

  /** The outcome of a step whose last call got `reply`. */
  function Settle(io: Io, reply: Result<string, string>): (r: Outcome)
    ensures r.io == io && (r.Done? <==> reply.Success?)
    ensures r.Done? ==> r.id == reply.value
    ensures r.Thrown? ==> r.error == reply.error
  {
    match reply
    case Success(id) => Done(io, id)
    case Failure(e) => Thrown(io, e)
  }

  /** The follow-up upload of a description over 300 UTF-16 code units; the step
      keeps the id of the upload it describes. */
  function OverflowStep(io: Io, description: string, id: string, world: World): (r: Outcome)
    ensures r.io.uploads == io.uploads
    ensures r.io.log == io.log + (if Overflows(description) then [OverflowRequest(description, id)] else [])
    ensures r.Done? ==> r.id == id
  {
    if Overflows(description) then
      var reply := world.answer(|io.log|);
      var io' := Io(io.log + [OverflowRequest(description, id)], io.uploads);
      if reply.Success? then Done(io', id) else Thrown(io', reply.error)
    else Done(io, id)
  }

  /** Stores a description over 300 UTF-16 code units pointing back at the upload
      `id`, and resolves to that id unless the call is rejected. */
  method UploadOverflow(g: Gateway, description: string, id: string) returns (result: Result<string, string>)
    modifies g
    ensures var r := OverflowStep(Io(old(g.log), []), description, id, g.world);
      g.log == r.io.log && result == OutcomeResult(r)
  {
    if Overflows(description) {
      var reply := g.Call(OverflowRequest(description, id));
      if reply.Failure? {
        return Failure(reply.error);
      }
    }
    result := Result.Success(id);
  }

  /** What an awaited step resolves to, without the calls it made. */
  function OutcomeResult(o: Outcome): (r: Result<string, string>)
    ensures r.Success? <==> o.Done?
    ensures r.Success? ==> r.value == o.id
    ensures r.Failure? ==> r.error == o.error
  {
    match o
    case Done(_, id) => Result.Success(id)
    case Thrown(_, e) => Failure(e)
  }

  /** A snapshot of the track loop: the calls made, the track upload states,
      the ids collected, and the error that stopped it, if any. */
  datatype Run = Run(log: seq<Request>, uploads: seq<UploadState>, ids: seq<string>, error: Option<string>)
}
