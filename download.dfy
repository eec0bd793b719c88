/**
 * The download handler: read the request up to its `|`, parse the file name,
 * open the file, count the download and stream the file back in pieces.
 */
module FileDownload {
  import opened Wrappers
  import opened Bytes
  import opened ServerErrors
  import opened FileRequest
  import opened Streaming
  import opened UsageTracking

  /** What the client sends after the command byte, and whether reading it
      up to the first `|` fails. */
  datatype RequestStream = RequestStream(bytes: seq<byte>, readError: Option<IoError>)

  /** The served directory: the files that open, and the error any other
      name gets. */
  datatype Storage = Storage(files: map<Name, seq<byte>>, openError: IoError)

  const FileNameNotFound: string := "file name not found"

  /** How far a request gets before its file is streamed. */
  datatype Opening =
    | RequestReadFailed(readError: IoError)
    | RequestNotUtf8                           // the worker panics
    | Unparsable(error: FileServerError)
    | OpenFailed(openError: IoError)
    | Opened(name: Name, content: seq<byte>)

  /** The first steps of the handler, up to an open file or a failure. */
  function OpenRequested(req: RequestStream, storage: Storage): (o: Opening)
    ensures o.RequestReadFailed? <==> req.readError.Some?
    ensures o.RequestReadFailed? ==> o.readError == req.readError.value
    ensures o.RequestNotUtf8? <==> req.readError.None? && !ValidUtf8(ReadUntilPipe(req.bytes))
    ensures o.Unparsable? <==> req.readError.None? && ParseRequest(ReadUntilPipe(req.bytes)).NoFileName?
    ensures o.Unparsable? ==> o.error == FailedToParseRequest(FileNameNotFound)
    ensures o.OpenFailed? <==> req.readError.None? && ParseRequest(ReadUntilPipe(req.bytes)).FileName?
                               && ParseRequest(ReadUntilPipe(req.bytes)).name !in storage.files
    ensures o.OpenFailed? ==> o.openError == storage.openError
    ensures o.Opened? ==> req.readError.None? && ParseRequest(ReadUntilPipe(req.bytes)) == FileName(o.name)
                          && o.name in storage.files && o.content == storage.files[o.name]
  {
    if req.readError.Some? then RequestReadFailed(req.readError.value)
    else match ParseRequest(ReadUntilPipe(req.bytes))
      case NotUtf8 => RequestNotUtf8
      case NoFileName => Unparsable(FailedToParseRequest(FileNameNotFound))
      case FileName(name) =>
        if name in storage.files then Opened(name, storage.files[name]) else OpenFailed(storage.openError)
  }

  /** The replies the handler writes for a request that got as far as `o`:
      the error text for a failure before streaming, nothing when the worker
      panics, and the streamed file otherwise. */
  function HandlerReplies(o: Opening, faults: StreamFaults): seq<Reply> {
    match o
    case RequestReadFailed(e) => [ErrorText(e.message)]
    case RequestNotUtf8 => []
    case Unparsable(e) => [ErrorText(Display(e))]
    case OpenFailed(e) => [ErrorText(e.message)]
    case Opened(_, content) => Stream(content, 0, 0, faults)
  }

  /** A request that fails before its file opens gets at most one reply,
      error text, and no file bytes. */
  lemma FailureSendsNoFileBytes(o: Opening, faults: StreamFaults)
    requires !o.Opened?
    ensures |HandlerReplies(o, faults)| <= 1
    ensures forall i :: 0 <= i < |HandlerReplies(o, faults)| ==> HandlerReplies(o, faults)[i].ErrorText?
    ensures DataBytes(HandlerReplies(o, faults)) == []
  {
    var replies := HandlerReplies(o, faults);
    if replies != [] {
      assert replies[1..] == [];
    }
  }

  /** The handler. The worker panics (and writes nothing) when the request is
      not UTF-8; a failure before the file opens reports its error and leaves
      the tracker alone; an opened file is counted once, before anything is
      streamed, and then streamed. */
  method HandleFileRequest(req: RequestStream, storage: Storage, faults: StreamFaults, tracker: UsageTracker)
    returns (replies: seq<Reply>, panicked: bool)
    requires tracker.Valid()
    modifies tracker
    ensures tracker.Valid()
    ensures panicked <==> OpenRequested(req, storage).RequestNotUtf8?
    ensures replies == HandlerReplies(OpenRequested(req, storage), faults)
    ensures OpenRequested(req, storage).Opened? ==>
      tracker.counts == Bump(old(tracker.counts), OpenRequested(req, storage).name)
    ensures !OpenRequested(req, storage).Opened? ==> tracker.counts == old(tracker.counts)
  {
    panicked := false;
    if req.readError.Some? {
      replies := [ErrorText(req.readError.value.message)];
      return;
    }
    var buffer := ReadUntilPipe(req.bytes);
    var parsed := ParseRequest(buffer);
    if parsed.NotUtf8? {
      replies, panicked := [], true;
      return;
    }
    if parsed.NoFileName? {
      replies := [ErrorText(Display(FailedToParseRequest(FileNameNotFound)))];
      return;
    }
    var name := parsed.name;
    if name !in storage.files {
      replies := [ErrorText(storage.openError.message)];
      return;
    }
    var content := storage.files[name];
    tracker.RecordDownload(name);
    replies := StreamFile(content, faults);
  }

  /** A client that sends `filename=<name>|` for a stored file, with nothing
      going wrong, gets that file opened and receives exactly its bytes. */
  lemma DownloadRoundTrip(name: Name, rest: seq<byte>, storage: Storage)
    requires |name| > 0 && Pipe !in name && ValidUtf8(name)
    requires name in storage.files
    ensures OpenRequested(RequestStream(FilenameKey + name + [Pipe] + rest, None), storage)
         == Opened(name, storage.files[name])
    ensures DataBytes(HandlerReplies(Opened(name, storage.files[name]), NoFaults)) == storage.files[name]
    ensures forall i :: 0 <= i < |HandlerReplies(Opened(name, storage.files[name]), NoFaults)| ==>
      HandlerReplies(Opened(name, storage.files[name]), NoFaults)[i].Data?
  {
    RequestRoundTrip(name, rest);
    FaultlessStream(storage.files[name], 0, 0);
  }
}
