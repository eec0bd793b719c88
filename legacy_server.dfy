/**
 * The earlier version of the server: the same request grammar and copy
 * loop, no usage tracker, no dispatch and no statistics, and a slot counter
 * that every worker's thread increments when its handler returns.
 */
module LegacyServer {
  import opened Wrappers
  import ServerErrors
  import opened Streaming
  import opened FileRequest
  import opened Gate
  import opened FileDownload

  /** The three error kinds of the earlier version. */
  datatype LegacyError =
    | FailedToInitFTPServer(reason: string)
    | FailedToParseRequest(reason: string)
    | ServerReadError(reason: string)

  function Display(e: LegacyError): (text: string)
    ensures !e.ServerReadError? ==> |e.reason| < |text| && text[|text| - |e.reason|..] == e.reason
    ensures e.ServerReadError? ==> text == "Client read deadline"
  {
    match e
    case FailedToInitFTPServer(reason) => "Could not init FTPServer: " + reason
    case FailedToParseRequest(reason) => "Could not parse filename in request: " + reason
    case ServerReadError(_) => "Client read deadline"
  }

  /** The later version's error of the same kind. */
  function Upgrade(e: LegacyError): ServerErrors.FileServerError {
    match e
    case FailedToInitFTPServer(reason) => ServerErrors.FailedToInitFTPServer(reason)
    case FailedToParseRequest(reason) => ServerErrors.FailedToParseRequest(reason)
    case ServerReadError(reason) => ServerErrors.ServerReadError(reason)
  }

  /** Both versions show a client the same text for the same error, and two
      errors of the earlier version display alike only when they are equal
      or both read errors. */
  lemma DisplayMatchesLaterVersion(e: LegacyError, f: LegacyError)
    ensures Display(e) == ServerErrors.Display(Upgrade(e))
    ensures Display(e) == Display(f) ==> e == f || (e.ServerReadError? && f.ServerReadError?)
  {
    if Display(e) == Display(f) {
      ServerErrors.DisplayDistinguishesErrors(Upgrade(e), Upgrade(f));
    }
  }

  /** The earlier handler: read up to `|`, parse, open and stream, with no
      counting. A read error or a parse failure reports and returns before
      any file is opened; an open failure reports and writes no file bytes;
      with no failing read the file bytes it tries to write are the whole
      file. */
  method ParseIncomingFileRequest(req: RequestStream, storage: Storage, faults: StreamFaults)
    returns (replies: seq<Reply>, panicked: bool)
    ensures panicked <==> OpenRequested(req, storage).RequestNotUtf8?
    ensures replies == HandlerReplies(OpenRequested(req, storage), faults)
    ensures OpenRequested(req, storage).Opened? && faults.readFailure.None? ==>
      DataBytes(replies) == OpenRequested(req, storage).content
    ensures !OpenRequested(req, storage).Opened? ==> DataBytes(replies) == [] && |replies| <= 1
  {
    panicked := false;
    if req.readError.Some? {
      replies := [ErrorText(req.readError.value.message)];
      FailureSendsNoFileBytes(OpenRequested(req, storage), faults);
      return;
    }
    var parsed := ParseRequest(ReadUntilPipe(req.bytes));
    if parsed.NotUtf8? {
      replies, panicked := [], true;
      return;
    }
    if parsed.NoFileName? {
      var error := FailedToParseRequest(FileNameNotFound);
      DisplayMatchesLaterVersion(error, error);
      replies := [ErrorText(Display(error))];
      FailureSendsNoFileBytes(OpenRequested(req, storage), faults);
      return;
    }
    if parsed.name !in storage.files {
      replies := [ErrorText(storage.openError.message)];
      FailureSendsNoFileBytes(OpenRequested(req, storage), faults);
      return;
    }
    replies := StreamFile(storage.files[parsed.name], faults);
  }

  class LegacyFileServer {
    const gate: AdmissionGate
    /** Workers spawned whose handler has not returned. */
    ghost var running: nat
    /** Slots of workers that panicked before their increment. */
    ghost var lost: nat

    ghost predicate Valid()
      reads this, gate
    {
      gate.Valid() && gate.held == running + lost
    }

    constructor (threadCount: int)
      ensures Valid() && gate.capacity == threadCount && gate.free == threadCount
      ensures running == 0 && lost == 0
      ensures fresh(gate)
    {
      gate := new AdmissionGate(threadCount);
      running, lost := 0, 0;
    }

    /** Bind the listener and build the server. */
    static method New(bindError: Option<IoError>, threadCount: int) returns (r: Result<LegacyFileServer, LegacyError>)
      ensures r.Failure? <==> bindError.Some?
      ensures r.Failure? ==> r.error == FailedToInitFTPServer(bindError.value.message)
      ensures r.Success? ==>
        && fresh(r.value) && fresh(r.value.gate) && r.value.Valid()
        && r.value.gate.capacity == threadCount && r.value.gate.free == threadCount
        && r.value.running == 0 && r.value.lost == 0
    {
      if bindError.Some? {
        return Failure(FailedToInitFTPServer(bindError.value.message));
      }
      var server := new LegacyFileServer(threadCount);
      return Success(server);
    }

    /** One turn of the accept loop: wait for a free slot (`releases[i]`
        workers finish during the i-th sleep), take it, and spawn a worker
        that holds it. */
    method HandleIncomingConnection(releases: seq<nat>) returns (spawned: bool, sleeps: nat)
      requires Valid() && Sum(releases) <= running
      modifies this, gate
      ensures Valid()
      ensures sleeps <= |releases|
      ensures forall j :: 0 <= j < sleeps ==> old(gate.free) + Sum(releases[..j]) == 0
      ensures spawned <==> old(gate.free) + Sum(releases[..sleeps]) != 0
      ensures !spawned ==> sleeps == |releases|
      ensures gate.free == old(gate.free) + Sum(releases[..sleeps]) - (if spawned then 1 else 0)
      ensures running == old(running) - Sum(releases[..sleeps]) + (if spawned then 1 else 0)
      ensures lost == old(lost)
    {
      spawned, sleeps := gate.FreeThreadBarrier(releases);
      SumOfPrefix(releases, sleeps);
      running := running - Sum(releases[..sleeps]);
      if spawned {
        running := running + 1;
      }
    }

    /** A spawned worker: unwrap the accepted stream (an error panics), run
        the handler, then give the slot back. A worker that panics never
        gives its slot back. */
    method RunWorker(acceptError: Option<IoError>, req: RequestStream, storage: Storage, faults: StreamFaults)
      returns (replies: seq<Reply>, panicked: bool)
      requires Valid() && running > 0
      modifies this, gate
      ensures Valid()
      ensures acceptError.Some? ==> panicked && replies == []
      ensures acceptError.None? ==>
        && replies == HandlerReplies(OpenRequested(req, storage), faults)
        && (panicked <==> OpenRequested(req, storage).RequestNotUtf8?)
      ensures running == old(running) - 1
      ensures !panicked ==> gate.free == old(gate.free) + 1 && lost == old(lost)
      ensures panicked ==> gate.free == old(gate.free) && lost == old(lost) + 1
    {
      if acceptError.Some? {
        replies, panicked := [], true;
      } else {
        replies, panicked := ParseIncomingFileRequest(req, storage, faults);
      }
      running := running - 1;
      if panicked {
        lost := lost + 1;
      } else {
        running := running + 1;
        gate.Release();
        running := running - 1;
      }
    }

    /** With a non-negative thread count the counter stays within
        `[0, threadCount]`, and it equals the thread count exactly when no
        worker holds a slot. */
    lemma CounterWithinThreadCount()
      requires Valid() && gate.capacity >= 0
      ensures 0 <= gate.free <= gate.capacity
      ensures gate.free == gate.capacity <==> running == 0 && lost == 0
    {
      gate.FreeWithinCapacity();
    }
  }
}
