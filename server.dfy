/**
 * The file server: the accept loop's handling of one connection (wait for a
 * free slot, dispatch on the command byte, spawn a download worker or
 * subscribe to statistics), the download worker's end, and one round of the
 * statistics broadcast.
 */
module Server {
  import opened Wrappers
  import opened Bytes
  import opened ServerErrors
  import opened Streaming
  import opened UsageTracking
  import opened Gate
  import opened Statistics
  import opened Dispatch
  import opened FileDownload

  /** What the accept loop does with one incoming connection. A panic ends
      the accept loop, and the slot it took is never given back. */
  datatype ConnectionOutcome =
    | LoopStopped                    // an earlier panic ended the accept loop
    | StillWaiting                   // no slot came free while the caller slept
    | AcceptPanicked(error: IoError) // the accepted stream was an error
    | WorkerSpawned(handler: Handler)
    | Subscribed(id: ConnectionId)
    | ErrorReported(text: string)
    | DispatchPanicked(message: string)

  /** Whether the connection keeps the slot it took. */
  predicate KeepsSlot(o: ConnectionOutcome) {
    !o.LoopStopped? && !o.StillWaiting? && !o.ErrorReported?
  }

  /** Whether the outcome is a panic on the accept thread, which ends the
      accept loop for good. */
  predicate StopsLoop(o: ConnectionOutcome) {
    o.AcceptPanicked? || o.DispatchPanicked?
  }

  const UploadNeverCalled: string := "upload should never be called!"

  /** The accept loop's reaction to a dispatch outcome: a download gets a
      worker, a statistics client is subscribed under `id`, an error is
      reported, a panic stops the loop. */
  function Serve(d: Dispatched, id: ConnectionId): (o: ConnectionOutcome)
    ensures o.WorkerSpawned? <==> d.Routed? && d.command == Download
    ensures o.WorkerSpawned? ==> o.handler == d.handler
    ensures o.Subscribed? <==> d.Routed? && d.command == Statistics
    ensures o.Subscribed? ==> o.id == id
    ensures o.ErrorReported? <==> d.Refused?
    ensures o.ErrorReported? ==> o.text == Display(d.error)
    ensures d.Halted? ==> o == DispatchPanicked(d.message)
    ensures d.Routed? && d.command == Upload ==> o == DispatchPanicked(UploadNeverCalled)
    ensures !o.LoopStopped? && !o.StillWaiting? && !o.AcceptPanicked?
  {
    match d
    case Routed(handler, command) =>
      (match command
       case Download => WorkerSpawned(handler)
       case Statistics => Subscribed(id)
       case Upload => DispatchPanicked(UploadNeverCalled))
    case Refused(error) => ErrorReported(Display(error))
    case Halted(message) => DispatchPanicked(message)
  }

  class FileServer {
    /** The free-slot counter shared with the workers. */
    const gate: AdmissionGate
    var handlers: map<CommandType, Handler>
    const maxConnections: int
    /** The id every statistics subscription is stored under; it is never
        advanced. */
    const nextId: ConnectionId
    const statsBoundConnections: SubscriberRegistry
    const rootDir: string
    const fileStat: UsageTracker
    /** The accept loop has ended: a panic on its thread unwound it, and no
        connection is accepted any more. */
    var acceptLoopStopped: bool

    /** Slots held by download workers that are still running. */
    ghost var running: nat
    /** Slots taken by statistics subscriptions; none is ever given back. */
    ghost var subscribed: nat
    /** Slots whose holder panicked before giving them back: a download
        worker, or the accept loop itself when it stopped. */
    ghost var lost: nat

    ghost predicate Valid()
      reads this, gate, fileStat, statsBoundConnections
    {
      Holding(0)
    }

    /** The invariant while `pending` slots are taken but not yet handed to
        a worker, a subscription or a panic. */
    ghost predicate Holding(pending: nat)
      reads this, gate, fileStat, statsBoundConnections
    {
      && gate.Valid()
      && fileStat.Valid()
      && gate.capacity == maxConnections
      && gate.held == running + subscribed + lost + pending
      && nextId == 0
      && statsBoundConnections.subscribers.Keys <= {nextId}
    }

    constructor (threadCount: int, rootDir: string)
      ensures Valid()
      ensures maxConnections == threadCount && this.rootDir == rootDir && handlers == map[]
      ensures gate.free == threadCount && fileStat.counts == map[] && statsBoundConnections.subscribers == map[]
      ensures running == 0 && subscribed == 0 && lost == 0 && !acceptLoopStopped
      ensures fresh(gate) && fresh(fileStat) && fresh(statsBoundConnections)
    {
      gate := new AdmissionGate(threadCount);
      handlers := map[];
      maxConnections := threadCount;
      nextId := 0;
      statsBoundConnections := new SubscriberRegistry();
      this.rootDir := rootDir;
      fileStat := new UsageTracker();
      running, subscribed, lost := 0, 0, 0;
      acceptLoopStopped := false;
    }

    /** Bind the listener and build the server; a bind failure becomes
        `FailedToInitFTPServer` with the error's text. */
    static method New(bindError: Option<IoError>, threadCount: int, rootDir: string)
      returns (r: Result<FileServer, FileServerError>)
      ensures r.Failure? <==> bindError.Some?
      ensures r.Failure? ==> r.error == FailedToInitFTPServer(bindError.value.message)
      ensures r.Success? ==>
        && fresh(r.value) && r.value.Valid() && r.value.maxConnections == threadCount
        && r.value.handlers == map[] && r.value.gate.free == threadCount
        && r.value.fileStat.counts == map[] && r.value.statsBoundConnections.subscribers == map[]
        && r.value.running == 0 && r.value.subscribed == 0 && r.value.lost == 0
        && !r.value.acceptLoopStopped
        && fresh(r.value.gate) && fresh(r.value.fileStat) && fresh(r.value.statsBoundConnections)
    {
      if bindError.Some? {
        return Failure(FailedToInitFTPServer(bindError.value.message));
      }
      var server := new FileServer(threadCount, rootDir);
      return Success(server);
    }

    /** Insert each `(command, handler)` pair into the table, in order. */
    method RegisterHandlers(pairs: seq<(CommandType, Handler)>)
      requires Valid()
      modifies this
      ensures Valid()
      ensures handlers == Registered(old(handlers), pairs)
      ensures running == old(running) && subscribed == old(subscribed) && lost == old(lost)
      ensures acceptLoopStopped == old(acceptLoopStopped)
    {
      var i := 0;
      while i < |pairs|
        invariant i <= |pairs|
        invariant handlers == Registered(old(handlers), pairs[..i])
        invariant Valid()
        invariant running == old(running) && subscribed == old(subscribed) && lost == old(lost)
        invariant acceptLoopStopped == old(acceptLoopStopped)
      {
        assert pairs[..i + 1][..i] == pairs[..i];
        handlers := handlers[pairs[i].0 := pairs[i].1];
        i := i + 1;
      }
      assert pairs[..i] == pairs;
    }

    /** The accept loop's handling of one connection `conn`. The caller first
        waits for a free slot, sleeping while the counter reads zero;
        `releases[i]` download workers finish during the i-th sleep. Then the
        accepted stream is unwrapped and the command dispatched: a download
        gets a worker that holds the slot, a statistics client is stored
        under `nextId` and keeps the slot, an error is reported and its slot
        given back, a panic keeps the slot for good and ends the accept loop.
        Once the loop has ended, no connection is accepted: nothing waits,
        nothing is dispatched and nothing changes. */
    method HandleIncomingConnection(conn: Connection, releases: seq<nat>, acceptError: Option<IoError>, command: CommandRead)
      returns (outcome: ConnectionOutcome, sleeps: nat)
      requires Valid() && Sum(releases) <= running
      modifies this, gate, statsBoundConnections
      ensures Valid()
      ensures handlers == old(handlers)
      ensures outcome.LoopStopped? <==> old(acceptLoopStopped)
      ensures acceptLoopStopped <==> old(acceptLoopStopped) || StopsLoop(outcome)
      ensures outcome.LoopStopped? ==> sleeps == 0
      ensures sleeps <= |releases|
      ensures forall j :: 0 <= j < sleeps ==> old(gate.free) + Sum(releases[..j]) == 0
      ensures !outcome.LoopStopped? ==> (outcome.StillWaiting? <==> old(gate.free) + Sum(releases[..sleeps]) == 0)
      ensures outcome.StillWaiting? ==> sleeps == |releases|
      ensures !outcome.LoopStopped? && !outcome.StillWaiting? && acceptError.Some? ==> outcome == AcceptPanicked(acceptError.value)
      ensures !outcome.LoopStopped? && !outcome.StillWaiting? && acceptError.None? ==>
        outcome == Serve(DetermineHandler(handlers, command), nextId)
      ensures gate.free == old(gate.free) + Sum(releases[..sleeps]) - (if KeepsSlot(outcome) then 1 else 0)
      ensures running == old(running) - Sum(releases[..sleeps]) + (if outcome.WorkerSpawned? then 1 else 0)
      ensures subscribed == old(subscribed) + (if outcome.Subscribed? then 1 else 0)
      ensures lost == old(lost) + (if StopsLoop(outcome) then 1 else 0)
      ensures outcome.Subscribed? ==> statsBoundConnections.subscribers == old(statsBoundConnections.subscribers)[nextId := conn]
      ensures !outcome.Subscribed? ==> statsBoundConnections.subscribers == old(statsBoundConnections.subscribers)
    {
      if acceptLoopStopped {
        return LoopStopped, 0;
      }
      var acquired;
      acquired, sleeps := gate.FreeThreadBarrier(releases);
      SumOfPrefix(releases, sleeps);
      running := running - Sum(releases[..sleeps]);
      if !acquired {
        return StillWaiting, sleeps;
      }
      outcome := ServeAccepted(conn, acceptError, command);
    }

    /** The accept loop once it holds a slot for `conn`: unwrap the accepted
        stream and dispatch its command. The slot goes to a download worker
        or a subscription, is given back after a reported error, and is kept
        for good by a panic, which ends the accept loop. */
    method ServeAccepted(conn: Connection, acceptError: Option<IoError>, command: CommandRead)
      returns (outcome: ConnectionOutcome)
      requires Holding(1) && !acceptLoopStopped
      modifies this, gate, statsBoundConnections
      ensures Valid()
      ensures handlers == old(handlers)
      ensures acceptError.Some? ==> outcome == AcceptPanicked(acceptError.value)
      ensures acceptError.None? ==> outcome == Serve(DetermineHandler(handlers, command), nextId)
      ensures acceptLoopStopped <==> StopsLoop(outcome)
      ensures gate.free == old(gate.free) + (if KeepsSlot(outcome) then 0 else 1)
      ensures running == old(running) + (if outcome.WorkerSpawned? then 1 else 0)
      ensures subscribed == old(subscribed) + (if outcome.Subscribed? then 1 else 0)
      ensures lost == old(lost) + (if StopsLoop(outcome) then 1 else 0)
      ensures outcome.Subscribed? ==> statsBoundConnections.subscribers == old(statsBoundConnections.subscribers)[nextId := conn]
      ensures !outcome.Subscribed? ==> statsBoundConnections.subscribers == old(statsBoundConnections.subscribers)
    {
      if acceptError.Some? {
        lost := lost + 1;
        acceptLoopStopped := true;
        return AcceptPanicked(acceptError.value);
      }
      var dispatched := DetermineHandler(handlers, command);
      match dispatched {
        case Routed(handler, commandType) =>
          match commandType {
            case Download =>
              running := running + 1;
              outcome := WorkerSpawned(handler);
            case Statistics =>
              statsBoundConnections.Insert(nextId, conn);
              subscribed := subscribed + 1;
              outcome := Subscribed(nextId);
            case Upload =>
              // dispatch never routes to Upload: byte 2 panics before the lookup
              assert false;
          }
        case Refused(error) =>
          running := running + 1;
          gate.Release();
          running := running - 1;
          outcome := ErrorReported(Display(error));
        case Halted(message) =>
          lost := lost + 1;
          acceptLoopStopped := true;
          outcome := DispatchPanicked(message);
      }
    }

    /** A spawned download worker runs its handler and then gives its slot
        back; a worker that panics never does. */
    method RunWorker(handler: Handler, req: RequestStream, storage: Storage, faults: StreamFaults)
      returns (replies: seq<Reply>, panicked: bool)
      requires Valid() && running > 0
      modifies this, gate, fileStat
      ensures Valid()
      ensures handlers == old(handlers)
      ensures handler == NoOpHandler ==> replies == [] && !panicked && fileStat.counts == old(fileStat.counts)
      ensures handler == FileRequestHandler ==>
        && replies == HandlerReplies(OpenRequested(req, storage), faults)
        && (panicked <==> OpenRequested(req, storage).RequestNotUtf8?)
        && fileStat.counts == if OpenRequested(req, storage).Opened?
                              then Bump(old(fileStat.counts), OpenRequested(req, storage).name)
                              else old(fileStat.counts)
      ensures running == old(running) - 1 && subscribed == old(subscribed)
      ensures acceptLoopStopped == old(acceptLoopStopped)
      ensures !panicked ==> gate.free == old(gate.free) + 1 && lost == old(lost)
      ensures panicked ==> gate.free == old(gate.free) && lost == old(lost) + 1
    {
      if handler == FileRequestHandler {
        replies, panicked := HandleFileRequest(req, storage, faults, fileStat);
      } else {
        replies, panicked := [], false;
      }
      running := running - 1;
      if panicked {
        lost := lost + 1;
      } else {
        running := running + 1;
        gate.Release();
        running := running - 1;
      }
    }

    /** One round of the statistics broadcast. The load it reports counts
        every slot not free: running downloads, every statistics
        subscription ever made, and slots lost to panics. */
    method ReportMetrics(failures: map<ConnectionId, WriteNumber>)
      returns (message: StatsMessage, delivered: map<ConnectionId, seq<byte>>)
      requires Valid()
      modifies statsBoundConnections
      ensures Valid()
      ensures message.active == running + subscribed + lost
      ensures IsMostDownloaded(fileStat.counts, message.fileName, message.count)
      ensures delivered.Keys == old(statsBoundConnections.subscribers).Keys
      ensures forall id :: id in delivered ==> delivered[id] == Received(message, failures, id)
      ensures statsBoundConnections.subscribers == old(statsBoundConnections.subscribers) - failures.Keys
    {
      message, delivered := SendStats(gate, fileStat, statsBoundConnections, maxConnections, failures);
    }

    /** The statistics subscriptions leak their slots: once subscriptions and
        panics have taken every slot, the counter stays at zero and no
        connection is ever admitted again, however long the caller waits
        (no download worker is left to give a slot back). */
    lemma SubscriptionsExhaustSlots(releases: seq<nat>)
      requires Valid() && maxConnections >= 0 && subscribed + lost >= maxConnections
      requires Sum(releases) <= running
      ensures gate.free == 0 && running == 0 && Sum(releases) == 0
      ensures forall j :: 0 <= j <= |releases| ==> gate.free + Sum(releases[..j]) == 0
    {
      forall j | 0 <= j <= |releases|
        ensures Sum(releases[..j]) == 0
      {
        SumOfPrefix(releases, j);
      }
    }

    /** Every subscription is stored under the same id, so a new subscriber
        replaces the previous one and at most one is ever registered. */
    lemma AtMostOneSubscriber()
      requires Valid()
      ensures |statsBoundConnections.subscribers| <= 1
    {
      var keys := statsBoundConnections.subscribers.Keys;
      assert keys <= {nextId};
      if keys != {} {
        assert keys == {nextId};
      }
      assert |keys| <= 1;
    }
  }
}
