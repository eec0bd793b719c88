/**
 * The statistics scenario of the server's own test: ten slots, a download
 * whose client stalls, three downloads of the same file that finish, and a
 * statistics subscriber, which then receives load 2, the file's name and
 * count 3. It is stated for every file name the test could have used.
 */
module ServerScenarios {
  import opened Wrappers
  import opened Bytes
  import opened FileRequest
  import opened Streaming
  import opened Statistics
  import opened Dispatch
  import opened FileDownload
  import opened Gate
  import opened UsageTracking
  import opened Server

  /** A file name a client can ask for: non-empty, without `|`, valid
      UTF-8, and short enough for the length byte, as `temp_test_file` is. */
  ghost predicate TestableName(file: Name) {
    0 < |file| < 256 && Pipe !in file && ValidUtf8(file)
  }

  /** A served directory holding `file` with `content`. */
  function TestStorage(file: Name, content: seq<byte>): Storage {
    Storage(map[file := content], IoError("No such file or directory"))
  }

  /** The download request for `file` a test client writes after the
      command byte. */
  function TestRequest(file: Name): RequestStream {
    RequestStream(FilenameKey + file + [Pipe] + [], None)
  }

  /** The tracker holding `n` downloads of `file` and nothing else. */
  function TestCounts(file: Name, n: nat): map<Name, int> {
    if n == 0 then map[] else map[file := n]
  }

  /** One download of `file` that runs to its end: the slot comes back and
      the file's count goes up by one. */
  method FinishedDownload(server: FileServer, conn: Connection, file: Name, content: seq<byte>, ghost n: nat)
    requires TestableName(file)
    requires server.Valid() && server.handlers == map[Download := FileRequestHandler, Statistics := NoOpHandler]
    requires server.gate.free > 0 && server.fileStat.counts == TestCounts(file, n)
    requires !server.acceptLoopStopped
    modifies server, server.gate, server.fileStat, server.statsBoundConnections
    ensures server.Valid() && server.handlers == old(server.handlers) && !server.acceptLoopStopped
    ensures server.gate.free == old(server.gate.free)
    ensures server.running == old(server.running) && server.subscribed == old(server.subscribed)
    ensures server.lost == old(server.lost)
    ensures server.statsBoundConnections.subscribers == old(server.statsBoundConnections.subscribers)
    ensures server.fileStat.counts == TestCounts(file, n + 1)
  {
    var none: seq<nat> := [];
    assert Sum(none) == 0;
    var outcome, sleeps := server.HandleIncomingConnection(conn, none, None, CommandByte(1));
    assert sleeps == 0 && none[..0] == none;
    assert DetermineHandler(server.handlers, CommandByte(1)) == Routed(FileRequestHandler, Download);
    assert outcome == WorkerSpawned(FileRequestHandler);
    DownloadRoundTrip(file, [], TestStorage(file, content));
    assert OpenRequested(TestRequest(file), TestStorage(file, content)) == Opened(file, content);
    var replies, panicked := server.RunWorker(FileRequestHandler, TestRequest(file), TestStorage(file, content), NoFaults);
    BumpTestCounts(file, n);
  }

  lemma BumpTestCounts(file: Name, n: nat)
    ensures Bump(TestCounts(file, n), file) == TestCounts(file, n + 1)
  {
  }

  /** The test's server: ten slots, the download handler and the no-op
      statistics handler registered. */
  method NewTestServer() returns (server: FileServer)
    ensures fresh(server) && fresh(server.gate) && fresh(server.fileStat) && fresh(server.statsBoundConnections)
    ensures server.Valid() && server.maxConnections == 10 && server.gate.free == 10
    ensures server.handlers == map[Download := FileRequestHandler, Statistics := NoOpHandler]
    ensures server.running == 0 && server.subscribed == 0 && server.lost == 0 && !server.acceptLoopStopped
    ensures server.fileStat.counts == map[] && server.statsBoundConnections.subscribers == map[]
  {
    var created := FileServer.New(None, 10, "temp_test_root_dir");
    server := created.value;
    var pairs := [(Download, FileRequestHandler), (Statistics, NoOpHandler)];
    server.RegisterHandlers(pairs);
    assert pairs[..1][..0] == [] && pairs[..1] == [(Download, FileRequestHandler)];
    assert Registered(map[], pairs[..1]) == map[Download := FileRequestHandler];
  }

  /** The connections of the statistics test, for any file name the test
      could use: a download whose client stalls, three finished downloads of
      `file` and one subscriber. */
  method ServeTestClients(file: Name, content: seq<byte>) returns (server: FileServer)
    requires TestableName(file)
    ensures fresh(server) && fresh(server.gate) && fresh(server.fileStat) && fresh(server.statsBoundConnections)
    ensures server.Valid() && server.maxConnections == 10
    ensures server.running == 1 && server.subscribed == 1 && server.lost == 0 && !server.acceptLoopStopped
    ensures server.fileStat.counts == TestCounts(file, 3)
    ensures server.statsBoundConnections.subscribers == map[0 := Connection(4)]
  {
    server := NewTestServer();

    // the client that stalls before sending its request: its worker keeps the slot
    var none: seq<nat> := [];
    assert Sum(none) == 0;
    var stalled, sleeps := server.HandleIncomingConnection(Connection(0), none, None, CommandByte(1));
    assert sleeps == 0 && none[..0] == none;
    assert stalled.WorkerSpawned?;

    FinishedDownload(server, Connection(1), file, content, 0);
    FinishedDownload(server, Connection(2), file, content, 1);
    FinishedDownload(server, Connection(3), file, content, 2);

    var subscriber;
    subscriber, sleeps := server.HandleIncomingConnection(Connection(4), none, None, CommandByte(3));
    assert sleeps == 0;
    assert DetermineHandler(server.handlers, CommandByte(3)) == Routed(NoOpHandler, Statistics);
    assert subscriber == Subscribed(0);
  }

  /** With one tracked file, the scan reports it. */
  lemma OnlyFileIsMostDownloaded(file: Name, n: nat, name: Name, count: int)
    requires n > 0 && IsMostDownloaded(TestCounts(file, n), name, count)
    ensures name == file && count == n
  {
    assert TestCounts(file, n)[file] == n;
  }

  /** The statistics test: after the test's connections, one broadcast
      round sends the subscriber load 2 (the stalled download and its own
      slot), the file's name and count 3. */
  method StatisticScenario(file: Name, content: seq<byte>) returns (message: StatsMessage, received: seq<byte>)
    requires TestableName(file)
    ensures message == StatsMessage(2, file, 3)
    ensures received == [2, |file|] + file + [3]
  {
    var server := ServeTestClients(file, content);
    var delivered;
    message, delivered := server.ReportMetrics(map[]);
    OnlyFileIsMostDownloaded(file, 3, message.fileName, message.count);
    received := delivered[0];
    HealthySubscriberGetsMessage(message, map[], 0);
  }

  /** A client that closes before sending its command byte panics the accept
      loop, and the next client, a valid download request, is never served. */
  method ClosedClientStopsServer() returns (first: ConnectionOutcome, second: ConnectionOutcome)
    ensures first == DispatchPanicked("not implemented")
    ensures second == LoopStopped
  {
    var server := NewTestServer();
    var none: seq<nat> := [];
    assert Sum(none) == 0;
    var sleeps;
    first, sleeps := server.HandleIncomingConnection(Connection(0), none, None, EndOfStream);
    assert sleeps == 0 && none[..0] == none;
    assert DetermineHandler(server.handlers, EndOfStream) == Halted("not implemented");
    second, sleeps := server.HandleIncomingConnection(Connection(1), none, None, CommandByte(1));
  }
}
