# fileserver connection core, modelled in Dafny

This project models the connection core of `fileserver`. It is a small TCP file server.

- A client sends one command byte. Byte 1 means download and byte 3 means statistics.
- A download client then sends `filename=<name>|`. The server streams that file back in pieces of at most 1024 bytes and counts the download.
- A statistics client is kept as a subscriber. Once per round it receives the server's load and the most-downloaded file with its count.
- A counter of free worker slots limits how many connections are served at once.

The model covers two sources:

- `src/server/server.rs`, the current server.
- `src/server/mod.rs`, an earlier version. It has the same request grammar and copy loop but no tracker, no dispatch and no statistics.

Sockets, files and threads become values:

- The bytes a client sends are a `seq<byte>`.
- The served directory is a map from names to contents.
- Every I/O failure is an explicit parameter: a failing read or write, a failed bind, a failed accept.
- The workers that finish while the accept loop sleeps are a schedule of releases.

The shared objects are classes whose fields the methods update:

- the slot counter (`Gate.AdmissionGate`);
- the usage tracker (`UsageTracking.UsageTracker`);
- the subscriber registry (`Statistics.SubscriberRegistry`);
- the server (`Server.FileServer`, `LegacyServer.LegacyFileServer`).

Ghost fields count the slots held by:

- running download workers;
- statistics subscriptions;
- download workers that panicked, and the accept loop when a panic ended it.

So the counter is tied to who holds each slot. The model shows where slots are given back, and where they never are.

The files:

- `bytes.dfy`: bytes, the `as u8` cast, and UTF-8 validity as `str::from_utf8` checks it.
- `errors.dfy`: the four error kinds and their display.
- `request.dfy`: the `read_until(b'|')` buffer, the `filename=([^|]+)\|` search, and parsing.
- `streaming.dfy`: the 1024-byte copy loop.
- `tracker.dfy`: the usage tracker.
- `gate.dfy`: the slot counter and its barrier.
- `stats.dfy`: the most-downloaded scan, the push message, the subscriber registry and one broadcast round.
- `dispatch.dfy`: the command byte and the handler table.
- `download.dfy`: the download handler.
- `server.dfy`: the server's accept loop, workers and metrics report.
- `scenario.dfy`: the statistics test, replayed on the model.
- `legacy_server.dfy`: the earlier version in `mod.rs`.
- `wrappers.dfy`: `Option` and `Result`.

Facts of the code that the model keeps:

- Every command byte other than 1 and 3 panics the accept loop: byte 2 with "upload not implemented", every other byte with "not implemented" (src/server/server.rs:198-211).
- A client that closes before sending its command byte leaves the one-byte buffer at its initial 0, which panics the same way (src/server/server.rs:191-194).
- A panic on the accept thread ends `handle_incomming_connections`; no later connection is accepted (src/server/server.rs:312-358). The model records this in `acceptLoopStopped`.
- The count byte of the statistics message is `max_count as u8`, the count modulo 256 (src/server/server.rs:266).
- A subscription is stored under `next_id` (src/server/server.rs:333-343), which is set to 0 once (src/server/server.rs:82) and never incremented.
- A failed write of a file piece is reported to the client, and the copy loop goes on with the next piece (src/server/server.rs:158-160).

Properties the model proves about the code as written:

- `next_id` stays 0, so every statistics subscriber is stored under id 0. A new subscriber replaces the previous one, and at most one is ever registered.
- A statistics subscription keeps its slot for good, even after it is removed or replaced. The reported load therefore counts every subscription ever made. This is how the statistics test reads a load of 2: the stalled download plus the subscriber itself.
- Once subscriptions and panics hold every slot, no further connection is ever admitted.
- A worker that panics never gives its slot back. The non-UTF-8 request is one such panic. This holds for the earlier version too: its increment comes after the handler returns, and a panic unwinds past it.

## Model

| member | source | states |
|---|---|---|
| Bytes.Truncate8 | src/server/server.rs:251-266 | the `as u8` cast: the result differs from the input by a multiple of 256 and leaves values in 0..255 unchanged |
| Bytes.ScalarLength | src/server/server.rs:113 | the length of the first UTF-8 scalar per Unicode Table 3-7 (0 when none starts the bytes) is at most 4 and at most the bytes available, and it is 1 exactly for an ASCII byte |
| Bytes.MultiByteScalarShape | src/server/server.rs:113 | a scalar of two or more bytes starts with a lead byte of at least 0xC2 and goes on with continuation bytes |
| ServerErrors.Display | src/server/server.rs:47-63 | the text of an error is its fixed prefix followed by its reason; a read error shows "Client read deadline" whatever its reason |
| ServerErrors.DisplayDistinguishesErrors | src/server/server.rs:47-63 | two errors with the same text are equal, unless both are read errors |
| FileRequest.ReadUntilPipe | src/server/server.rs:105-110 | the buffer is a prefix of the input with no pipe byte before its last byte; it ends in a pipe whenever the input holds one |
| FileRequest.RunLength | src/server/server.rs:34-37 | the greedy run of non-pipe bytes: no pipe inside it, stopped by a pipe or by the end of the buffer |
| FileRequest.FirstMatch | src/server/server.rs:34-37 | the leftmost start of a match of the file-name pattern, or none when no start matches |
| FileRequest.FindFileName | src/server/server.rs:113-124 | a found name is non-empty and holds no pipe |
| FileRequest.FindFileNameMeetsGrammar | src/server/server.rs:34-37 | a name is found exactly when the buffer holds `filename=`, a non-empty run without a pipe, and a pipe; the name is that of the leftmost occurrence |
| FileRequest.ParseRequest | src/server/server.rs:113-124 | a buffer that is not UTF-8 panics; otherwise the result is the found name, or `NoFileName` when the search finds none |
| FileRequest.ParsedNameIsWellFormed | src/server/server.rs:113-124 | a parsed name is non-empty, holds no pipe and is itself valid UTF-8 |
| FileRequest.RequestRoundTrip | src/server/server.rs:105-124 | a client request `filename=`, a name and a pipe, followed by anything, is read up to its pipe and parsed back to exactly that name |
| Streaming.Stream | src/server/server.rs:149-167 | every file piece written holds 1 to 1024 bytes |
| Streaming.StreamSendsFile | src/server/server.rs:149-167 | the file bytes the loop tries to write are the file from the start offset up to where a failing read stops the loop; failed writes do not stop it |
| Streaming.FaultlessStream | src/server/server.rs:149-167 | without failures the loop writes only file pieces, all of 1024 bytes except the last, and they make up the whole file |
| Streaming.StreamFile | src/server/server.rs:149-167 | the copy loop attempts the writes `Stream` describes; without a failing read it tries to write every byte of the file once, in order (what a failed write delivers is not modelled) |
| UsageTracking.Bump | src/server/server.rs:142-147 | the opened name's count goes from c to c+1, or from absent to 1; every other entry is unchanged |
| UsageTracking.TallyCountsOpens | src/server/server.rs:142-147 | after a run of opens, a name is tracked exactly when it was opened, and its count is the number of times it was opened |
| UsageTracking.TallyIsPositive | src/server/server.rs:142-147 | every tracked count is at least 1 |
| UsageTracking.UsageTracker.constructor | src/server/server.rs:84 | the tracker starts empty |
| UsageTracking.UsageTracker.RecordDownload | src/server/server.rs:142-147 | the in-place update is `Bump` and keeps every count positive |
| Gate.AdmissionGate.constructor | src/server/server.rs:77 | the counter starts at the thread count with no slot held |
| Gate.AdmissionGate.FreeWithinCapacity | src/server/server.rs:281-293 | with a non-negative capacity the counter stays between 0 and the capacity |
| Gate.AdmissionGate.FreeThreadBarrier | src/server/server.rs:281-293 | the caller sleeps only while the counter reads 0; it takes a slot (counter minus one) as soon as the counter is not 0, so a negative counter never blocks |
| Gate.AdmissionGate.Release | src/server/server.rs:328-329 | giving a slot back adds one to the counter |
| Statistics.MostDownloaded | src/server/server.rs:235-242 | the scan reports the largest count, at least 0, with a name holding it, or 0 and `no files` when no count is positive |
| Statistics.MostDownloadedCountIsUnique | src/server/server.rs:235-242 | whatever the map's order, every outcome of the scan has the same count |
| Statistics.RepeatedDownloadsReported | src/server/server.rs:235-242 | after k >= 1 downloads of one file and no others, the scan reports that file with count k |
| Statistics.StatsWrites | src/server/server.rs:251-266 | one push is four writes |
| Statistics.EncodeStats | src/server/server.rs:251-266 | the message is three bytes longer than the name |
| Statistics.WritesFormMessage | src/server/server.rs:251-266 | the four writes, back to back, are `[active mod 256][length mod 256] name [count mod 256]` |
| Statistics.StatsRoundTrip | src/server/server.rs:251-266 | a subscriber reads back a name shorter than 256 bytes intact, and the load and count modulo 256 |
| Statistics.LongNameIsCut | src/server/server.rs:256 | a name of 256 bytes or more is read back cut to its length modulo 256 |
| Statistics.HealthySubscriberGetsMessage | src/server/server.rs:251-271 | a subscriber whose writes all succeed receives the whole message |
| Statistics.SubscriberRegistry.constructor | src/server/server.rs:83 | the registry starts empty |
| Statistics.SubscriberRegistry.Insert | src/server/server.rs:333-337 | inserting under an id replaces any connection stored under it |
| Statistics.SubscriberRegistry.Remove | src/server/server.rs:274-277 | removing an id drops exactly that entry |
| Statistics.WriteToSubscribers | src/server/server.rs:244-272 | every subscriber gets the bytes before its first failing write; exactly the subscribers with a failing write are listed as dead |
| Statistics.SendStats | src/server/server.rs:225-279 | one round reports the load as maximum minus free slots and the most-downloaded file; afterwards exactly the subscribers with a failed write are removed and all others remain |
| Dispatch.WireCode | src/server/server.rs:198-211 | the command bytes are 1, 2 and 3 |
| Dispatch.DetermineHandler | src/server/server.rs:177-222 | a read error gives `FailedToParseCommand` with the error's text; 1 and 3 route to the registered handler or give "unsupported command type"; 2 and every other byte, including the 0 of an empty read, panic; Upload is never routed |
| Dispatch.ClientCommandRouted | src/server/server.rs:177-222 | a client asking for a registered Download or Statistics command reaches its handler; a client asking for Upload panics |
| Dispatch.RegisteredKeys | src/server/server.rs:360-375 | a command is in the table after registration exactly when it was there before or is among the registered commands |
| Dispatch.LaterRegistrationWins | src/server/server.rs:360-375 | the last registration of a command sets its handler, whatever was registered for it before |
| Dispatch.UnregisteredKept | src/server/server.rs:360-375 | a command that is not registered keeps the handler it had |
| FileDownload.OpenRequested | src/server/server.rs:105-140 | a read error, a non-UTF-8 buffer, a missing name and a file that does not open are told apart; an opened file is the one the parsed name names |
| FileDownload.FailureSendsNoFileBytes | src/server/server.rs:127-140 | a request that fails before its file opens gets at most one reply, error text, and no file bytes |
| FileDownload.HandleFileRequest | src/server/server.rs:100-168 | the handler panics exactly on a non-UTF-8 request; it leaves the tracker unchanged on every failure and bumps the opened name's count once, before streaming |
| FileDownload.DownloadRoundTrip | src/server/server.rs:105-167 | a client requesting a stored file with nothing failing gets it opened and receives exactly its bytes |
| Server.Serve | src/server/server.rs:318-356 | a routed download spawns a worker running exactly the routed handler, a routed statistics client is subscribed under the given id, a dispatch error is reported with its text, a halted dispatch panics with its own message, and a routed Upload panics with "upload should never be called!" |
| Server.FileServer.constructor | src/server/server.rs:76-85 | a new server has all slots free, no handlers, an empty tracker and registry, and `next_id` 0 |
| Server.FileServer.New | src/server/server.rs:66-87 | a bind failure gives `FailedToInitFTPServer` with its text; otherwise a fresh server as the constructor builds it |
| Server.FileServer.RegisterHandlers | src/server/server.rs:360-375 | the table after the loop is the old table with each pair inserted in order |
| Server.FileServer.HandleIncomingConnection | src/server/server.rs:312-358 | the slot taken by the barrier goes to a download worker, stays with a statistics subscription, is given back on a dispatch error, and is kept for good on a panic; a panic ends the accept loop, after which no connection is accepted and nothing changes; the subscriber is stored under id 0 |
| Server.FileServer.ServeAccepted | src/server/server.rs:318-356 | with a slot taken: an accept error panics, otherwise the dispatch outcome decides; a worker or subscription keeps the slot, a reported error gives it back, a panic keeps it for good and ends the accept loop |
| Server.FileServer.RunWorker | src/server/server.rs:325-330 | a worker runs its handler and gives its slot back, unless the handler panicked |
| Server.FileServer.ReportMetrics | src/server/server.rs:295-310 | the reported load is exactly the running downloads plus every subscription plus the slots lost to panics |
| Server.FileServer.SubscriptionsExhaustSlots | src/server/server.rs:333-343 | once subscriptions and panics hold every slot, the counter stays 0 through any schedule of sleeps |
| Server.FileServer.AtMostOneSubscriber | src/server/server.rs:333-337 | with `next_id` never advanced, at most one subscriber is registered |
| ServerScenarios.NewTestServer | src/server/server.rs:448-468 | the test server: ten free slots, Download registered to the file handler and Statistics to the no-op handler, empty tracker and registry, nothing held, accept loop running |
| ServerScenarios.ServeTestClients | src/server/server.rs:500-513 | the clients of the statistics test: after a stalled download, three finished downloads of the file and one subscriber, one worker runs, one subscription holds a slot, nothing is lost, the file's count is 3 and the subscriber is stored under id 0 |
| ServerScenarios.FinishedDownload | src/server/server.rs:509-511 | one finished download of the test file leaves the free slots unchanged and adds one to its count |
| ServerScenarios.StatisticScenario | src/server/server.rs:491-521 | the statistics test: the subscriber reads load 2, the file name and count 3 |
| ServerScenarios.ClosedClientStopsServer | src/server/server.rs:191-211 | a client that closes before its command byte panics the accept loop with "not implemented", and the next download client is never served |
| LegacyServer.Display | src/server/mod.rs:26-37 | each error kind of the earlier version shows its fixed prefix and reason; a read error ignores its reason |
| LegacyServer.DisplayMatchesLaterVersion | src/server/mod.rs:26-37 | the earlier version shows the same text as the later one for the same error, and distinct errors differ unless both are read errors |
| LegacyServer.ParseIncomingFileRequest | src/server/mod.rs:67-125 | the same grammar and copy loop without counting: a read or parse failure reports before any file is opened, an open failure writes no file bytes, and without a failing read the file bytes it tries to write are the whole file |
| LegacyServer.LegacyFileServer.constructor | src/server/mod.rs:51-56 | the counter starts at the thread count with no slot held |
| LegacyServer.LegacyFileServer.New | src/server/mod.rs:46-58 | a bind failure gives `FailedToInitFTPServer` with its text |
| LegacyServer.LegacyFileServer.HandleIncomingConnection | src/server/mod.rs:127-142 | the loop waits while the counter is 0, then takes one slot and spawns a worker holding it |
| LegacyServer.LegacyFileServer.RunWorker | src/server/mod.rs:143-149 | a worker gives its slot back after its handler returns; one that panics (bad accept or non-UTF-8 request) never does |
| LegacyServer.LegacyFileServer.CounterWithinThreadCount | src/server/mod.rs:130-148 | with a non-negative thread count the counter stays in `[0, thread count]`, and is full exactly when no slot is held |

## Left out

- TCP I/O: binding, accepting, socket reads and writes, and `set_read_timeout`. Client input is a byte sequence, and each failure is a parameter. The unwrap on `set_read_timeout` is not modelled.
- Threads, locks and sleeps:
  - Each worker, subscription and broadcast round is one step in sequence.
  - The 6000 ms and 1000 ms sleeps become a schedule of releases or one round.
  - The write lock held over a whole download is not modelled.
- The infinite loops (`for stream in incoming()` and the broadcast `loop`) are modelled one iteration at a time.
- The regex engine: only the one fixed pattern is modelled, as a leftmost search.
- `src/reader/mod.rs` is not part of this model. Opening a file is a lookup in a map of names to contents, with one error for every other name. The model does not cover path joining under `/tmp` or names holding `/` or `..`.
- Streaming.StreamFile: a `Data` reply is an attempted `write_all`. What a failing write delivers, part of its piece or none, is not modelled, so the file bytes are those the handler tries to write. The client receives them all only when no write fails (`Streaming.FaultlessStream`).
- LegacyServer.LegacyFileServer.RunWorker: the earlier accept loop takes its handler as a parameter (src/server/mod.rs:127); the model runs `parse_incomming_file_request`, the only handler passed to it (src/main.rs:5).
- A panic on the accept thread also ends the process when the loop runs on the main thread (src/bin/main.rs). The model only records that no connection is accepted after it; running workers still finish.
- Statistics.SendStats: each push write is either whole or failing; a partial `write` is not modelled.
- Integer widths:
  - Counters and counts are unbounded, so i32/i64 overflow is not modelled.
  - Only the `as u8` truncation of the push message is modelled.
  - Subscriber ids are naturals, because the only id ever used is 0.
- Logging (`println!`) and the client's own error-report write failing. The client is sent the error text either way.
- The client-side reader of statistics (`Stats::stats_from_stream`) is not part of this model. `Statistics.DecodeStats` stands for the reading the test relies on.
- The order of a `HashMap`'s iteration is left unspecified: the scan and the broadcast take entries in any order.
- `src/bin/main.rs`, `src/main.rs`, `src/lib.rs` and `src/server/types.rs` hold only startup code, re-exports and the command enum (modelled as `Dispatch.CommandType`).

