/**
 * The statistics subsystem: choosing the most-downloaded file, the push
 * message `[active][name length][name][count]`, the registry of subscribed
 * connections and one round of the broadcast loop.
 */
module Statistics {
  import opened Wrappers
  import opened Bytes
  import opened FileRequest
  import opened UsageTracking
  import opened Gate

  /** The ASCII bytes of `no files`, the name reported while no file has a
      positive count. */
  const NoFiles: Name := [110, 111, 32, 102, 105, 108, 101, 115]

  /** `(name, count)` is a possible outcome of the scan for the most-downloaded
      file: `count` is the largest count (and at least 0), `name` holds it, and
      a zero maximum reports `no files`. Which of several tied names is
      reported depends on the map's iteration order. */
  ghost predicate IsMostDownloaded(counts: map<Name, int>, name: Name, count: int) {
    && count >= 0
    && (forall file :: file in counts ==> counts[file] <= count)
    && (count == 0 ==> name == NoFiles)
    && (count > 0 ==> name in counts && counts[name] == count)
  }

  /** The scan: a running maximum starting at 0 and `no files`, replaced only
      by a strictly greater count; the map is visited in an unspecified order. */
  method MostDownloaded(counts: map<Name, int>) returns (name: Name, count: int)
    ensures IsMostDownloaded(counts, name, count)
  {
    name, count := NoFiles, 0;
    var unvisited := counts.Keys;
    while unvisited != {}
      invariant unvisited <= counts.Keys
      invariant count >= 0
      invariant forall file :: file in counts && file !in unvisited ==> counts[file] <= count
      invariant count == 0 ==> name == NoFiles
      invariant count > 0 ==> name in counts && counts[name] == count
      decreases unvisited
    {
      var file :| file in unvisited;
      if counts[file] > count {
        count := counts[file];
        name := file;
      }
      unvisited := unvisited - {file};
    }
  }

  /** Ties only change the name: every outcome of the scan has the same count. */
  lemma MostDownloadedCountIsUnique(counts: map<Name, int>, n1: Name, c1: int, n2: Name, c2: int)
    requires IsMostDownloaded(counts, n1, c1) && IsMostDownloaded(counts, n2, c2)
    ensures c1 == c2
  {
  }

  lemma {:induction false} RepeatOccurrences(name: Name, k: nat)
    ensures Occurrences(seq(k, _ => name), name) == k
  {
    if k > 0 {
      assert seq(k, _ => name)[..k - 1] == seq(k - 1, _ => name);
      RepeatOccurrences(name, k - 1);
    }
  }

  /** After `k >= 1` downloads of one file and no others, the scan reports that
      file with count `k`. */
  lemma RepeatedDownloadsReported(file: Name, k: nat, name: Name, count: int)
    requires k >= 1
    requires IsMostDownloaded(Tally(seq(k, _ => file)), name, count)
    ensures name == file && count == k
  {
    var opens := seq(k, _ => file);
    assert opens[0] == file;
    TallyCountsOpens(opens, file);
    RepeatOccurrences(file, k);
    forall other | other in Tally(opens) ensures other == file {
      TallyCountsOpens(opens, other);
    }
  }

  /** The values one push message reports, before they are cut to bytes. */
  datatype StatsMessage = StatsMessage(active: int, fileName: Name, count: int)

  /** The four writes of one push: active connections, name length, name and
      count, each number cut to its low eight bits. */
  function StatsWrites(m: StatsMessage): (writes: seq<seq<byte>>)
    ensures |writes| == 4
  {
    [[Truncate8(m.active)], [Truncate8(|m.fileName|)], m.fileName, [Truncate8(m.count)]]
  }

  function Flatten(writes: seq<seq<byte>>): seq<byte> {
    if writes == [] then [] else writes[0] + Flatten(writes[1..])
  }

  /** The push message on the wire: `[active][name length][name][count]`. */
  function EncodeStats(m: StatsMessage): (bytes: seq<byte>)
    ensures |bytes| == |m.fileName| + 3
  {
    [Truncate8(m.active), Truncate8(|m.fileName|)] + m.fileName + [Truncate8(m.count)]
  }

  /** The four writes, back to back, are the message. */
  lemma WritesFormMessage(m: StatsMessage)
    ensures Flatten(StatsWrites(m)) == EncodeStats(m)
  {
    var w := StatsWrites(m);
    var w1 := w[1..];
    var w2 := w1[1..];
    var w3 := w2[1..];
    assert w3[1..] == [];
    assert Flatten(w3) == w[3] + [];
    assert Flatten(w2) == w[2] + w[3];
    assert Flatten(w1) == w[1] + w[2] + w[3];
    assert Flatten(w) == w[0] + w[1] + w[2] + w[3];
  }

  /** The message as a subscriber reads it back. */
  datatype WireStats = WireStats(active: byte, fileName: Name, count: byte)

  /** A subscriber's reading of one message from the front of `bytes`: one
      byte, a length byte, that many name bytes and a count byte; the rest of
      the stream is returned. */
  function DecodeStats(bytes: seq<byte>): Option<(WireStats, seq<byte>)> {
    if |bytes| < 2 || |bytes| < 3 + bytes[1] as int then None
    else
      var n: int := bytes[1];
      Some((WireStats(bytes[0], bytes[2..2 + n], bytes[2 + n]), bytes[3 + n..]))
  }

  /** A name shorter than 256 bytes comes back intact; the numbers come back
      reduced modulo 256 (so 256 downloads read as 0). */
  lemma StatsRoundTrip(m: StatsMessage, rest: seq<byte>)
    requires |m.fileName| < 256
    ensures DecodeStats(EncodeStats(m) + rest)
         == Some((WireStats(m.active % 256, m.fileName, m.count % 256), rest))
  {
    var bytes := EncodeStats(m) + rest;
    var n := |m.fileName|;
    assert bytes[1] == n;
    assert bytes[2..2 + n] == m.fileName;
    assert bytes[3 + n..] == rest;
  }

  /** A name of 256 bytes or more does not fit the length byte: the reader
      takes only the first `length mod 256` bytes as the name. */
  lemma LongNameIsCut(m: StatsMessage)
    requires |m.fileName| >= 256
    ensures DecodeStats(EncodeStats(m)).Some?
    ensures DecodeStats(EncodeStats(m)).value.0.fileName == m.fileName[..|m.fileName| % 256]
    ensures DecodeStats(EncodeStats(m)).value.0.fileName != m.fileName
  {
    var bytes := EncodeStats(m);
    var n := |m.fileName| % 256;
    assert bytes[2..2 + n] == m.fileName[..n];
  }

  /** A subscriber's connection handle. */
  datatype Connection = Connection(peer: nat)

  /** Subscriber ids start at 0 and are never decreased, so they are natural
      numbers. */
  type ConnectionId = nat

  /** Which of the four writes to a subscriber fails first. */
  type WriteNumber = w: nat | w < 4

  /** The bytes a subscriber receives of message `m` when the writes listed in
      `failures` fail: everything before its first failing write. */
  function Received(m: StatsMessage, failures: map<ConnectionId, WriteNumber>, id: ConnectionId): seq<byte> {
    Flatten(StatsWrites(m)[..if id in failures then failures[id] else 4])
  }

  /** A subscriber none of whose writes fail receives the whole message, what
      ever happens to the other subscribers. */
  lemma HealthySubscriberGetsMessage(m: StatsMessage, failures: map<ConnectionId, WriteNumber>, id: ConnectionId)
    requires id !in failures
    ensures Received(m, failures, id) == EncodeStats(m)
  {
    assert StatsWrites(m)[..4] == StatsWrites(m);
    WritesFormMessage(m);
  }

  /** The connections subscribed to statistics, by connection id. */
  class SubscriberRegistry {
    var subscribers: map<ConnectionId, Connection>

    constructor ()
      ensures subscribers == map[]
    {
      subscribers := map[];
    }

    method Insert(id: ConnectionId, conn: Connection)
      modifies this
      ensures subscribers == old(subscribers)[id := conn]
    {
      subscribers := subscribers[id := conn];
    }

    method Remove(id: ConnectionId)
      modifies this
      ensures subscribers == old(subscribers) - {id}
    {
      subscribers := subscribers - {id};
    }
  }

  /** Writing message `m` to each subscriber in `ids`, in an unspecified
      order: a subscriber whose write fails gets no further writes and is
      listed as dead; the others receive the whole message. */
  method WriteToSubscribers(ids: set<ConnectionId>, m: StatsMessage, failures: map<ConnectionId, WriteNumber>)
    returns (delivered: map<ConnectionId, seq<byte>>, dead: seq<ConnectionId>)
    ensures delivered.Keys == ids
    ensures forall id :: id in delivered ==> delivered[id] == Received(m, failures, id)
    ensures forall id :: id in dead <==> id in ids && id in failures
  {
    dead := [];
    delivered := map[];
    var unvisited := ids;
    while unvisited != {}
      invariant unvisited <= ids
      invariant delivered.Keys == ids - unvisited
      invariant forall id :: id in delivered ==> delivered[id] == Received(m, failures, id)
      invariant forall id :: id in dead ==> id in delivered && id in failures
      invariant forall id :: id in delivered && id in failures ==> id in dead
      decreases unvisited
    {
      var id :| id in unvisited;
      delivered := delivered[id := Received(m, failures, id)];
      if id in failures {
        dead := dead + [id];
      }
      unvisited := unvisited - {id};
    }
  }

  /** One round of the broadcast loop: the load is `maxConnectionsAllowed`
      minus the free slots, the most-downloaded file is chosen, the message is
      written to every subscriber, and afterwards exactly the subscribers with
      a failing write are removed. */
  method SendStats(gate: AdmissionGate, fileStat: UsageTracker, registry: SubscriberRegistry,
                   maxConnectionsAllowed: int, failures: map<ConnectionId, WriteNumber>)
    returns (message: StatsMessage, delivered: map<ConnectionId, seq<byte>>)
    modifies registry
    ensures message.active == maxConnectionsAllowed - gate.free
    ensures IsMostDownloaded(fileStat.counts, message.fileName, message.count)
    ensures delivered.Keys == old(registry.subscribers).Keys
    ensures forall id :: id in delivered ==> delivered[id] == Received(message, failures, id)
    ensures registry.subscribers == old(registry.subscribers) - failures.Keys
  {
    var poolSize := gate.free;
    var name, count := MostDownloaded(fileStat.counts);
    message := StatsMessage(maxConnectionsAllowed - poolSize, name, count);
    var dead;
    delivered, dead := WriteToSubscribers(registry.subscribers.Keys, message, failures);

    var i := 0;
    ghost var removed: set<ConnectionId> := {};
    while i < |dead|
      invariant i <= |dead|
      invariant forall x :: x in removed <==> x in dead[..i]
      invariant registry.subscribers == old(registry.subscribers) - removed
    {
      assert dead[..i + 1] == dead[..i] + [dead[i]];
      registry.Remove(dead[i]);
      removed := removed + {dead[i]};
      i := i + 1;
    }
    assert dead[..i] == dead;
    assert removed == old(registry.subscribers).Keys * failures.Keys;
  }
}
