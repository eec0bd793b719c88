/**
 * The chunked copy loop of the download handler: the file is read through a
 * 1024-byte `take` window and each piece is written to the client, until a
 * read returns no bytes.
 */
module Streaming {
  import opened Wrappers
  import opened Bytes

  /** Largest piece one read of the copy loop returns. */
  const ChunkSize: nat := 1024

  /** An I/O error as the client sees it: its message. */
  datatype IoError = IoError(message: string)

  /** One write the handler attempts on the client's stream: file bytes, or
      the text of an error. A write that fails may deliver part of its bytes
      or none; the model records the attempt. */
  datatype Reply = Data(bytes: seq<byte>) | ErrorText(text: string)

  /** The read of number `at` (counting from 0) fails with `error`. */
  datatype ReadFailure = ReadFailure(at: nat, error: IoError)

  /** What goes wrong while streaming: at most one failing read (it ends the
      loop) and the writes that fail, by chunk number. */
  datatype StreamFaults = StreamFaults(readFailure: Option<ReadFailure>, failedWrites: map<nat, IoError>)

  const NoFaults := StreamFaults(None, map[])

  function Min(a: int, b: int): int {
    if a <= b then a else b
  }

  /** The file bytes a reply carries. */
  function Payload(reply: Reply): seq<byte> {
    match reply
    case Data(bytes) => bytes
    case ErrorText(_) => []
  }

  /** Concatenation of the file bytes among the replies: the file bytes the
      handler tries to write. When no write fails, this is what the client
      receives of the file. */
  function DataBytes(replies: seq<Reply>): seq<byte> {
    if replies == [] then [] else Payload(replies[0]) + DataBytes(replies[1..])
  }

  lemma {:induction false} DataBytesAppend(a: seq<Reply>, b: seq<Reply>)
    ensures DataBytes(a + b) == DataBytes(a) + DataBytes(b)
    decreases |a|
  {
    if a == [] {
      assert a + b == b;
    } else {
      assert (a + b)[1..] == a[1..] + b;
      DataBytesAppend(a[1..], b);
    }
  }

  /** The replies of the copy loop from byte offset `pos`, where the next read
      is number `k`: a failed read reports and stops; an empty read stops;
      otherwise the next piece of at most 1024 bytes is written, a failed
      write is reported, and the loop goes on. */
  function Stream(content: seq<byte>, pos: nat, k: nat, faults: StreamFaults): (replies: seq<Reply>)
    requires pos <= |content|
    ensures forall i :: 0 <= i < |replies| && replies[i].Data? ==> 0 < |replies[i].bytes| <= ChunkSize
    decreases |content| - pos
  {
    if faults.readFailure.Some? && faults.readFailure.value.at == k then
      [ErrorText(faults.readFailure.value.error.message)]
    else if pos == |content| then
      []
    else
      Turn(content, pos, k, faults) + Stream(content, Min(pos + ChunkSize, |content|), k + 1, faults)
  }

  /** The replies of one turn of the loop that reads a piece: the piece, and
      the error text when writing it fails. */
  function Turn(content: seq<byte>, pos: nat, k: nat, faults: StreamFaults): seq<Reply>
    requires pos < |content|
  {
    var piece := Data(content[pos..Min(pos + ChunkSize, |content|)]);
    if k in faults.failedWrites then [piece, ErrorText(faults.failedWrites[k].message)] else [piece]
  }

  /** Offset at which the loop stops sending file bytes when it starts at
      offset `pos` with read number `k`: the end of the file, or the offset
      reached before the failing read. */
  function StopOffset(size: nat, pos: nat, k: nat, faults: StreamFaults): nat {
    if faults.readFailure.Some? && k <= faults.readFailure.value.at then
      Min(pos + ChunkSize * (faults.readFailure.value.at - k), size)
    else size
  }

  /** One turn of the loop: a piece of the file, then the rest. */
  lemma StreamStep(content: seq<byte>, pos: nat, k: nat, faults: StreamFaults)
    requires pos < |content|
    requires !(faults.readFailure.Some? && faults.readFailure.value.at == k)
    ensures DataBytes(Stream(content, pos, k, faults)) ==
      content[pos..Min(pos + ChunkSize, |content|)] + DataBytes(Stream(content, Min(pos + ChunkSize, |content|), k + 1, faults))
  {
    var end := Min(pos + ChunkSize, |content|);
    var rest := Stream(content, end, k + 1, faults);
    var written := Turn(content, pos, k, faults);
    DataBytesAppend(written, rest);
    assert DataBytes(written) == content[pos..end] by {
      if k in faults.failedWrites {
        assert written[1..][1..] == [];
      } else {
        assert written[1..] == [];
      }
    }
  }

  /** One turn of the loop that reads a piece leaves the stopping offset
      where it was. */
  lemma StopOffsetStep(size: nat, pos: nat, k: nat, faults: StreamFaults)
    requires pos < size
    requires !(faults.readFailure.Some? && faults.readFailure.value.at == k)
    ensures StopOffset(size, Min(pos + ChunkSize, size), k + 1, faults) == StopOffset(size, pos, k, faults)
  {
  }

  /** The file bytes the loop tries to write are the file from `pos` on, cut
      where a failing read stops it; failed writes do not stop it. */
  lemma {:induction false} StreamSendsFile(content: seq<byte>, pos: nat, k: nat, faults: StreamFaults)
    requires pos <= |content|
    ensures pos <= StopOffset(|content|, pos, k, faults) <= |content|
    ensures DataBytes(Stream(content, pos, k, faults)) == content[pos..StopOffset(|content|, pos, k, faults)]
    decreases |content| - pos
  {
    if faults.readFailure.Some? && faults.readFailure.value.at == k {
    } else if pos == |content| {
    } else {
      StreamSendsFile(content, Min(pos + ChunkSize, |content|), k + 1, faults);
      SendsFileStep(content, pos, k, faults);
    }
  }

  /** The inductive step of `StreamSendsFile`: from the rest of the loop to
      the loop one turn earlier. */
  lemma SendsFileStep(content: seq<byte>, pos: nat, k: nat, faults: StreamFaults)
    requires pos < |content|
    requires !(faults.readFailure.Some? && faults.readFailure.value.at == k)
    requires var end := Min(pos + ChunkSize, |content|);
      && end <= StopOffset(|content|, end, k + 1, faults) <= |content|
      && DataBytes(Stream(content, end, k + 1, faults)) == content[end..StopOffset(|content|, end, k + 1, faults)]
    ensures pos <= StopOffset(|content|, pos, k, faults) <= |content|
    ensures DataBytes(Stream(content, pos, k, faults)) == content[pos..StopOffset(|content|, pos, k, faults)]
  {
    var end := Min(pos + ChunkSize, |content|);
    StopOffsetStep(|content|, pos, k, faults);
    StreamStep(content, pos, k, faults);
    AdjacentSlices(content, pos, end, StopOffset(|content|, pos, k, faults));
  }

  lemma AdjacentSlices(s: seq<byte>, a: nat, b: nat, c: nat)
    requires a <= b <= c <= |s|
    ensures s[a..b] + s[b..c] == s[a..c]
  {
  }

  /** Without faults the loop sends the whole file, in pieces of exactly 1024
      bytes except a shorter last one, and reports nothing. */
  lemma {:induction false} FaultlessStream(content: seq<byte>, pos: nat, k: nat)
    requires pos <= |content|
    ensures DataBytes(Stream(content, pos, k, NoFaults)) == content[pos..]
    ensures forall i :: 0 <= i < |Stream(content, pos, k, NoFaults)| ==> Stream(content, pos, k, NoFaults)[i].Data?
    ensures forall i :: 0 <= i < |Stream(content, pos, k, NoFaults)| - 1 ==> |Stream(content, pos, k, NoFaults)[i].bytes| == ChunkSize
    decreases |content| - pos
  {
    StreamSendsFile(content, pos, k, NoFaults);
    if pos < |content| {
      FaultlessStream(content, Min(pos + ChunkSize, |content|), k + 1);
    }
  }

  /** The copy loop itself: reads of at most 1024 bytes until one returns
      nothing, each written as it is read; a failed write is reported and the
      loop continues, a failed read is reported and ends the handler. Without
      a failing read the loop tries to write every byte of the file once, in
      order (with no fault at all, `FaultlessStream` shows every write is
      file bytes, so the client receives exactly the file). */
  method StreamFile(content: seq<byte>, faults: StreamFaults) returns (replies: seq<Reply>)
    ensures replies == Stream(content, 0, 0, faults)
    ensures faults.readFailure.None? ==> DataBytes(replies) == content
  {
    var pos: nat, k: nat := 0, 0;
    replies := [];
    while true
      invariant pos <= |content|
      invariant replies + Stream(content, pos, k, faults) == Stream(content, 0, 0, faults)
      decreases |content| - pos
    {
      if faults.readFailure.Some? && faults.readFailure.value.at == k {
        replies := replies + [ErrorText(faults.readFailure.value.error.message)];
        break;
      }
      var end := Min(pos + ChunkSize, |content|);
      var chunk := content[pos..end];
      if |chunk| == 0 {
        assert replies + Stream(content, pos, k, faults) == replies;
        break;
      }
      var written := [Data(chunk)];
      if k in faults.failedWrites {
        written := written + [ErrorText(faults.failedWrites[k].message)];
      }
      assert written == Turn(content, pos, k, faults);
      assert (replies + written) + Stream(content, end, k + 1, faults)
          == replies + (written + Stream(content, end, k + 1, faults));
      replies := replies + written;
      pos, k := end, k + 1;
    }
    StreamSendsFile(content, 0, 0, faults);
  }
}
