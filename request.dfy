/**
 * The download request grammar: the bytes up to the first `|` are matched
 * against the pattern `filename=([^|]+)\|` and the capture is the file name.
 */
module FileRequest {
  import opened Wrappers
  import opened Bytes

  /** The ASCII bytes of `filename=`. */
  const FilenameKey: seq<byte> := [102, 105, 108, 101, 110, 97, 109, 101, 61]

  type Name = seq<byte>

  /** The bytes a buffered `read_until(b'|')` collects: everything up to and
      including the first `|`, or the whole input when it holds none. */
  function ReadUntilPipe(input: seq<byte>): (buf: seq<byte>)
    ensures buf <= input
    ensures forall k :: 0 <= k < |buf| - 1 ==> buf[k] != Pipe
    ensures |buf| < |input| ==> |buf| > 0 && buf[|buf| - 1] == Pipe
    ensures (exists k :: 0 <= k < |input| && input[k] == Pipe) ==> |buf| > 0 && buf[|buf| - 1] == Pipe
    decreases |input|
  {
    if input == [] then []
    else if input[0] == Pipe then [Pipe]
    else [input[0]] + ReadUntilPipe(input[1..])
  }

  /** Number of consecutive non-`|` bytes of `buf` from index `j` on: the
      greedy `[^|]+` run. */
  function RunLength(buf: seq<byte>, j: nat): (n: nat)
    requires j <= |buf|
    ensures j + n <= |buf|
    ensures forall k :: j <= k < j + n ==> buf[k] != Pipe
    ensures j + n < |buf| ==> buf[j + n] == Pipe
    decreases |buf| - j
  {
    if j == |buf| || buf[j] == Pipe then 0 else 1 + RunLength(buf, j + 1)
  }

  /** The pattern matches at start `i`: the key, a non-empty run, then `|`. */
  predicate MatchesAt(buf: seq<byte>, i: nat) {
    i + |FilenameKey| <= |buf|
    && buf[i..i + |FilenameKey|] == FilenameKey
    && RunLength(buf, i + |FilenameKey|) > 0
    && i + |FilenameKey| + RunLength(buf, i + |FilenameKey|) < |buf|
  }

  /** The leftmost start at or after `from` where the pattern matches. */
  function FirstMatch(buf: seq<byte>, from: nat): (r: Option<nat>)
    ensures r.Some? ==> from <= r.value && MatchesAt(buf, r.value)
    ensures r.Some? ==> forall i :: from <= i < r.value ==> !MatchesAt(buf, i)
    ensures r.None? ==> forall i :: from <= i ==> !MatchesAt(buf, i)
    decreases |buf| - from
  {
    if from >= |buf| then None
    else if MatchesAt(buf, from) then Some(from)
    else FirstMatch(buf, from + 1)
  }

  /** The capture of the leftmost match, as the regex search returns it. */
  function FindFileName(buf: seq<byte>): (r: Option<Name>)
    ensures r.Some? ==> |r.value| > 0 && forall k :: 0 <= k < |r.value| ==> r.value[k] != Pipe
  {
    match FirstMatch(buf, 0)
    case None => None
    case Some(i) =>
      var j := i + |FilenameKey|;
      Some(buf[j..j + RunLength(buf, j)])
  }

  /** `buf` holds `filename=`, then the name `buf[i + 9..e]` of non-`|`
      bytes, non-empty, then `|` at `e`: the grammar, stated without search. */
  ghost predicate NameAt(buf: seq<byte>, i: int, e: int) {
    0 <= i && i + |FilenameKey| < e < |buf|
    && buf[i..i + |FilenameKey|] == FilenameKey
    && buf[e] == Pipe
    && forall k :: i + |FilenameKey| <= k < e ==> buf[k] != Pipe
  }

  /** The search finds a name exactly when the grammar occurs somewhere in the
      buffer, and then it returns the name of the leftmost occurrence. */
  lemma FindFileNameMeetsGrammar(buf: seq<byte>)
    ensures FindFileName(buf).Some? <==> exists i, e :: NameAt(buf, i, e)
    ensures FindFileName(buf).Some? ==>
      exists i, e :: NameAt(buf, i, e) && FindFileName(buf).value == buf[i + |FilenameKey|..e]
        && forall i', e' :: NameAt(buf, i', e') ==> i <= i'
  {
    var key := |FilenameKey|;
    forall i, e | NameAt(buf, i, e)
      ensures MatchesAt(buf, i) && e == i + key + RunLength(buf, i + key)
    {
      // the run cannot stop before e (no `|` there) nor pass it (`|` at e)
    }
    match FirstMatch(buf, 0)
    case None =>
    case Some(i) =>
      var e := i + key + RunLength(buf, i + key);
      assert NameAt(buf, i, e);
  }

  /** What parsing a request buffer yields. */
  datatype ParseResult =
    | FileName(name: Name)
    | NoFileName            // the pattern does not match
    | NotUtf8               // `from_utf8(..).unwrap()` panics

  /** The request parser: the buffer must be UTF-8 (else the worker panics),
      then the leftmost capture is the file name. */
  function ParseRequest(buf: seq<byte>): (r: ParseResult)
    ensures r.NotUtf8? <==> !ValidUtf8(buf)
    ensures r.FileName? ==> FindFileName(buf) == Some(r.name)
    ensures r.NoFileName? ==> ValidUtf8(buf) && FindFileName(buf).None?
  {
    if !ValidUtf8(buf) then NotUtf8
    else match FindFileName(buf)
      case None => NoFileName
      case Some(name) => FileName(name)
  }

  /** A parsed name is never empty, never holds `|`, and is itself valid
      UTF-8, so it is a well-formed string. */
  lemma ParsedNameIsWellFormed(buf: seq<byte>)
    requires ParseRequest(buf).FileName?
    ensures var name := ParseRequest(buf).name;
      |name| > 0 && Pipe !in name && ValidUtf8(name)
  {
    var i := FirstMatch(buf, 0).value;
    var j := i + |FilenameKey|;
    var name := buf[j..j + RunLength(buf, j)];
    assert FindFileName(buf) == Some(name);
    CaptureIsUtf8(buf, i);
    assert ValidUtf8(name);
  }

  /** The capture of a match in a valid buffer is valid: it sits between the
      ASCII `=` that ends the key and the ASCII `|`. */
  lemma CaptureIsUtf8(buf: seq<byte>, i: nat)
    requires ValidUtf8(buf) && MatchesAt(buf, i)
    ensures ValidUtf8(buf[i + |FilenameKey|..i + |FilenameKey| + RunLength(buf, i + |FilenameKey|)])
  {
    KeyEndsWithEquals(buf, i);
    Utf8BetweenAscii(buf, i + |FilenameKey|, i + |FilenameKey| + RunLength(buf, i + |FilenameKey|));
  }

  /** The byte before a match's capture is the key's `=`. */
  lemma KeyEndsWithEquals(buf: seq<byte>, i: nat)
    requires MatchesAt(buf, i)
    ensures buf[i + |FilenameKey| - 1] == 61
  {
    assert buf[i..i + |FilenameKey|][8] == buf[i + 8];
  }

  /** The request a client sends, `filename=<name>|` followed by anything, is
      read up to its `|` and parsed back to exactly `<name>`. */
  lemma RequestRoundTrip(name: Name, rest: seq<byte>)
    requires |name| > 0 && Pipe !in name && ValidUtf8(name)
    ensures ReadUntilPipe(FilenameKey + name + [Pipe] + rest) == FilenameKey + name + [Pipe]
    ensures ParseRequest(ReadUntilPipe(FilenameKey + name + [Pipe] + rest)) == FileName(name)
  {
    var head := FilenameKey + name;
    assert FilenameKey + name + [Pipe] + rest == head + [Pipe] + rest;
    KeyThenNameHasNoPipe(name);
    ReadsThroughHead(head, rest);
    FindsRequestedName(name);
    RequestIsUtf8(name);
  }

  lemma KeyThenNameHasNoPipe(name: Name)
    requires Pipe !in name
    ensures Pipe !in FilenameKey + name
  {
    var head := FilenameKey + name;
    forall k | 0 <= k < |head| ensures head[k] != Pipe {
      if k >= |FilenameKey| {
        assert head[k] == name[k - |FilenameKey|];
      }
    }
  }

  lemma RequestIsUtf8(name: Name)
    requires ValidUtf8(name)
    ensures ValidUtf8(FilenameKey + name + [Pipe])
  {
    AsciiIsUtf8(FilenameKey);
    AsciiIsUtf8([Pipe]);
    Utf8Concat(FilenameKey, name);
    Utf8Concat(FilenameKey + name, [Pipe]);
  }

  /** The search over `filename=<name>|` captures `<name>`. */
  lemma FindsRequestedName(name: Name)
    requires |name| > 0 && Pipe !in name
    ensures FindFileName(FilenameKey + name + [Pipe]) == Some(name)
  {
    var buf := FilenameKey + name + [Pipe];
    var e := |FilenameKey| + |name|;
    assert buf[..|FilenameKey|] == FilenameKey;
    assert buf[|FilenameKey|..e] == name;
    assert buf[e] == Pipe;
    RunThroughName(buf, |FilenameKey|, e);
    assert MatchesAt(buf, 0);
  }

  /** Reading up to `|` stops right after the first one. */
  lemma {:induction false} ReadsThroughHead(head: seq<byte>, rest: seq<byte>)
    requires Pipe !in head
    ensures ReadUntilPipe(head + [Pipe] + rest) == head + [Pipe]
    decreases |head|
  {
    if head == [] {
      assert (head + [Pipe] + rest)[0] == Pipe;
    } else {
      assert (head + [Pipe] + rest)[1..] == head[1..] + [Pipe] + rest;
      ReadsThroughHead(head[1..], rest);
      assert [head[0]] + (head[1..] + [Pipe]) == head + [Pipe];
    }
  }

  /** The greedy run from `j` ends at the `|` at index `e`. */
  lemma {:induction false} RunThroughName(buf: seq<byte>, j: nat, e: nat)
    requires j <= e < |buf| && buf[e] == Pipe
    requires forall k :: j <= k < e ==> buf[k] != Pipe
    ensures RunLength(buf, j) == e - j
    decreases e - j
  {
    if j < e {
      RunThroughName(buf, j + 1, e);
    }
  }
}
