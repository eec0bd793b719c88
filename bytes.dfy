/**
 * Bytes as the server sees them: octets, the truncating `as u8` cast of Rust,
 * and well-formed UTF-8 (the check `std::str::from_utf8` performs).
 */
module Bytes {

  type byte = b: int | 0 <= b < 256

  /** The byte `|` that terminates a download request. */
  const Pipe: byte := 124

  /** Rust's `x as u8` on a signed integer keeps the low eight bits of its
      two's-complement form; Dafny's `%` is Euclidean, which gives exactly that. */
  function Truncate8(x: int): (r: byte)
    ensures (x - r) % 256 == 0
    ensures 0 <= x < 256 ==> r == x
  {
    x % 256
  }

  /** A continuation byte 10xxxxxx. */
  predicate IsContinuation(b: byte) {
    0x80 <= b <= 0xBF
  }

  /** Length of the well-formed scalar value that starts `s` (Table 3-7 of the
      Unicode Standard, which is what `from_utf8` accepts), or 0 if `s` does
      not start with one. */
  function ScalarLength(s: seq<byte>): (r: nat)
    requires |s| > 0
    ensures r <= 4 && r <= |s|
    ensures r == 1 <==> s[0] < 0x80
  {
    var b0 := s[0];
    if b0 < 0x80 then 1
    else if 0xC2 <= b0 <= 0xDF then
      if |s| >= 2 && IsContinuation(s[1]) then 2 else 0
    else if b0 == 0xE0 then
      if |s| >= 3 && 0xA0 <= s[1] <= 0xBF && IsContinuation(s[2]) then 3 else 0
    else if 0xE1 <= b0 <= 0xEC || 0xEE <= b0 <= 0xEF then
      if |s| >= 3 && IsContinuation(s[1]) && IsContinuation(s[2]) then 3 else 0
    else if b0 == 0xED then
      if |s| >= 3 && 0x80 <= s[1] <= 0x9F && IsContinuation(s[2]) then 3 else 0
    else if b0 == 0xF0 then
      if |s| >= 4 && 0x90 <= s[1] <= 0xBF && IsContinuation(s[2]) && IsContinuation(s[3]) then 4 else 0
    else if 0xF1 <= b0 <= 0xF3 then
      if |s| >= 4 && IsContinuation(s[1]) && IsContinuation(s[2]) && IsContinuation(s[3]) then 4 else 0
    else if b0 == 0xF4 then
      if |s| >= 4 && 0x80 <= s[1] <= 0x8F && IsContinuation(s[2]) && IsContinuation(s[3]) then 4 else 0
    else 0
  }

  /** The shape of a multi-byte scalar in Table 3-7: a lead byte of at least
      0xC2 followed by continuation bytes. */
  lemma MultiByteScalarShape(s: seq<byte>)
    requires |s| > 0 && ScalarLength(s) > 1
    ensures 0xC2 <= s[0]
    ensures forall k :: 1 <= k < ScalarLength(s) ==> IsContinuation(s[k])
  {
  }

  /** `s` is a sequence of well-formed UTF-8 scalar values. */
  predicate ValidUtf8(s: seq<byte>)
    decreases |s|
  {
    |s| == 0 || (ScalarLength(s) > 0 && ValidUtf8(s[ScalarLength(s)..]))
  }

  /** The scalar length only looks at the scalar's own bytes. */
  lemma ScalarLengthOfPrefix(s: seq<byte>, j: nat)
    requires |s| > 0 && 0 < ScalarLength(s) <= j <= |s|
    ensures ScalarLength(s[..j]) == ScalarLength(s)
  {
  }

  /** Appending bytes never changes the first scalar. */
  lemma ScalarLengthOfExtension(s: seq<byte>, t: seq<byte>)
    requires |s| > 0 && ScalarLength(s) > 0
    ensures ScalarLength(s + t) == ScalarLength(s)
  {
    assert (s + t)[..|s|] == s;
    ScalarLengthOfPrefix(s + t, |s|);
  }

  /** Every ASCII sequence is valid UTF-8. */
  lemma {:induction false} AsciiIsUtf8(s: seq<byte>)
    requires forall k :: 0 <= k < |s| ==> s[k] < 0x80
    ensures ValidUtf8(s)
  {
    if |s| > 0 {
      AsciiIsUtf8(s[1..]);
    }
  }

  /** Concatenating two valid sequences gives a valid sequence. */
  lemma {:induction false} Utf8Concat(a: seq<byte>, b: seq<byte>)
    requires ValidUtf8(a) && ValidUtf8(b)
    ensures ValidUtf8(a + b)
  {
    if |a| > 0 {
      var n := ScalarLength(a);
      ScalarLengthOfExtension(a, b);
      assert (a + b)[n..] == a[n..] + b;
      Utf8Concat(a[n..], b);
    } else {
      assert a + b == b;
    }
  }

  /** Inside a scalar of two or more bytes every byte has its high bit set. */
  lemma InsideScalarIsNotAscii(s: seq<byte>, i: nat)
    requires |s| > 0 && 0 < i < ScalarLength(s)
    ensures s[i] >= 0x80 && s[i - 1] >= 0x80
  {
  }

  /** The tail of a valid sequence after a cut next to an ASCII byte is valid. */
  lemma {:induction false} Utf8SuffixNearAscii(s: seq<byte>, i: nat)
    requires ValidUtf8(s) && i <= |s|
    requires i == 0 || i == |s| || s[i] < 0x80 || s[i - 1] < 0x80
    ensures ValidUtf8(s[i..])
  {
    if i == 0 {
      assert s[i..] == s;
    } else {
      var n := ScalarLength(s);
      if i < n {
        InsideScalarIsNotAscii(s, i);
      }
      var t := s[n..];
      assert t[i - n..] == s[i..];
      if 0 < i - n < |t| {
        assert t[i - n] == s[i] && t[i - n - 1] == s[i - 1];
      }
      Utf8SuffixNearAscii(t, i - n);
    }
  }

  /** The head of a valid sequence before a cut next to an ASCII byte is
      valid. */
  lemma {:induction false} Utf8PrefixNearAscii(s: seq<byte>, i: nat)
    requires ValidUtf8(s) && i <= |s|
    requires i == 0 || i == |s| || s[i] < 0x80 || s[i - 1] < 0x80
    ensures ValidUtf8(s[..i])
  {
    if i > 0 {
      var n := ScalarLength(s);
      if i < n {
        InsideScalarIsNotAscii(s, i);
      }
      var t := s[n..];
      if 0 < i - n < |t| {
        assert t[i - n] == s[i] && t[i - n - 1] == s[i - 1];
      }
      Utf8PrefixNearAscii(t, i - n);
      ScalarLengthOfPrefix(s, i);
      assert s[..i][n..] == t[..i - n];
    }
  }

  /** The bytes strictly between two ASCII bytes of a valid sequence are
      valid. */
  lemma Utf8BetweenAscii(s: seq<byte>, a: nat, b: nat)
    requires ValidUtf8(s) && 0 < a <= b < |s|
    requires s[a - 1] < 0x80 && s[b] < 0x80
    ensures ValidUtf8(s[a..b])
  {
    Utf8SuffixNearAscii(s, a);
    Utf8HeadOfTail(s, a, b);
  }

  /** A valid tail `s[a..]` cut before the ASCII byte at `b` stays valid. */
  lemma Utf8HeadOfTail(s: seq<byte>, a: nat, b: nat)
    requires a <= b < |s| && ValidUtf8(s[a..]) && s[b] < 0x80
    ensures ValidUtf8(s[a..b])
  {
    var tail := s[a..];
    assert tail[b - a] == s[b];
    Utf8PrefixNearAscii(tail, b - a);
    assert tail[..b - a] == s[a..b];
  }
}
