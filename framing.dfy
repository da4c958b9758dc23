/**
 * The Chrome Native Messaging frame the helper binary writes to its standard
 * output: a 4-byte little-endian unsigned length, then exactly that many bytes
 * of UTF-8 JSON. The add-on accepts lengths from 1 to 10,000,000.
 */
module Framing {
  import opened Wrappers

  /** An octet of the helper's output. */
  newtype byte = x: int | 0 <= x < 0x100

  /** Largest message the decoder accepts, in bytes. */
  const MaxMessageLength: nat := 10_000_000

  /** `struct.unpack('<I', b)[0]`. */
  function LE32(b: seq<byte>): (n: nat)
    requires |b| == 4
    ensures n < 0x1_0000_0000
  {
    b[0] as nat + 0x100 * (b[1] as nat + 0x100 * (b[2] as nat + 0x100 * (b[3] as nat)))
  }

  /** `struct.pack('<I', n)`. */
  function LE32Bytes(n: nat): (b: seq<byte>)
    requires n < 0x1_0000_0000
    ensures |b| == 4 && LE32(b) == n
  {
    var m1 := n / 0x100;
    var m2 := m1 / 0x100;
    var m3 := m2 / 0x100;
    [(n % 0x100) as byte, (m1 % 0x100) as byte, (m2 % 0x100) as byte, m3 as byte]
  }

  /** The length prefix is determined by the length it encodes. */
  lemma {:induction false} LE32Injective(b: seq<byte>)
    requires |b| == 4
    ensures LE32Bytes(LE32(b)) == b
  {
    var m2 := b[2] as nat + 0x100 * (b[3] as nat);
    var m1 := b[1] as nat + 0x100 * m2;
    var n := b[0] as nat + 0x100 * m1;
    assert n == LE32(b);
    assert n / 0x100 == m1 && n % 0x100 == b[0] as nat;
    assert m1 / 0x100 == m2 && m1 % 0x100 == b[1] as nat;
    assert m2 / 0x100 == b[3] as nat && m2 % 0x100 == b[2] as nat;
  }

  /** The frame for `body`: its length prefix followed by the body itself. */
  function EncodeFrame(body: seq<byte>): (out: seq<byte>)
    requires |body| < 0x1_0000_0000
    ensures |out| == 4 + |body| && out[4..] == body
    ensures LE32(out[..4]) == |body|
  {
    var prefix := LE32Bytes(|body|);
    assert (prefix + body)[..4] == prefix;
    prefix + body
  }

  /**
   * What `_discover_server_endpoint` obtains from the helper's output `out`:
   * the body of the first frame, or `None` when the prefix is incomplete,
   * announces 0 or more than `MaxMessageLength` bytes, or the body is short.
   * Bytes after the body are never read.
   */
  function DecodeFrame(out: seq<byte>): (r: Option<seq<byte>>)
    ensures |out| < 4 ==> r.None?
    ensures r.Some? ==> 0 < |r.value| <= MaxMessageLength
    ensures r.Some? ==> 4 + |r.value| <= |out| && LE32(out[..4]) == |r.value|
    ensures r.Some? ==> out[4..4 + |r.value|] == r.value
  {
    if |out| < 4 then None
    else
      var n := LE32(out[..4]);
      if n <= 0 || n > MaxMessageLength then None
      else if |out| - 4 < n then None
      else Some(out[4..4 + n])
  }

  /** Round trip: the decoder returns exactly the encoded body, whatever follows it. */
  lemma {:induction false} DecodeEncodeFrame(body: seq<byte>, trailing: seq<byte>)
    requires 0 < |body| <= MaxMessageLength
    ensures DecodeFrame(EncodeFrame(body) + trailing) == Some(body)
  {
    var out := EncodeFrame(body) + trailing;
    assert out[..4] == EncodeFrame(body)[..4];
    assert out[4..4 + |body|] == body;
  }

  /** Every accepted output is an encoded frame followed by bytes that were not read. */
  lemma {:induction false} DecodedIsEncoded(out: seq<byte>)
    requires DecodeFrame(out).Some?
    ensures out == EncodeFrame(DecodeFrame(out).value) + out[4 + |DecodeFrame(out).value|..]
  {
    var body := DecodeFrame(out).value;
    LE32Injective(out[..4]);
    assert out[..4] == LE32Bytes(|body|);
    assert out == out[..4] + out[4..4 + |body|] + out[4 + |body|..];
  }

  /** A length of 0 or above the ceiling is rejected whatever bytes follow the prefix. */
  lemma {:induction false} BadLengthRejected(prefix: seq<byte>, rest: seq<byte>)
    requires |prefix| == 4
    requires LE32(prefix) == 0 || LE32(prefix) > MaxMessageLength
    ensures DecodeFrame(prefix + rest) == None
  {
    assert (prefix + rest)[..4] == prefix;
  }

  /** A body shorter than the announced length is rejected. */
  lemma {:induction false} ShortBodyRejected(prefix: seq<byte>, body: seq<byte>)
    requires |prefix| == 4 && |body| < LE32(prefix)
    ensures DecodeFrame(prefix + body) == None
  {
    assert (prefix + body)[..4] == prefix;
  }

  /**
   * The two read loops of `_discover_server_endpoint` over the bytes `stdout`
   * that the helper writes before the 5-second deadline. Each `read` returns a
   * chunk of any size between 1 and the number of bytes still wanted; the
   * outcome does not depend on how the pipe splits the bytes.
   */
  method ReadFrame(stdout: seq<byte>) returns (r: Option<seq<byte>>)
    ensures r == DecodeFrame(stdout)
  {
    var pos := 0;
    var lengthBytes: seq<byte> := [];
    while |lengthBytes| < 4 && pos < |stdout|
      invariant pos <= |stdout| && pos <= 4
      invariant lengthBytes == stdout[..pos]
    {
      var k :| 1 <= k <= 4 - |lengthBytes| && k <= |stdout| - pos;
      lengthBytes := lengthBytes + stdout[pos..pos + k];
      pos := pos + k;
    }
    if |lengthBytes| != 4 {
      return None;
    }
    var messageLength := LE32(lengthBytes);
    if messageLength <= 0 || messageLength > MaxMessageLength {
      return None;
    }
    var jsonBytes: seq<byte> := [];
    while |jsonBytes| < messageLength && pos < |stdout|
      invariant 4 <= pos <= |stdout|
      invariant |jsonBytes| <= messageLength
      invariant jsonBytes == stdout[4..pos]
    {
      var k :| 1 <= k <= messageLength - |jsonBytes| && k <= |stdout| - pos;
      jsonBytes := jsonBytes + stdout[pos..pos + k];
      pos := pos + k;
    }
    if |jsonBytes| != messageLength {
      return None;
    }
    r := Some(jsonBytes);
  }
}
