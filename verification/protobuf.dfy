/** Length-prefixed protobuf frames on a byte stream: a little-endian u32
    size, then that many payload bytes. The stream is the byte sequence
    still to be read; decoding a payload is a parameter. */
module Protobuf {
  import opened Common

  type byte = x: int | 0 <= x < 256

  const KB: nat := 1024
  /** Bytes of the size prefix, `size_of::<u32>()`. */
  const PrefixLen: nat := 4
  /** Frames of this size or more fail the reader's assertion. */
  const MaxFrameSize: nat := 10 * KB

  /** What `read_bytes_next` does: nothing there, exactly `len` bytes, or a
      short read, on which the process exits. */
  datatype Chunk = Eof | Got(bytes: seq<byte>, rest: seq<byte>) | ShortRead

  /** `read_bytes_next`: take up to `len` bytes of the stream. */
  function ReadBytesNext(src: seq<byte>, len: nat): (r: Chunk)
    ensures r == Eof <==> len == 0 || |src| == 0
    ensures r.ShortRead? <==> 0 < |src| < len
    ensures r.Got? ==> |r.bytes| == len && r.bytes + r.rest == src
  {
    var got := if len <= |src| then len else |src|;
    if got == 0 then Eof
    else if got == len then
      assert src[..len] + src[len..] == src;
      Got(src[..len], src[len..])
    else ShortRead
  }

  /** `get_u32_le`: four bytes, least significant first. */
  function U32Le(b: seq<byte>): (n: nat)
    requires |b| == 4
    ensures n < 0x1_0000_0000
  {
    b[0] as int + 0x100 * (b[1] as int) + 0x1_0000 * (b[2] as int) + 0x100_0000 * (b[3] as int)
  }

  function EncodeU32Le(n: nat): (b: seq<byte>)
    requires n < 0x1_0000_0000
    ensures |b| == 4
  {
    [n % 0x100, (n / 0x100) % 0x100, (n / 0x1_0000) % 0x100, n / 0x100_0000]
  }

  lemma DecodeEncodeU32(n: nat)
    requires n < 0x1_0000_0000
    ensures U32Le(EncodeU32Le(n)) == n
  {
    var q1 := n / 0x100;
    var q2 := q1 / 0x100;
    assert n == n % 0x100 + 0x100 * q1;
    assert q1 == q1 % 0x100 + 0x100 * q2;
    assert q2 == q2 % 0x100 + 0x100 * (q2 / 0x100);
    assert n / 0x1_0000 == q2;
    assert n / 0x100_0000 == q2 / 0x100;
  }

  lemma EncodeDecodeU32(b: seq<byte>)
    requires |b| == 4
    ensures EncodeU32Le(U32Le(b)) == b
  {
    var n := U32Le(b);
    var q2 := b[2] as int + 0x100 * (b[3] as int);
    var q1 := b[1] as int + 0x100 * q2;
    assert n == b[0] as int + 0x100 * q1;
    DigitOf(b[0], q1);
    DigitOf(b[1], q2);
    DigitOf(b[2], b[3]);
    assert n / 0x1_0000 == q2 by {
      assert n / 0x1_0000 == (n / 0x100) / 0x100;
    }
    assert n / 0x100_0000 == b[3] by {
      assert n / 0x100_0000 == (n / 0x1_0000) / 0x100;
    }
  }

  /** The low digit and the rest of a base-256 number. */
  lemma DigitOf(d: byte, q: nat)
    ensures (d + 0x100 * q) % 0x100 == d && (d + 0x100 * q) / 0x100 == q
  {
  }

  datatype AbortReason =
    | TruncatedPrefix          // 1 to 3 bytes where the prefix should be
    | Oversize(size: nat)      // the size assertion
    | MissingPayload           // the payload read finds nothing (a zero size, or
                               // the stream ends after the prefix): unwrap of `None`
    | TruncatedPayload         // some, but fewer payload bytes than announced

  /** The outcomes of `pb_read_next`: end of stream, a decoded frame with the
      bytes it took, the decoder's error, or the process ending. */
  datatype FrameResult<T> =
    | EndOfStream
    | Frame(message: T, bytesRead: nat, rest: seq<byte>)
    | DecodeError(error: string)
    | Abort(reason: AbortReason)

  /** `pb_read_next`. */
  function PbReadNext<T>(src: seq<byte>, decode: seq<byte> -> Result<T, string>): (r: FrameResult<T>)
    ensures r.EndOfStream? <==> |src| == 0
    ensures 0 < |src| < PrefixLen ==> r == Abort(TruncatedPrefix)
    ensures |src| >= PrefixLen && U32Le(src[..PrefixLen]) >= MaxFrameSize ==>
              r == Abort(Oversize(U32Le(src[..PrefixLen])))
    ensures |src| >= PrefixLen && U32Le(src[..PrefixLen]) == 0 ==> r == Abort(MissingPayload)
    ensures |src| == PrefixLen && U32Le(src[..PrefixLen]) < MaxFrameSize ==> r == Abort(MissingPayload)
    ensures PrefixLen < |src| < PrefixLen + U32Le(src[..PrefixLen]) && U32Le(src[..PrefixLen]) < MaxFrameSize ==>
              r == Abort(TruncatedPayload)
    ensures r.Frame? ==>
              var size := U32Le(src[..PrefixLen]);
              0 < size < MaxFrameSize && r.bytesRead == PrefixLen + size &&
              PrefixLen + size <= |src| && decode(src[PrefixLen..PrefixLen + size]) == Ok(r.message) &&
              r.rest == src[PrefixLen + size..]
    ensures r.DecodeError? ==>
              var size := U32Le(src[..PrefixLen]);
              PrefixLen + size <= |src| && decode(src[PrefixLen..PrefixLen + size]) == Err(r.error)
    // a complete frame is handed to the decoder, and its answer is the outcome
    ensures |src| >= PrefixLen && 0 < U32Le(src[..PrefixLen]) < MaxFrameSize &&
            PrefixLen + U32Le(src[..PrefixLen]) <= |src| ==>
              var size := U32Le(src[..PrefixLen]);
              var payload := src[PrefixLen..PrefixLen + size];
              (decode(payload).Err? ==> r == DecodeError(decode(payload).error)) &&
              (decode(payload).Ok? ==> r == Frame(decode(payload).value, PrefixLen + size, src[PrefixLen + size..]))
  {
    match ReadBytesNext(src, PrefixLen)
    case Eof => EndOfStream
    case ShortRead => Abort(TruncatedPrefix)
    case Got(sizeBuf, afterPrefix) =>
      var size := U32Le(sizeBuf);
      // `get_u32_le` consumes the whole prefix buffer
      var prefixLeft := |sizeBuf| - PrefixLen;
      if size >= MaxFrameSize then Abort(Oversize(size))
      else
        match ReadBytesNext(afterPrefix, size)
        case Eof => Abort(MissingPayload)
        case ShortRead => Abort(TruncatedPayload)
        case Got(payload, rest) =>
          assert src == sizeBuf + payload + rest;
          assert src[PrefixLen..PrefixLen + size] == payload;
          var bytesRead := PrefixLen + prefixLeft + |payload|;
          match decode(payload)
          case Err(e) => DecodeError(e)
          case Ok(message) => Frame(message, bytesRead, rest)
  }

  /** A frame as the writer lays it out. */
  function EncodeFrame(payload: seq<byte>): (b: seq<byte>)
    requires |payload| < 0x1_0000_0000
    ensures |b| == PrefixLen + |payload| && b[PrefixLen..] == payload
  {
    EncodeU32Le(|payload|) + payload
  }

  /** A well-formed frame followed by anything is read back whole: its
      message, its length plus the prefix, and the stream after it. */
  lemma ReadEncodedFrame<T>(payload: seq<byte>, more: seq<byte>, decode: seq<byte> -> Result<T, string>, m: T)
    requires 0 < |payload| < MaxFrameSize
    requires decode(payload) == Ok(m)
    ensures PbReadNext(EncodeFrame(payload) + more, decode) == Frame(m, PrefixLen + |payload|, more)
  {
    var src := EncodeFrame(payload) + more;
    assert src[..PrefixLen] == EncodeU32Le(|payload|);
    DecodeEncodeU32(|payload|);
    assert src[PrefixLen..] == payload + more;
    assert src[PrefixLen + |payload|..] == more;
    assert src[PrefixLen..PrefixLen + |payload|] == payload;
  }

  /** An announced size of 10 KiB or more ends the process, whatever follows. */
  lemma OversizeAborts<T>(n: nat, more: seq<byte>, decode: seq<byte> -> Result<T, string>)
    requires MaxFrameSize <= n < 0x1_0000_0000
    ensures PbReadNext(EncodeU32Le(n) + more, decode) == Abort(Oversize(n))
  {
    assert (EncodeU32Le(n) + more)[..PrefixLen] == EncodeU32Le(n);
    DecodeEncodeU32(n);
  }
}
