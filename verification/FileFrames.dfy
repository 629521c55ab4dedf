/** The binary chunk frame that the server and the agent exchange: backend/src/files.rs. */
module FileFrames {
  import opened Wrappers

  newtype Byte = x: int | 0 <= x < 256

  type Bytes = seq<Byte>

  const CHUNK_SIZE: nat := 256 * 1024
  const FRAME_KIND_FILE_CHUNK_V1: Byte := 1
  const FRAME_HEADER_BYTES: nat := 1 + 16 + 8
  const TWO_64: nat := 0x1_0000_0000_0000_0000

  /** A request id is a UUID, given by its sixteen bytes. */
  type RequestId = id: Bytes | |id| == 16 witness seq(16, _ => 0)

  datatype Chunk = Chunk(id: RequestId, sequence: nat, data: Bytes)

  /** The big-endian form of n in `width` bytes. */
  function BigEndian(n: nat, width: nat): (bytes: Bytes)
    ensures |bytes| == width
  {
    if width == 0 then [] else BigEndian(n / 256, width - 1) + [(n % 256) as Byte]
  }

  function FromBigEndian(bytes: Bytes): nat {
    if bytes == [] then 0 else 256 * FromBigEndian(bytes[..|bytes| - 1]) + bytes[|bytes| - 1] as nat
  }

  function Bound(width: nat): nat {
    if width == 0 then 1 else 256 * Bound(width - 1)
  }

  lemma {:induction false} NumberSurvives(n: nat, width: nat)
    requires n < Bound(width)
    ensures FromBigEndian(BigEndian(n, width)) == n
  {
    if width > 0 {
      NumberSurvives(n / 256, width - 1);
      var bytes := BigEndian(n, width);
      assert bytes[..width - 1] == BigEndian(n / 256, width - 1);
    }
  }

  lemma {:induction false} BytesSurvive(bytes: Bytes)
    ensures FromBigEndian(bytes) < Bound(|bytes|)
    ensures BigEndian(FromBigEndian(bytes), |bytes|) == bytes
  {
    if bytes == [] {
    } else {
      BytesSurvive(bytes[..|bytes| - 1]);
      assert FromBigEndian(bytes) / 256 == FromBigEndian(bytes[..|bytes| - 1]);
      assert bytes == bytes[..|bytes| - 1] + [bytes[|bytes| - 1]];
    }
  }

  lemma EightBytes()
    ensures Bound(8) == TWO_64
  {
    assert Bound(4) == 0x1_0000_0000;
  }

  lemma OneMoreByte(bytes: Bytes, k: nat)
    requires k < |bytes|
    ensures FromBigEndian(bytes[..k + 1]) == 256 * FromBigEndian(bytes[..k]) + bytes[k] as nat
  {
    assert bytes[..k + 1][..k] == bytes[..k];
  }

  /** The most significant byte comes first. */
  lemma EightBytesAdd(b: Bytes)
    requires |b| == 8
    ensures FromBigEndian(b) == 0x100_0000_0000_0000 * b[0] as nat + 0x1_0000_0000_0000 * b[1] as nat + 0x100_0000_0000 * b[2] as nat
                                + 0x1_0000_0000 * b[3] as nat + 0x100_0000 * b[4] as nat + 0x1_0000 * b[5] as nat
                                + 0x100 * b[6] as nat + b[7] as nat
  {
    assert b[..8] == b;
    OneMoreByte(b, 0);
    OneMoreByte(b, 1);
    OneMoreByte(b, 2);
    OneMoreByte(b, 3);
    OneMoreByte(b, 4);
    OneMoreByte(b, 5);
    OneMoreByte(b, 6);
    OneMoreByte(b, 7);
  }

  function Layout(c: Chunk): Bytes {
    [FRAME_KIND_FILE_CHUNK_V1] + c.id + BigEndian(c.sequence, 8) + c.data
  }

  /** encode_chunk_frame */
  method Encode(id: RequestId, sequence: nat, data: Bytes) returns (frame: Option<Bytes>)
    ensures frame == if |data| > CHUNK_SIZE then None else Some(Layout(Chunk(id, sequence, data)))
    ensures frame.Some? <==> |data| <= 262144
    ensures frame.Some? ==>
              var f := frame.value;
              && |f| == 25 + |data| && f[0] == 1 && f[1..17] == id && f[25..] == data
              && (sequence < 0x1_0000_0000_0000_0000 ==>
                    sequence == 0x100_0000_0000_0000 * f[17] as nat + 0x1_0000_0000_0000 * f[18] as nat + 0x100_0000_0000 * f[19] as nat
                                + 0x1_0000_0000 * f[20] as nat + 0x100_0000 * f[21] as nat + 0x1_0000 * f[22] as nat
                                + 0x100 * f[23] as nat + f[24] as nat)
  {
    if |data| > CHUNK_SIZE {
      return None;
    }
    var bytes := [FRAME_KIND_FILE_CHUNK_V1];
    bytes := bytes + id;
    bytes := bytes + BigEndian(sequence, 8);
    bytes := bytes + data;
    frame := Some(bytes);
    EightBytes();
    if sequence < TWO_64 {
      NumberSurvives(sequence, 8);
      EightBytesAdd(BigEndian(sequence, 8));
    }
    assert bytes[17..25] == BigEndian(sequence, 8);
  }

  /** decode_chunk_frame */
  function Decode(frame: Bytes): Option<Chunk> {
    if |frame| < FRAME_HEADER_BYTES || frame[0] != FRAME_KIND_FILE_CHUNK_V1 || |frame| - FRAME_HEADER_BYTES > CHUNK_SIZE then None
    else Some(Chunk(frame[1..17], FromBigEndian(frame[17..25]), frame[FRAME_HEADER_BYTES..]))
  }

  /** The decoder recovers what was put in. */
  lemma DecodeInvertsEncode(c: Chunk)
    requires c.sequence < TWO_64
    ensures Decode(Layout(c)) == if |c.data| <= 262144 then Some(c) else None
  {
    var frame := Layout(c);
    EightBytes();
    NumberSurvives(c.sequence, 8);
    assert frame[1..17] == c.id;
    assert frame[17..25] == BigEndian(c.sequence, 8);
    assert frame[FRAME_HEADER_BYTES..] == c.data;
  }

  /** It accepts nothing but what the encoder produces. */
  lemma EncodeInvertsDecode(frame: Bytes)
    requires Decode(frame).Some?
    ensures var c := Decode(frame).value; Layout(c) == frame && c.sequence < TWO_64 && |c.data| <= CHUNK_SIZE
  {
    EightBytes();
    BytesSurvive(frame[17..25]);
    assert frame == [frame[0]] + frame[1..17] + frame[17..25] + frame[25..];
  }
}
