/** Docker's multiplexed log stream: frames of a type byte, three zero bytes, a
    32-bit big-endian length and a payload. */
module LogFrames {
  import opened Text

  type Byte = n: nat | n < 256
  type Bytes = seq<Byte>

  /** `toString('utf8')`; which text some bytes stand for is left to it. */
  type Decoder = Bytes -> string

  datatype Stream = Stdout | Stderr
  datatype Line = Line(msg: string, stream: Stream)
  datatype Frame = Frame(kind: Byte, payload: Bytes)

  const LIMIT: nat := 0x1_0000_0000

  function ReadUInt32BE(b: Bytes): nat
    requires |b| == 4
  {
    var w: nat, x: nat, y: nat, z: nat := b[0], b[1], b[2], b[3];
    ((w * 256 + x) * 256 + y) * 256 + z
  }

  function WriteUInt32BE(n: nat): Bytes
    requires n < LIMIT
  {
    [n / 0x100_0000, n / 0x1_0000 % 256, n / 256 % 256, n % 256]
  }

  lemma LengthRoundTrip(n: nat)
    requires n < LIMIT
    ensures ReadUInt32BE(WriteUInt32BE(n)) == n
  {
    var a, b := n / 256, n / 0x1_0000;
    assert n == 256 * a + n % 256;
    assert a == 256 * b + a % 256 && b == a / 256;
    assert b == 256 * (b / 256) + b % 256 && n / 0x100_0000 == b / 256;
  }

  predicate Blank(line: string) {
    forall i | 0 <= i < |line| :: IsSpace(line[i])
  }

  function StreamOf(kind: Byte): Stream {
    if kind == 2 then Stderr else Stdout
  }

  /** The lines that are not blank, tagged with their stream. */
  function Tagged(lines: seq<string>, stream: Stream): seq<Line> {
    if lines == [] then []
    else
      var r, line := Tagged(lines[..|lines| - 1], stream), lines[|lines| - 1];
      if Blank(line) then r else r + [Line(line, stream)]
  }

  function LinesOf(decode: Decoder, kind: Byte, payload: Bytes): seq<Line> {
    Tagged(Split(decode(payload), '\n'), StreamOf(kind))
  }

  /** What parsing a buffer gives. */
  function Parse(decode: Decoder, buf: Bytes): seq<Line>
    decreases |buf|
  {
    if |buf| < 8 then []
    else
      var size := ReadUInt32BE(buf[4..8]);
      if 8 + size > |buf| then []
      else LinesOf(decode, buf[0], buf[8..8 + size]) + Parse(decode, buf[8 + size..])
  }

  /** One step of parsing from an offset. */
  lemma ParseAt(decode: Decoder, buf: Bytes, offset: nat)
    requires offset + 8 <= |buf|
    ensures var size := ReadUInt32BE(buf[offset + 4..offset + 8]);
            Parse(decode, buf[offset..]) ==
            if offset + 8 + size > |buf| then []
            else LinesOf(decode, buf[offset], buf[offset + 8..offset + 8 + size]) + Parse(decode,
                buf[offset + 8 + size..])
  {
    hide ReadUInt32BE, LinesOf;
    var rest := buf[offset..];
    assert buf[offset + 4..offset + 8] == rest[4..8];
    var size := ReadUInt32BE(rest[4..8]);
    if offset + 8 + size <= |buf| {
      assert buf[offset + 8..offset + 8 + size] == rest[8..8 + size];
      assert rest[8 + size..] == buf[offset + 8 + size..];
    }
  }

  method PushLines(result: seq<Line>, text: string, stream: Stream) returns (r: seq<Line>)
    ensures r == result + Tagged(Split(text, '\n'), stream)
  {
    r := result;
    var lines := Split(text, '\n');
    for i := 0 to |lines|
      invariant r == result + Tagged(lines[..i], stream)
    {
      assert lines[..i + 1][..i] == lines[..i];
      if !Blank(lines[i]) {
        r := r + [Line(lines[i], stream)];
      }
    }
    assert lines[..|lines|] == lines;
  }

  method ParseMuxedLogs(decode: Decoder, buf: Bytes) returns (result: seq<Line>)
    ensures result == Parse(decode, buf)
  {
    hide ReadUInt32BE, Parse, Tagged;
    result := [];
    var offset := 0;
    assert buf[0..] == buf;
    while offset + 8 <= |buf|
      invariant 0 <= offset <= |buf|
      invariant result + Parse(decode, buf[offset..]) == Parse(decode, buf)
      decreases |buf| - offset
    {
      ParseAt(decode, buf, offset);
      var streamType := buf[offset];
      var size := ReadUInt32BE(buf[offset + 4..offset + 8]);
      offset := offset + 8;
      if offset + size > |buf| {
        return;
      }
      var text := decode(buf[offset..offset + size]);
      result := PushLines(result, text, StreamOf(streamType));
      offset := offset + size;
    }
    assert Parse(decode, buf[offset..]) == [] by { ParseShort(decode, buf[offset..]); }
  }

  lemma ParseShort(decode: Decoder, buf: Bytes)
    requires |buf| < 8
    ensures Parse(decode, buf) == []
  {
  }

  // ---- Frames ----

  predicate Fits(f: Frame) {
    |f.payload| < LIMIT
  }

  function Encode(f: Frame): Bytes
    requires Fits(f)
  {
    [f.kind, 0, 0, 0] + WriteUInt32BE(|f.payload|) + f.payload
  }

  function EncodeAll(frames: seq<Frame>): Bytes
    requires forall i | 0 <= i < |frames| :: Fits(frames[i])
  {
    if frames == [] then [] else Encode(frames[0]) + EncodeAll(frames[1..])
  }

  /** What the frames say: their lines that are not blank, in order. */
  function Said(decode: Decoder, frames: seq<Frame>): seq<Line> {
    if frames == [] then [] else LinesOf(decode, frames[0].kind, frames[0].payload) + Said(decode, frames[1..])
  }

  lemma ParseOne(decode: Decoder, f: Frame, rest: Bytes)
    requires Fits(f)
    ensures Parse(decode, Encode(f) + rest) == LinesOf(decode, f.kind, f.payload) + Parse(decode, rest)
  {
    hide LinesOf;
    var buf, size := Encode(f) + rest, |f.payload|;
    LengthRoundTrip(size);
    assert buf[4..8] == WriteUInt32BE(size);
    assert buf[8..8 + size] == f.payload && buf[8 + size..] == rest;
  }

  /** A frame that is not complete is ignored. */
  lemma ParsePartial(decode: Decoder, f: Frame, k: nat)
    requires Fits(f) && k < |Encode(f)|
    ensures Parse(decode, Encode(f)[..k]) == []
  {
    var buf := Encode(f)[..k];
    if k >= 8 {
      LengthRoundTrip(|f.payload|);
      assert Encode(f)[4..8] == WriteUInt32BE(|f.payload|);
      assert buf[4..8] == Encode(f)[4..8];
    }
  }

  /** Log frames round trip: parsing the encoding of any frames, followed by any
      strict prefix of one more, gives exactly the lines of the complete ones. */
  lemma {:induction false} FramesRoundTrip(decode: Decoder, frames: seq<Frame>, next: Frame, k: nat)
    requires forall i | 0 <= i < |frames| :: Fits(frames[i])
    requires Fits(next) && k < |Encode(next)|
    ensures Parse(decode, EncodeAll(frames) + Encode(next)[..k]) == Said(decode, frames)
  {
    hide LinesOf, Encode, Parse;
    if frames == [] {
      ParsePartial(decode, next, k);
      assert EncodeAll(frames) + Encode(next)[..k] == Encode(next)[..k];
    } else {
      var tail := EncodeAll(frames[1..]) + Encode(next)[..k];
      FramesRoundTrip(decode, frames[1..], next, k);
      assert EncodeAll(frames) + Encode(next)[..k] == Encode(frames[0]) + tail;
      ParseOne(decode, frames[0], tail);
    }
  }
}
