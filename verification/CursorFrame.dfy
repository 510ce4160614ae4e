/**
 The bytes of a cursor image on the wire.  The encoder looks at how the host stores words and pushes their
 bytes in one order or the other; what comes out is the same on every host and can be read back.
 */
module CursorFrame {
  import opened Options

  newtype Byte = x: int | 0 <= x < 256

  newtype Word = x: int | 0 <= x < 0x1_0000_0000

  /** Everything a frame carries; `ratio` is the bit pattern of a 32-bit float. */
  datatype Cursor = Cursor(width: Word, height: Word, hotX: Word, hotY: Word, hash: Word, systemId: Word,
                           ratio: Word, pixels: seq<Word>)

  const TAG: Byte := 9
  const HEADER := 29

  // ---- words and bytes -------------------------------------------------------------------------

  /** Byte `k` of a word, the least significant first. */
  function ByteAt(w: Word, k: nat): Byte
    requires k < 4
  {
    var v := w as int;
    if k == 0 then (v % 0x100) as Byte
    else if k == 1 then (v / 0x100 % 0x100) as Byte
    else if k == 2 then (v / 0x100 / 0x100 % 0x100) as Byte
    else (v / 0x100 / 0x100 / 0x100) as Byte
  }

  function Little(w: Word): (b: seq<Byte>)
    ensures |b| == 4
  {
    [ByteAt(w, 0), ByteAt(w, 1), ByteAt(w, 2), ByteAt(w, 3)]
  }

  function Big(w: Word): (b: seq<Byte>)
    ensures |b| == 4
  {
    [ByteAt(w, 3), ByteAt(w, 2), ByteAt(w, 1), ByteAt(w, 0)]
  }

  function WordOf(b0: Byte, b1: Byte, b2: Byte, b3: Byte): Word {
    (b0 as int + 0x100 * b1 as int + 0x1_0000 * b2 as int + 0x100_0000 * b3 as int) as Word
  }

  lemma BytesOfWord(w: Word)
    ensures WordOf(ByteAt(w, 0), ByteAt(w, 1), ByteAt(w, 2), ByteAt(w, 3)) == w
  {
  }

  lemma WordOfBytes(b0: Byte, b1: Byte, b2: Byte, b3: Byte)
    ensures var w := WordOf(b0, b1, b2, b3);
      ByteAt(w, 0) == b0 && ByteAt(w, 1) == b1 && ByteAt(w, 2) == b2 && ByteAt(w, 3) == b3
  {
  }

  function ReadLittle(b: seq<Byte>, at: nat): Word
    requires at + 4 <= |b|
  {
    WordOf(b[at], b[at + 1], b[at + 2], b[at + 3])
  }

  function ReadBig(b: seq<Byte>, at: nat): Word
    requires at + 4 <= |b|
  {
    WordOf(b[at + 3], b[at + 2], b[at + 1], b[at])
  }

  // ---- the frame -------------------------------------------------------------------------------

  /** The number of pixels, in the encoder's 32-bit arithmetic. */
  function Count(width: Word, height: Word): nat {
    (width as int * height as int) % 0x1_0000_0000
  }

  predicate Complete(c: Cursor) {
    |c.pixels| == Count(c.width, c.height)
  }

  function Header(c: Cursor): (b: seq<Byte>)
    ensures |b| == HEADER
  {
    [TAG] + Big(c.width) + Big(c.height) + Big(c.hotX) + Big(c.hotY) + Big(c.hash)
    + Little(c.systemId) + Little(c.ratio)
  }

  function Body(pixels: seq<Word>): seq<Byte>
    decreases |pixels|
  {
    if pixels == [] then [] else Body(pixels[..|pixels| - 1]) + Little(pixels[|pixels| - 1])
  }

  function Frame(c: Cursor): seq<Byte> {
    Header(c) + Body(c.pixels)
  }

  lemma {:induction false} BodyIs(pixels: seq<Word>)
    ensures |Body(pixels)| == 4 * |pixels|
    ensures forall i :: 0 <= i < |pixels| ==> ReadLittle(Body(pixels), 4 * i) == pixels[i]
    decreases |pixels|
  {
    if pixels != [] {
      var n := |pixels| - 1;
      BodyIs(pixels[..n]);
      BytesOfWord(pixels[n]);
      forall i | 0 <= i < n ensures ReadLittle(Body(pixels), 4 * i) == pixels[i] {
        assert ReadLittle(Body(pixels[..n]), 4 * i) == pixels[..n][i];
      }
    }
  }

  // ---- reading it back -------------------------------------------------------------------------

  function Pixels(b: seq<Byte>, count: nat): (ps: seq<Word>)
    requires HEADER + 4 * count <= |b|
    ensures |ps| == count
  {
    seq(count, i requires 0 <= i < count => ReadLittle(b, HEADER + 4 * i))
  }

  function Decode(b: seq<Byte>): Option<Cursor> {
    if |b| < HEADER || b[0] != TAG then None
    else
      var w, h := ReadBig(b, 1), ReadBig(b, 5);
      if |b| != HEADER + 4 * Count(w, h) then None
      else
        Some(Cursor(w, h, ReadBig(b, 9), ReadBig(b, 13), ReadBig(b, 17), ReadLittle(b, 21), ReadLittle(b, 25),
                    Pixels(b, Count(w, h))))
  }

  lemma HeaderReads(c: Cursor, b: seq<Byte>)
    requires |b| >= HEADER && b[..HEADER] == Header(c)
    ensures b[0] == TAG
    ensures ReadBig(b, 1) == c.width && ReadBig(b, 5) == c.height && ReadBig(b, 9) == c.hotX
    ensures ReadBig(b, 13) == c.hotY && ReadBig(b, 17) == c.hash
    ensures ReadLittle(b, 21) == c.systemId && ReadLittle(b, 25) == c.ratio
  {
    var h := Header(c);
    assert forall k :: 0 <= k < HEADER ==> b[k] == h[k];
    BytesOfWord(c.width);
    BytesOfWord(c.height);
    BytesOfWord(c.hotX);
    BytesOfWord(c.hotY);
    BytesOfWord(c.hash);
    BytesOfWord(c.systemId);
    BytesOfWord(c.ratio);
  }

  /** A decoder of the format recovers every field and every pixel, and the length is what it should be. */
  lemma RoundTrip(c: Cursor)
    requires Complete(c)
    ensures |Frame(c)| == HEADER + 4 * |c.pixels| && Decode(Frame(c)) == Some(c)
  {
    var b := Frame(c);
    BodyIs(c.pixels);
    assert b[..HEADER] == Header(c);
    HeaderReads(c, b);
    forall i | 0 <= i < |c.pixels| ensures ReadLittle(b, HEADER + 4 * i) == c.pixels[i] {
      assert ReadLittle(b, HEADER + 4 * i) == ReadLittle(Body(c.pixels), 4 * i);
    }
    assert Pixels(b, |c.pixels|) == c.pixels;
  }

  /** Two cursors with the same frame are the same cursor. */
  lemma FrameInjective(c: Cursor, d: Cursor)
    requires Complete(c) && Complete(d)
    ensures Frame(c) == Frame(d) <==> c == d
  {
    RoundTrip(c);
    RoundTrip(d);
  }

  lemma HeaderWrites(c: Cursor, b: seq<Byte>)
    requires |b| >= HEADER && b[0] == TAG
    requires c.width == ReadBig(b, 1) && c.height == ReadBig(b, 5) && c.hotX == ReadBig(b, 9)
    requires c.hotY == ReadBig(b, 13) && c.hash == ReadBig(b, 17)
    requires c.systemId == ReadLittle(b, 21) && c.ratio == ReadLittle(b, 25)
    ensures Header(c) == b[..HEADER]
  {
    WordOfBytes(b[4], b[3], b[2], b[1]);
    WordOfBytes(b[8], b[7], b[6], b[5]);
    WordOfBytes(b[12], b[11], b[10], b[9]);
    WordOfBytes(b[16], b[15], b[14], b[13]);
    WordOfBytes(b[20], b[19], b[18], b[17]);
    WordOfBytes(b[21], b[22], b[23], b[24]);
    WordOfBytes(b[25], b[26], b[27], b[28]);
  }

  lemma {:induction false} BodyWrites(b: seq<Byte>, count: nat)
    requires HEADER + 4 * count <= |b|
    ensures Body(Pixels(b, count)) == b[HEADER..HEADER + 4 * count]
    decreases count
  {
    if count > 0 {
      var n := count - 1;
      BodyWrites(b, n);
      assert Pixels(b, count)[..n] == Pixels(b, n);
      var at := HEADER + 4 * n;
      WordOfBytes(b[at], b[at + 1], b[at + 2], b[at + 3]);
      assert b[HEADER..at + 4] == b[HEADER..at] + [b[at], b[at + 1], b[at + 2], b[at + 3]];
    }
  }

  /** Whatever decodes is the frame of what it decodes to: no two byte strings mean the same cursor. */
  lemma DecodeIsExact(b: seq<Byte>)
    requires Decode(b).Some?
    ensures Complete(Decode(b).value) && Frame(Decode(b).value) == b
  {
    var c := Decode(b).value;
    HeaderWrites(c, b);
    BodyWrites(b, |c.pixels|);
    Joined(c, b);
  }

  lemma Joined(c: Cursor, b: seq<Byte>)
    requires |b| >= HEADER && Header(c) == b[..HEADER] && Body(c.pixels) == b[HEADER..]
    ensures Frame(c) == b
  {
  }

  // ---- the encoder -----------------------------------------------------------------------------

  datatype Host = LittleEndian | BigEndian

  /** How the host lays a word out in memory. */
  function Memory(host: Host, w: Word): (m: seq<Byte>)
    ensures |m| == 4
  {
    if host.LittleEndian? then Little(w) else Big(w)
  }

  /** The encoder's probe: the first byte of the word 1 is zero. */
  predicate FirstByteOfOneIsZero(host: Host) {
    Memory(host, 1)[0] == 0
  }

  lemma ProbeFindsBigEndian(host: Host)
    ensures FirstByteOfOneIsZero(host) <==> host.BigEndian?
  {
  }

  /** The last `n` of four bytes, the last one first. */
  function Backwards(m: seq<Byte>, n: nat): (b: seq<Byte>)
    requires |m| == 4 && n <= 4
  {
    seq(n, k requires 0 <= k < n => m[3 - k])
  }

  lemma BackwardsTurns(w: Word)
    ensures Backwards(Little(w), 4) == Big(w) && Backwards(Big(w), 4) == Little(w)
  {
  }

  method PushForwards(out: seq<Byte>, bytes: seq<Byte>) returns (next: seq<Byte>)
    requires |bytes| == 4
    ensures next == out + bytes
  {
    next := out;
    var i := 0;
    while i < 4
      invariant i <= 4 && next == out + bytes[..i]
    {
      next := next + [bytes[i]];
      i := i + 1;
    }
  }

  method PushBackwards(out: seq<Byte>, bytes: seq<Byte>) returns (next: seq<Byte>)
    requires |bytes| == 4
    ensures next == out + Backwards(bytes, 4)
  {
    next := out;
    var i := 4;
    while i > 0
      invariant 0 <= i <= 4 && next == out + Backwards(bytes, 4 - i)
    {
      assert Backwards(bytes, 5 - i) == Backwards(bytes, 4 - i) + [bytes[i - 1]];
      next := next + [bytes[i - 1]];
      i := i - 1;
    }
  }

  /** The size marks, the hot spot and the hash: forwards if the probe says so, else backwards. */
  method PushField(out: seq<Byte>, host: Host, w: Word) returns (next: seq<Byte>)
    ensures next == out + Big(w)
  {
    ProbeFindsBigEndian(host);
    BackwardsTurns(w);
    if FirstByteOfOneIsZero(host) {
      next := PushForwards(out, Memory(host, w));
    } else {
      next := PushBackwards(out, Memory(host, w));
    }
  }

  /** A pixel: the other way round. */
  method PushPixel(out: seq<Byte>, host: Host, w: Word) returns (next: seq<Byte>)
    ensures next == out + Little(w)
  {
    ProbeFindsBigEndian(host);
    BackwardsTurns(w);
    if FirstByteOfOneIsZero(host) {
      next := PushBackwards(out, Memory(host, w));
    } else {
      next := PushForwards(out, Memory(host, w));
    }
  }

  /** Explicit little-endian wire order, whatever the host. */
  method PushSemantic(out: seq<Byte>, w: Word) returns (next: seq<Byte>)
    ensures next == out + Little(w)
  {
    next := out + [ByteAt(w, 0)];
    next := next + [ByteAt(w, 1)];
    next := next + [ByteAt(w, 2)];
    next := next + [ByteAt(w, 3)];
  }

  method PushHeader(host: Host, c: Cursor) returns (out: seq<Byte>)
    ensures out == Header(c)
  {
    out := [TAG];
    out := PushField(out, host, c.width);
    out := PushField(out, host, c.height);
    out := PushField(out, host, c.hotX);
    out := PushField(out, host, c.hotY);
    out := PushField(out, host, c.hash);
    out := PushSemantic(out, c.systemId);
    out := PushSemantic(out, c.ratio);
  }

  /** The encoder writes the same frame on every host. */
  method EncodeCursorBitmapFrame(host: Host, c: Cursor) returns (out: seq<Byte>)
    requires Complete(c)
    ensures out == Frame(c)
  {
    out := PushHeader(host, c);
    ghost var header := out;
    var i := 0;
    while i < Count(c.width, c.height)
      invariant i <= |c.pixels| && out == header + Body(c.pixels[..i])
    {
      assert c.pixels[..i + 1][..i] == c.pixels[..i];
      out := PushPixel(out, host, c.pixels[i]);
      i := i + 1;
    }
    assert c.pixels[..i] == c.pixels;
  }
}
