/** The WAV files of the record manager: the bytes that saveWavFile writes
 * (recordmgr/src/Util/AlsaHelper.cpp), and an independent reader of the WAVE form, as chapter 3 of
 * "Multimedia Programming Interface and Data Specifications 1.0" has it. */
module Wav {
  import opened Wrappers

  type Byte = b: int | 0 <= b < 256
  type Sample = x: int | -0x8000 <= x < 0x8000
  type Uint32 = n: int | 0 <= n < TWO_TO_THE_32

  const TWO_TO_THE_32: int := 0x1_0000_0000

  const RIFF: seq<Byte> := [0x52, 0x49, 0x46, 0x46]
  const WAVE: seq<Byte> := [0x57, 0x41, 0x56, 0x45]
  const FMT: seq<Byte> := [0x66, 0x6D, 0x74, 0x20]
  const DATA: seq<Byte> := [0x64, 0x61, 0x74, 0x61]

  // ---------------------------------------------------------------- writer

  function Le16(n: nat): (r: seq<Byte>)
    requires n < 0x1_0000
    ensures |r| == 2
  {
    [n % 256, n / 256]
  }

  function Le32(n: Uint32): (r: seq<Byte>)
    ensures |r| == 4
  {
    [n % 256, n / 256 % 256, n / 0x1_0000 % 256, n / 0x100_0000]
  }

  /** static_cast<uint32_t> */
  function ToUint32(n: nat): Uint32 {
    n % TWO_TO_THE_32
  }

  /** Two's complement in 16 bits, and back. */
  function Unsigned(x: int): (n: nat)
    requires -0x8000 <= x < 0x8000
    ensures n < 0x1_0000
  {
    if x < 0 then x + 0x1_0000 else x
  }

  function Signed(n: nat): Sample
    requires n < 0x1_0000
  {
    if n >= 0x8000 then n - 0x1_0000 else n
  }

  /** The samples as they lie in memory on a little-endian machine. */
  function Memory(samples: seq<Sample>): (r: seq<Byte>)
    ensures |r| == 2 * |samples|
  {
    if samples == [] then []
    else Le16(Unsigned(samples[0])) + Memory(samples[1..])
  }

  /** subchunk2Size: truncated to 32 bits. */
  function DataSize(samples: seq<Sample>): (d: Uint32)
    ensures d % 2 == 0 && d <= 2 * |samples|
    ensures d == 2 * |samples| <==> 2 * |samples| < TWO_TO_THE_32
  {
    TruncatedDouble(|samples|);
    ToUint32(2 * |samples|)
  }

  lemma TruncatedDouble(n: nat)
    ensures ToUint32(2 * n) % 2 == 0 && ToUint32(2 * n) <= 2 * n
    ensures ToUint32(2 * n) == 2 * n <==> 2 * n < TWO_TO_THE_32
  {
    var q := 2 * n / TWO_TO_THE_32;
    assert 2 * n == q * TWO_TO_THE_32 + ToUint32(2 * n);
    assert ToUint32(2 * n) == 2 * (n - q * 0x8000_0000);
  }

  /** The format subchunk's data: PCM, one channel, 16 bits. */
  function Format(rate: Uint32): (r: seq<Byte>)
    ensures |r| == 16
  {
    Le16(1) + Le16(1) + Le32(rate) + Le32(ToUint32(rate * 1 * 2)) + Le16(2) + Le16(16)
  }

  function FileBytes(samples: seq<Sample>, rate: Uint32): (r: seq<Byte>)
    ensures |r| == 44 + DataSize(samples)
  {
    RIFF + Le32(ToUint32(36 + DataSize(samples))) + WAVE
    + (FMT + Le32(16) + Format(rate) + (DATA + Le32(DataSize(samples)) + Memory(samples)[..DataSize(samples)]))
  }

  // ---------------------------------------------------------------- reader

  datatype Chunk = Chunk(id: seq<Byte>, data: seq<Byte>)

  datatype Wave = Wave(channels: nat, rate: nat, byteRate: nat, samples: seq<Sample>)

  /** A little-endian number. */
  function Value(bytes: seq<Byte>): nat
  {
    if bytes == [] then 0 else bytes[0] + 256 * Value(bytes[1..])
  }

  /** A list of chunks: an id, a size, that many bytes, and a pad byte after an odd size. */
  function Chunks(bytes: seq<Byte>): Option<seq<Chunk>>
    decreases |bytes|
  {
    if bytes == [] then Some([])
    else if |bytes| < 8 then None
    else
      var size := Value(bytes[4..8]);
      var end := 8 + size + size % 2;
      if end > |bytes| then None
      else
        match Chunks(bytes[end..])
        case None => None
        case Some(rest) => Some([Chunk(bytes[..4], bytes[8..8 + size])] + rest)
  }

  function Find(chunks: seq<Chunk>, id: seq<Byte>): Option<seq<Byte>>
  {
    if chunks == [] then None else if chunks[0].id == id then Some(chunks[0].data) else Find(chunks[1..], id)
  }

  /** 16-bit PCM: two bytes a sample, two's complement. */
  function Samples(bytes: seq<Byte>): seq<Sample>
  {
    if |bytes| < 2 then []
    else
      var (lo: int, hi: int) := (bytes[0], bytes[1]);
      [Signed(lo + 256 * hi)] + Samples(bytes[2..])
  }

  /** PCM of one 16-bit channel is all that this reader knows. */
  function WaveOf(chunks: seq<Chunk>): Option<Wave>
  {
    match (Find(chunks, FMT), Find(chunks, DATA))
    case (Some(f), Some(d)) =>
      if |f| >= 16 && Value(f[0..2]) == 1 && Value(f[2..4]) == 1 && Value(f[12..14]) == 2 && Value(f[14..16]) == 16
         && |d| % 2 == 0 then
        Some(Wave(1, Value(f[4..8]), Value(f[8..12]), Samples(d)))
      else None
    case _ => None
  }

  /** The RIFF form has to hold exactly the file. */
  function Parse(file: seq<Byte>): Option<Wave>
  {
    if |file| < 12 || file[..4] != RIFF || file[8..12] != WAVE || Value(file[4..8]) + 8 != |file| then None
    else match Chunks(file[12..]) case None => None case Some(chunks) => WaveOf(chunks)
  }

  /** The four names are the characters that the document writes. */
  lemma NamesAreCharacters(i: nat)
    requires i < 4
    ensures RIFF[i] == "RIFF"[i] as int && WAVE[i] == "WAVE"[i] as int
    ensures FMT[i] == "fmt "[i] as int && DATA[i] == "data"[i] as int
  {
  }

  // ---------------------------------------------------------------- numbers and samples

  lemma Value16(n: nat)
    requires n < 0x1_0000
    ensures Value(Le16(n)) == n
  {
    assert Le16(n)[1..] == [n / 256] && [n / 256][1..] == [];
    assert Value([n / 256]) == n / 256;
  }

  lemma Value32(n: Uint32)
    ensures Value(Le32(n)) == n
  {
    var b := Le32(n);
    assert n == b[0] + 256 * (n / 256) && n / 256 == b[1] + 256 * (n / 0x1_0000);
    assert n / 0x1_0000 == b[2] + 256 * (n / 0x100_0000);
    assert b[1..] == [b[1], b[2], b[3]] && b[1..][1..] == [b[2], b[3]] && b[1..][1..][1..] == [b[3]];
    assert Value([b[3]]) == b[3] + 256 * Value([b[3]][1..]) == b[3];
    assert Value([b[2], b[3]]) == b[2] + 256 * Value([b[3]]);
    assert Value([b[1], b[2], b[3]]) == b[1] + 256 * Value([b[2], b[3]]);
  }

  lemma {:induction false} SamplesRoundTrip(samples: seq<Sample>)
    ensures Samples(Memory(samples)) == samples
  {
    if samples == [] {
    } else {
      SamplesRoundTrip(samples[1..]);
      assert Memory(samples)[2..] == Memory(samples[1..]);
    }
  }

  lemma {:induction false} MemoryPrefix(samples: seq<Sample>, n: nat)
    requires n <= |samples|
    ensures Memory(samples)[..2 * n] == Memory(samples[..n])
  {
    if n == 0 {
    } else {
      MemoryPrefix(samples[1..], n - 1);
      assert samples[..n][1..] == samples[1..][..n - 1];
      var first := Memory(samples)[..2];
      assert Memory(samples) == first + Memory(samples[1..]);
      assert Memory(samples)[..2 * n] == first + Memory(samples[1..])[..2 * (n - 1)];
      assert Memory(samples[..n]) == first + Memory(samples[..n][1..]);
    }
  }

  // ---------------------------------------------------------------- reading what was written

  lemma ChunkReads(bytes: seq<Byte>, n: nat, more: seq<Chunk>)
    requires 8 + n <= |bytes| && n % 2 == 0 && Value(bytes[4..8]) == n && Chunks(bytes[8 + n..]) == Some(more)
    ensures Chunks(bytes) == Some([Chunk(bytes[..4], bytes[8..8 + n])] + more)
  {
  }

  lemma ChunkLayout(id: seq<Byte>, size: seq<Byte>, data: seq<Byte>, rest: seq<Byte>)
    requires |id| == 4 && |size| == 4
    ensures var bytes := id + size + data + rest;
            && |bytes| == 8 + |data| + |rest| && bytes[..4] == id && bytes[4..8] == size
            && bytes[8..8 + |data|] == data && bytes[8 + |data|..] == rest
  {
  }

  lemma OneChunkReads(size: seq<Byte>, data: seq<Byte>)
    requires |size| == 4 && Value(size) == |data| && |data| % 2 == 0
    ensures Chunks(DATA + size + data + []) == Some([Chunk(DATA, data)])
  {
    ChunkLayout(DATA, size, data, []);
    ChunkReads(DATA + size + data + [], |data|, []);
    assert [Chunk(DATA, data)] + [] == [Chunk(DATA, data)];
  }

  lemma TwoChunksRead(size1: seq<Byte>, format: seq<Byte>, size2: seq<Byte>, data: seq<Byte>)
    requires |size1| == 4 && Value(size1) == |format| && |format| % 2 == 0
    requires |size2| == 4 && Value(size2) == |data| && |data| % 2 == 0
    ensures Chunks(FMT + size1 + format + (DATA + size2 + data + [])) == Some([Chunk(FMT, format), Chunk(DATA, data)])
  {
    OneChunkReads(size2, data);
    ChunkLayout(FMT, size1, format, DATA + size2 + data + []);
    ChunkReads(FMT + size1 + format + (DATA + size2 + data + []), |format|, [Chunk(DATA, data)]);
    assert [Chunk(FMT, format)] + [Chunk(DATA, data)] == [Chunk(FMT, format), Chunk(DATA, data)];
  }

  lemma FormatReads(rate: Uint32)
    ensures var f := Format(rate);
            && Value(f[0..2]) == 1 && Value(f[2..4]) == 1 && Value(f[4..8]) == rate
            && Value(f[8..12]) == ToUint32(2 * rate) && Value(f[12..14]) == 2 && Value(f[14..16]) == 16
  {
    var f := Format(rate);
    assert f[0..2] == Le16(1) && f[2..4] == Le16(1) && f[4..8] == Le32(rate);
    assert f[8..12] == Le32(ToUint32(rate * 1 * 2)) && f[12..14] == Le16(2) && f[14..16] == Le16(16);
    Value16(1);
    Value16(2);
    Value16(16);
    Value32(rate);
    Value32(ToUint32(rate * 1 * 2));
  }

  lemma HeadReads(size: seq<Byte>, body: seq<Byte>)
    requires |size| == 4
    ensures var file := RIFF + size + WAVE + body;
            && |file| == 12 + |body| && file[..4] == RIFF && file[4..8] == size
            && file[8..12] == WAVE && file[12..] == body
  {
  }

  lemma FindsBoth(format: seq<Byte>, data: seq<Byte>)
    ensures Find([Chunk(FMT, format), Chunk(DATA, data)], FMT) == Some(format)
    ensures Find([Chunk(FMT, format), Chunk(DATA, data)], DATA) == Some(data)
  {
    assert FMT[0] != DATA[0];
    assert [Chunk(FMT, format), Chunk(DATA, data)][1..] == [Chunk(DATA, data)];
  }

  lemma TwoChunks(f: seq<Byte>, data: seq<Byte>)
    requires |f| == 16 && Value(f[0..2]) == 1 && Value(f[2..4]) == 1 && Value(f[12..14]) == 2 && Value(f[14..16]) == 16
    requires |data| % 2 == 0
    ensures WaveOf([Chunk(FMT, f), Chunk(DATA, data)]) == Some(Wave(1, Value(f[4..8]), Value(f[8..12]), Samples(data)))
  {
    FindsBoth(f, data);
  }

  /** A file of a format chunk and a data chunk. */
  lemma FormReads(size: seq<Byte>, size1: seq<Byte>, format: seq<Byte>, size2: seq<Byte>, data: seq<Byte>)
    requires |size| == 4
    requires |size1| == 4 && Value(size1) == |format| && |format| % 2 == 0
    requires |size2| == 4 && Value(size2) == |data| && |data| % 2 == 0
    ensures var file := RIFF + size + WAVE + (FMT + size1 + format + (DATA + size2 + data));
            && |file| == 28 + |format| + |data| && file[4..8] == size
            && Parse(file) ==
                 if Value(size) + 8 == |file| then WaveOf([Chunk(FMT, format), Chunk(DATA, data)]) else None
  {
    var body := FMT + size1 + format + (DATA + size2 + data);
    assert DATA + size2 + data + [] == DATA + size2 + data;
    TwoChunksRead(size1, format, size2, data);
    HeadReads(size, body);
    ParseReads(RIFF + size + WAVE + body, [Chunk(FMT, format), Chunk(DATA, data)]);
  }

  lemma ParseReads(file: seq<Byte>, chunks: seq<Chunk>)
    requires |file| >= 12 && file[..4] == RIFF && file[8..12] == WAVE && Chunks(file[12..]) == Some(chunks)
    ensures Parse(file) == if Value(file[4..8]) + 8 == |file| then WaveOf(chunks) else None
  {
  }

  lemma DataReads(samples: seq<Sample>, n: nat)
    requires n <= |samples|
    ensures Samples(Memory(samples)[..2 * n]) == samples[..n]
  {
    MemoryPrefix(samples, n);
    SamplesRoundTrip(samples[..n]);
  }

  lemma WaveReads(rate: Uint32, data: seq<Byte>)
    requires |data| % 2 == 0
    ensures WaveOf([Chunk(FMT, Format(rate)), Chunk(DATA, data)]) ==
      Some(Wave(1, rate, ToUint32(2 * rate), Samples(data)))
  {
    FormatReads(rate);
    TwoChunks(Format(rate), data);
  }

  lemma HeaderNumbers(d: Uint32)
    ensures Value(Le32(ToUint32(36 + d))) == ToUint32(36 + d) && Value(Le32(16)) == 16 && Value(Le32(d)) == d
    ensures ToUint32(36 + d) + 8 == 44 + d <==> 36 + d < TWO_TO_THE_32
  {
    var n: int := d;
    Value32(ToUint32(36 + n));
    Value32(16);
    Value32(d);
  }

  lemma FormOf(samples: seq<Sample>, rate: Uint32)
    ensures var file := FileBytes(samples, rate);
            var d := DataSize(samples);
            && Value(file[4..8]) == ToUint32(36 + d)
            && Parse(file) ==
                 if 36 + d >= TWO_TO_THE_32 then None
                 else WaveOf([Chunk(FMT, Format(rate)), Chunk(DATA, Memory(samples)[..d])])
  {
    var d: int := DataSize(samples);
    HeaderNumbers(d);
    FormReads(Le32(ToUint32(36 + d)), Le32(16), Format(rate), Le32(d), Memory(samples)[..d]);
  }

  /** What a reader makes of the file, whatever was truncated. */
  lemma WhatIsRead(samples: seq<Sample>, rate: Uint32)
    ensures Parse(FileBytes(samples, rate)) ==
      if 36 + DataSize(samples) < TWO_TO_THE_32 then
        Some(Wave(1, rate, ToUint32(2 * rate), samples[..DataSize(samples) / 2]))
      else None
  {
    var d: int := DataSize(samples);
    FormOf(samples, rate);
    WaveReads(rate, Memory(samples)[..d]);
    DataReads(samples, d / 2);
  }

  /** The file is read back as exactly the samples that were saved if and only if no 32-bit size is
      truncated; and its length is the stated chunk size plus 8 under the same condition on the chunk size. */
  lemma WavFidelity(samples: seq<Sample>, rate: Uint32)
    ensures Parse(FileBytes(samples, rate)) == Some(Wave(1, rate, ToUint32(2 * rate), samples))
       <==> 36 + 2 * |samples| < TWO_TO_THE_32
    ensures |FileBytes(samples, rate)| == Value(FileBytes(samples, rate)[4..8]) + 8
       <==> 36 + DataSize(samples) < TWO_TO_THE_32
  {
    WhatIsRead(samples, rate);
    FormOf(samples, rate);
    if 2 * |samples| < TWO_TO_THE_32 {
      assert samples[..|samples|] == samples;
    } else {
      assert |samples[..DataSize(samples) / 2]| < |samples|;
    }
  }
}
