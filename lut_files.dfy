/** The look-up-table generator: builds the 128 x 128 table of norms, then
    writes it twice, as a DDS texture (a 32-word header followed by the two
    components of every texel as interleaved half floats) and as a C header
    (the given licence banner, then the include guard and the formatter
    switch, the two dimensions, and one line of two hexadecimal
    half floats per texel).

    Files are sequences that writes append to; the DDS file is a byte
    sequence (words and halves stored little-endian, the byte order of the
    target), the C header a character sequence. The float-to-half conversion
    is a parameter. */
module LutFiles {
  import Integration
  import Printf

  type byte = x: nat | x < 0x100
  type u16 = x: nat | x < 0x1_0000
  type u32 = x: nat | x < 0x1_0000_0000

  datatype Option<T> = None | Some(value: T)

  /** Both dimensions of the generated table. */
  const LUT_WIDTH: u32 := 128
  const LUT_HEIGHT: u32 := 128

  /** An output file opened for writing: what has been written so far. */
  class OutputFile<T> {
    var contents: seq<T>

    /** Opening creates the file anew (an existing file is truncated). */
    constructor Open()
      ensures contents == []
    {
      contents := [];
    }

    method Write(buf: seq<T>)
      modifies this
      ensures contents == old(contents) + buf
    {
      contents := contents + buf;
    }
  }

  /** Appending pieces one by one appends their concatenation. */
  lemma AppendTwo<T>(s: seq<T>, a: seq<T>, b: seq<T>)
    ensures s + a + b == s + (a + b)
  {
  }

  lemma EmptyPrefix<T>(s: seq<T>)
    ensures [] + s == s
  {
  }

  lemma EmptySuffix<T>(s: seq<T>)
    ensures s + [] == s
  {
  }

  lemma AppendThree<T>(s: seq<T>, a: seq<T>, b: seq<T>, c: seq<T>)
    ensures s + a + b + c == s + (a + b + c)
  {
  }

  lemma AppendFour<T>(s: seq<T>, a: seq<T>, b: seq<T>, c: seq<T>, d: seq<T>)
    ensures s + a + b + c + d == s + (a + b + c + d)
  {
  }

  // ---------------------------------------------------------------------------
  // Little-endian storage of fixed-width unsigned values.

  function Pow256(k: nat): (p: nat)
    ensures 1 <= p
  {
    if k == 0 then 1 else 256 * Pow256(k - 1)
  }

  /** The k bytes of v, least significant first. */
  function LittleEndian(v: nat, k: nat): (b: seq<byte>)
    requires v < Pow256(k)
    ensures |b| == k
  {
    if k == 0 then [] else [v % 256] + LittleEndian(v / 256, k - 1)
  }

  /** The value of a little-endian byte string. */
  function LittleEndianValue(b: seq<byte>): (v: nat)
    ensures v < Pow256(|b|)
  {
    if |b| == 0 then 0 else b[0] + 256 * LittleEndianValue(b[1..])
  }

  /** Reading back the bytes of a value gives the value. */
  lemma {:induction false} LittleEndianRoundTrip(v: nat, k: nat)
    requires v < Pow256(k)
    ensures LittleEndianValue(LittleEndian(v, k)) == v
  {
    if k > 0 {
      var b := LittleEndian(v, k);
      assert b[1..] == LittleEndian(v / 256, k - 1);
      LittleEndianRoundTrip(v / 256, k - 1);
    }
  }

  /** Conversely, every byte string is the little-endian form of its value. */
  lemma {:induction false} LittleEndianCanonical(b: seq<byte>)
    ensures LittleEndian(LittleEndianValue(b), |b|) == b
  {
    if |b| > 0 {
      var rest := LittleEndianValue(b[1..]);
      var v := b[0] + 256 * rest;
      assert LittleEndianValue(b) == v;
      Base256Digit(rest, b[0]);
      LittleEndianCanonical(b[1..]);
      assert LittleEndian(v, |b|) == [b[0]] + LittleEndian(rest, |b| - 1);
      assert b == [b[0]] + b[1..];
    }
  }

  lemma Base256Digit(high: nat, low: nat)
    requires low < 256
    ensures (low + 256 * high) % 256 == low && (low + 256 * high) / 256 == high
  {
  }

  predicate Fits(vs: seq<nat>, k: nat) {
    forall i :: 0 <= i < |vs| ==> vs[i] < Pow256(k)
  }

  /** The values one after the other, k bytes each. */
  function Serialize(vs: seq<nat>, k: nat): (b: seq<byte>)
    requires Fits(vs, k)
    ensures |b| == k * |vs|
  {
    if |vs| == 0 then [] else LittleEndian(vs[0], k) + Serialize(vs[1..], k)
  }

  /** Reads a byte string as consecutive k-byte values; a trailing fragment
      shorter than k is ignored. */
  function Deserialize(b: seq<byte>, k: nat): seq<nat>
    requires 0 < k
    decreases |b|
  {
    if |b| < k then [] else [LittleEndianValue(b[..k])] + Deserialize(b[k..], k)
  }

  /** Reading back serialized values gives the values. */
  lemma {:induction false} SerializeRoundTrip(vs: seq<nat>, k: nat)
    requires 0 < k && Fits(vs, k)
    ensures Deserialize(Serialize(vs, k), k) == vs
  {
    if |vs| > 0 {
      var b := Serialize(vs, k);
      var first := LittleEndian(vs[0], k);
      assert b[..k] == first;
      assert b[k..] == Serialize(vs[1..], k);
      LittleEndianRoundTrip(vs[0], k);
      SerializeRoundTrip(vs[1..], k);
      assert vs == [vs[0]] + vs[1..];
    }
  }

  // ---------------------------------------------------------------------------
  // The DDS file.

  const DDS_MAGIC: u32 := 0x2053_4444
  /** DDSD_CAPS | DDSD_HEIGHT | DDSD_WIDTH | DDSD_PIXELFORMAT */
  const DDS_HEADER_FLAGS: u32 := 0x1007
  const DDPF_FOURCC: u32 := 0x4
  const D3DFMT_G16R16F: u32 := 112
  const DDSCAPS_TEXTURE: u32 := 0x1000
  /** The magic word and the header, in 32-bit words. */
  const DDS_METADATA_WORDS: nat := 32

  /** The magic word followed by the DDS header of an uncompressed
      two-channel half-float texture with one mip level. */
  function DdsMetadata(height: u32, width: u32): (words: seq<u32>)
    ensures |words| == DDS_METADATA_WORDS
  {
    [DDS_MAGIC, 124, DDS_HEADER_FLAGS, height, width,
     0, 0, 0,
     0, 0, 0, 0, 0, 0, 0, 0, 0, 0, 0,
     32, DDPF_FOURCC, D3DFMT_G16R16F,
     0, 0, 0, 0, 0,
     DDSCAPS_TEXTURE, 0, 0, 0, 0]
  }

  /** The layout of the metadata: magic word, header size, flags, height
      before width, zero pitch, depth, mip count and reserved words, then a
      pixel format with the half-float format code, then the caps. */
  lemma DdsMetadataLayout(height: u32, width: u32)
    ensures var words := DdsMetadata(height, width);
      words[0] == DDS_MAGIC && words[2] == DDS_HEADER_FLAGS
      // the header size field counts every byte after the magic word
      && words[1] == 4 * (|words| - 1)
      && words[3] == height && words[4] == width
      // pitch, depth, mip count and the eleven reserved words
      && (forall i :: 5 <= i < 19 ==> words[i] == 0)
      // the pixel format: its size field counts its own eight words
      && words[19] == 4 * |words[19..27]|
      && words[20] == DDPF_FOURCC && words[21] == D3DFMT_G16R16F
      && (forall i :: 22 <= i < 27 ==> words[i] == 0)
      && words[27] == DDSCAPS_TEXTURE
      && (forall i :: 28 <= i < 32 ==> words[i] == 0)
  {
  }

  /** The half buffer: the two components of every norm, side by side. */
  function Interleave(norms: seq<Integration.Vec2>, toHalf: real -> u16): (half: seq<u16>)
    ensures |half| == 2 * |norms|
  {
    if |norms| == 0 then []
    else Interleave(norms[..|norms| - 1], toHalf) + [toHalf(norms[|norms| - 1].x), toHalf(norms[|norms| - 1].y)]
  }

  /** Entry 2i of the half buffer is texel i's first component, entry 2i + 1 its second. */
  lemma {:induction false} InterleaveAt(norms: seq<Integration.Vec2>, toHalf: real -> u16, i: nat)
    requires i < |norms|
    ensures Interleave(norms, toHalf)[2 * i] == toHalf(norms[i].x)
    ensures Interleave(norms, toHalf)[2 * i + 1] == toHalf(norms[i].y)
  {
    var n := |norms|;
    var init := norms[..n - 1];
    if i < n - 1 {
      InterleaveAt(init, toHalf, i);
    }
  }

  /** The DDS file: metadata words, then the half buffer. */
  function DdsFile(height: u32, width: u32, norms: seq<Integration.Vec2>, toHalf: real -> u16): (file: seq<byte>)
    ensures |file| == 4 * DDS_METADATA_WORDS + 2 * (2 * |norms|)
  {
    Serialize(DdsMetadata(height, width), 4) + Serialize(Interleave(norms, toHalf), 2)
  }

  /** What a reader of the DDS file recovers. */
  datatype DdsImage = DdsImage(height: nat, width: nat, halves: seq<nat>)

  /** A reader of the files this generator writes: checks the magic word, the
      header and pixel-format sizes and the format code, then reads the
      dimensions and the half-float payload. */
  function ParseDds(file: seq<byte>): Option<DdsImage> {
    if |file| < 4 * DDS_METADATA_WORDS || (|file| - 4 * DDS_METADATA_WORDS) % 2 != 0 then None
    else
      var words := Deserialize(file[..4 * DDS_METADATA_WORDS], 4);
      if |words| == DDS_METADATA_WORDS && words[0] == DDS_MAGIC && words[1] == 124 && words[19] == 32
         && words[20] == DDPF_FOURCC && words[21] == D3DFMT_G16R16F
      then Some(DdsImage(words[3], words[4], Deserialize(file[4 * DDS_METADATA_WORDS..], 2)))
      else None
  }

  /** The reader accepts any serialized metadata that passes its checks, and
      returns the dimensions and the payload that follow. */
  lemma {:induction false} ParseSerialized(words: seq<u32>, half: seq<u16>)
    requires |words| == DDS_METADATA_WORDS && words[0] == DDS_MAGIC && words[1] == 124
    requires words[19] == 32 && words[20] == DDPF_FOURCC && words[21] == D3DFMT_G16R16F
    ensures ParseDds(Serialize(words, 4) + Serialize(half, 2)) == Some(DdsImage(words[3], words[4], half))
  {
    var head := Serialize(words, 4);
    var payload := Serialize(half, 2);
    var file := head + payload;
    assert file[..4 * DDS_METADATA_WORDS] == head;
    assert file[4 * DDS_METADATA_WORDS..] == payload;
    SerializeRoundTrip(words, 4);
    SerializeRoundTrip(half, 2);
  }

  /** Reading the DDS file back gives height, width and the interleaved halves. */
  lemma DdsRoundTrip(height: u32, width: u32, norms: seq<Integration.Vec2>, toHalf: real -> u16)
    ensures ParseDds(DdsFile(height, width, norms, toHalf))
         == Some(DdsImage(height, width, Interleave(norms, toHalf)))
  {
    DdsMetadataLayout(height, width);
    ParseSerialized(DdsMetadata(height, width), Interleave(norms, toHalf));
  }

  /** The half-interleave loop: fills a buffer of 2 * |norms| halves. */
  method PackHalves(norms: seq<Integration.Vec2>, toHalf: real -> u16) returns (half: array<u16>)
    ensures fresh(half)
    ensures half.Length == 2 * |norms|
    ensures forall i :: 0 <= i < |norms| ==> half[2 * i] == toHalf(norms[i].x) && half[2 * i + 1] == toHalf(norms[i].y)
    ensures half[..] == Interleave(norms, toHalf)
  {
    half := new u16[2 * |norms|];
    var index := 0;
    while index < |norms|
      invariant 0 <= index <= |norms|
      invariant half[..2 * index] == Interleave(norms[..index], toHalf)
    {
      half[2 * index] := toHalf(norms[index].x);
      half[2 * index + 1] := toHalf(norms[index].y);
      assert norms[..index + 1][..index] == norms[..index];
      assert half[..2 * index + 2] == half[..2 * index] + [half[2 * index], half[2 * index + 1]];
      index := index + 1;
    }
    assert norms[..index] == norms;
    assert half[..2 * index] == half[..];
    forall i | 0 <= i < |norms|
      ensures half[2 * i] == toHalf(norms[i].x) && half[2 * i + 1] == toHalf(norms[i].y)
    {
      InterleaveAt(norms, toHalf, i);
    }
  }

  /** Writes the DDS file: the metadata words, then the half buffer. */
  method WriteDds(file: OutputFile<byte>, height: u32, width: u32, norms: seq<Integration.Vec2>, toHalf: real -> u16)
    modifies file
    ensures file.contents == old(file.contents) + DdsFile(height, width, norms, toHalf)
  {
    ghost var start := file.contents;
    var head := Serialize(DdsMetadata(height, width), 4);
    file.Write(head);
    var half := PackHalves(norms, toHalf);
    var payload := Serialize(half[..], 2);
    file.Write(payload);
    AppendTwo(start, head, payload);
  }

  // ---------------------------------------------------------------------------
  // The C header file.

  /** The include guard and the formatter switch that follow the licence
      banner, line by line. */
  const GUARD_LINES: seq<string> := [
    "\r\n",
    "#ifndef _BRX_HEMISPHERICAL_DIRECTIONAL_REFLECTANCE_LOOK_UP_TABLE_NORMS_H_\r\n",
    "#define _BRX_HEMISPHERICAL_DIRECTIONAL_REFLECTANCE_LOOK_UP_TABLE_NORMS_H_ 1\r\n",
    "\r\n",
    "// clang-format off\r\n",
    "\r\n"]

  /** The preamble, written as one block: the licence banner (a parameter, its
      wording is not modelled), then the include guard and the formatter switch. */
  function Preamble(banner: string): (p: string)
    ensures |banner| < |p| && p[..|banner|] == banner
  {
    banner + Concat(GUARD_LINES)
  }

  const WIDTH_LINE_HEAD: string := "static constexpr uint32_t const g_brx_hdr_lut_width = "
  const HEIGHT_LINE_HEAD: string := "static constexpr uint32_t const g_brx_hdr_lut_height = "
  const DIMENSION_LINE_TAIL: string := "U;\r\n"

  const ARRAY_OPENER: string := "static constexpr uint16_t const g_brx_hdr_lut_norms[2U * g_brx_hdr_lut_width * g_brx_hdr_lut_height] = {\r\n"

  const TRAILER: string := "};\r\n\r\n// clang-format on\r\n\r\n#endif\r\n"

  /** A dimension line: its fixed head, the value as `%d`, then `U;` and CR LF. */
  function DimensionLine(head: string, value: nat): string {
    head + Printf.Decimal(value) + DIMENSION_LINE_TAIL
  }

  /** Between its head and its tail a dimension line holds exactly what `%d`
      prints for the value, and the value reads back from there. */
  lemma DimensionLineReadsBack(head: string, value: nat)
    ensures var line := DimensionLine(head, value);
      |head| < |line| - |DIMENSION_LINE_TAIL| && line[..|head|] == head
      && line[|line| - |DIMENSION_LINE_TAIL|..] == DIMENSION_LINE_TAIL
      && Printf.AllDigits(line[|head|..|line| - |DIMENSION_LINE_TAIL|])
      && line[|head|..|line| - |DIMENSION_LINE_TAIL|] == Printf.Decimal(value)
      && Printf.DecimalValue(line[|head|..|line| - |DIMENSION_LINE_TAIL|]) == value
  {
    var digits := Printf.Decimal(value);
    var line := DimensionLine(head, value);
    assert line[..|head|] == head;
    assert line[|line| - |DIMENSION_LINE_TAIL|..] == DIMENSION_LINE_TAIL;
    assert line[|head|..|line| - |DIMENSION_LINE_TAIL|] == digits;
    Printf.DecimalRoundTrip(value);
  }

  const TEXEL_LINE_HEAD: string := "    0X"
  const TEXEL_LINE_MIDDLE: string := "U, 0X"
  const TEXEL_LINE_TAIL: string := "U,\r\n"
  const LAST_TEXEL_LINE_TAIL: string := "U\r\n"

  /** The line of one texel: its two halves as `%04X`; only the last line of
      the array has no comma. */
  function TexelLine(hx: u16, hy: u16, last: bool): string {
    TEXEL_LINE_HEAD + Printf.Hex4(hx) + TEXEL_LINE_MIDDLE + Printf.Hex4(hy)
      + (if last then LAST_TEXEL_LINE_TAIL else TEXEL_LINE_TAIL)
  }

  /** A texel line has 23 characters (22 for the last); the halves read back
      from columns 6-9 and 15-18; column 19 is the `U` suffix, followed by
      `,` CR LF, or by CR LF alone on the last line. */
  lemma TexelLineReadsBack(hx: u16, hy: u16, last: bool)
    ensures var line := TexelLine(hx, hy, last);
      |line| == (if last then 22 else 23)
      && line[..6] == TEXEL_LINE_HEAD && line[10..15] == TEXEL_LINE_MIDDLE
      && Printf.AllUpperHexDigits(line[6..10]) && Printf.HexValue(line[6..10]) == hx
      && Printf.AllUpperHexDigits(line[15..19]) && Printf.HexValue(line[15..19]) == hy
      && line[19] == 'U' && line[19..] == (if last then LAST_TEXEL_LINE_TAIL else TEXEL_LINE_TAIL)
      && line[|line| - 2..] == "\r\n"
      && (line[|line| - 3] == ',' <==> !last)
  {
    var line := TexelLine(hx, hy, last);
    var x, y := Printf.Hex4(hx), Printf.Hex4(hy);
    assert line[6..10] == x;
    assert line[15..19] == y;
    Printf.Hex4RoundTrip(hx);
    Printf.Hex4RoundTrip(hy);
  }

  /** The lines of the array, one per texel, in work-index order. */
  function TexelLines(norms: seq<Integration.Vec2>, toHalf: real -> u16): (lines: seq<string>)
    ensures |lines| == |norms|
  {
    seq(|norms|, (i: nat) requires i < |norms| =>
      TexelLine(toHalf(norms[i].x), toHalf(norms[i].y), i + 1 == |norms|))
  }

  /** Every line of the array but the last ends in `U,` CR LF; the last ends
      in `U` CR LF. */
  lemma OnlyLastLineLacksComma(norms: seq<Integration.Vec2>, toHalf: real -> u16, i: nat)
    requires i < |norms|
    ensures var line := TexelLines(norms, toHalf)[i];
      3 <= |line| && line[|line| - 2..] == "\r\n" && (line[|line| - 3] == ',' <==> i + 1 < |norms|)
      && (i + 1 == |norms| ==> line[|line| - 3..] == LAST_TEXEL_LINE_TAIL)
      && (i + 1 < |norms| ==> 4 <= |line| && line[|line| - 4..] == TEXEL_LINE_TAIL)
  {
    TexelLineReadsBack(toHalf(norms[i].x), toHalf(norms[i].y), i + 1 == |norms|);
  }

  function Concat(lines: seq<string>): string {
    if |lines| == 0 then "" else Concat(lines[..|lines| - 1]) + lines[|lines| - 1]
  }

  lemma ConcatStep(lines: seq<string>, i: nat)
    requires i < |lines|
    ensures Concat(lines[..i + 1]) == Concat(lines[..i]) + lines[i]
  {
    assert lines[..i + 1][..i] == lines[..i];
  }

  function Occurrences(s: string, c: char): nat {
    if |s| == 0 then 0 else Occurrences(s[..|s| - 1], c) + (if s[|s| - 1] == c then 1 else 0)
  }

  lemma {:induction false} OccurrencesAppend(s: string, t: string, c: char)
    ensures Occurrences(s + t, c) == Occurrences(s, c) + Occurrences(t, c)
  {
    if |t| > 0 {
      assert (s + t)[..|s + t| - 1] == s + t[..|t| - 1];
      OccurrencesAppend(s, t[..|t| - 1], c);
    } else {
      assert s + t == s;
    }
  }

  /** A texel line is one line: it holds a single line feed. */
  lemma TexelLineHasOneLineFeed(hx: u16, hy: u16, last: bool)
    ensures Occurrences(TexelLine(hx, hy, last), '\n') == 1
  {
    var x, y := Printf.Hex4(hx), Printf.Hex4(hy);
    var tail := if last then LAST_TEXEL_LINE_TAIL else TEXEL_LINE_TAIL;
    Absent(x, '\n');
    Absent(y, '\n');
    OccurrencesAppend(TEXEL_LINE_HEAD, x, '\n');
    OccurrencesAppend(TEXEL_LINE_HEAD + x, TEXEL_LINE_MIDDLE, '\n');
    OccurrencesAppend(TEXEL_LINE_HEAD + x + TEXEL_LINE_MIDDLE, y, '\n');
    OccurrencesAppend(TEXEL_LINE_HEAD + x + TEXEL_LINE_MIDDLE + y, tail, '\n');
    LiteralLineFeeds();
  }

  /** A string none of whose characters is c holds no occurrence of c. */
  lemma {:induction false} Absent(s: string, c: char)
    requires forall i :: 0 <= i < |s| ==> s[i] != c
    ensures Occurrences(s, c) == 0
  {
    if |s| > 0 {
      Absent(s[..|s| - 1], c);
    }
  }

  /** The line-feed counts of the fixed parts of a texel line. */
  lemma LiteralLineFeeds()
    ensures Occurrences(TEXEL_LINE_HEAD, '\n') == 0
    ensures Occurrences(TEXEL_LINE_MIDDLE, '\n') == 0
    ensures Occurrences(TEXEL_LINE_TAIL, '\n') == 1
    ensures Occurrences(LAST_TEXEL_LINE_TAIL, '\n') == 1
  {
    Absent(TEXEL_LINE_HEAD, '\n');
    Absent(TEXEL_LINE_MIDDLE, '\n');
    Absent(TEXEL_LINE_TAIL[..3], '\n');
    Absent(LAST_TEXEL_LINE_TAIL[..2], '\n');
  }

  /** The array section holds exactly one line per texel. */
  lemma {:induction false} TexelBlockLineCount(norms: seq<Integration.Vec2>, toHalf: real -> u16, n: nat)
    requires n <= |norms|
    ensures Occurrences(Concat(TexelLines(norms, toHalf)[..n]), '\n') == n
  {
    var lines := TexelLines(norms, toHalf);
    if n > 0 {
      TexelBlockLineCount(norms, toHalf, n - 1);
      ConcatStep(lines, n - 1);
      OccurrencesAppend(Concat(lines[..n - 1]), lines[n - 1], '\n');
      TexelLineHasOneLineFeed(toHalf(norms[n - 1].x), toHalf(norms[n - 1].y), n == |norms|);
    } else {
      assert lines[..0] == [];
    }
  }

  /** The whole array section holds exactly one line per texel. */
  lemma TexelBlockLines(norms: seq<Integration.Vec2>, toHalf: real -> u16)
    ensures Occurrences(Concat(TexelLines(norms, toHalf)), '\n') == |norms|
  {
    var lines := TexelLines(norms, toHalf);
    TexelBlockLineCount(norms, toHalf, |norms|);
    assert lines[..|norms|] == lines;
  }

  /** Everything the C header holds before its texel lines: the preamble, the
      width line, the height line and the array opener. */
  function HeaderOpening(banner: string, width: u32, height: u32): string {
    Preamble(banner) + DimensionLine(WIDTH_LINE_HEAD, width) + DimensionLine(HEIGHT_LINE_HEAD, height) + ARRAY_OPENER
  }

  /** The C header text: the opening, the texel lines, the trailer. */
  function HeaderText(banner: string, width: u32, height: u32, norms: seq<Integration.Vec2>, toHalf: real -> u16): string {
    HeaderOpening(banner, width, height) + Concat(TexelLines(norms, toHalf)) + TRAILER
  }

  /** Writes the preamble, then the width line and the height line (each as
      formatted with `%d`), then the array opener. */
  method WriteHeaderOpening(file: OutputFile<char>, banner: string, width: u32, height: u32)
    modifies file
    ensures file.contents == old(file.contents) + HeaderOpening(banner, width, height)
  {
    ghost var start := file.contents;
    var preamble := Preamble(banner);
    var widthLine := DimensionLine(WIDTH_LINE_HEAD, width);
    var heightLine := DimensionLine(HEIGHT_LINE_HEAD, height);
    file.Write(preamble);
    file.Write(widthLine);
    file.Write(heightLine);
    file.Write(ARRAY_OPENER);
    AppendFour(start, preamble, widthLine, heightLine, ARRAY_OPENER);
  }

  /** Writes the C header file; the texel loop runs over the count width * height
      and picks the comma-less format for its last index. */
  method WriteHeaderFile(file: OutputFile<char>, banner: string, width: u32, height: u32, norms: seq<Integration.Vec2>, toHalf: real -> u16)
    requires |norms| == width * height
    modifies file
    ensures file.contents == old(file.contents) + HeaderText(banner, width, height, norms, toHalf)
  {
    ghost var start := file.contents;
    WriteHeaderOpening(file, banner, width, height);
    ghost var opening := file.contents;
    ghost var lines := TexelLines(norms, toHalf);
    var count := width * height;
    var index := 0;
    assert Concat(lines[..index]) == [];
    EmptySuffix(opening);
    while index < count
      invariant 0 <= index <= count
      invariant file.contents == opening + Concat(lines[..index])
    {
      var hx := toHalf(norms[index].x);
      var hy := toHalf(norms[index].y);
      var line: string;
      if count != index + 1 {
        line := TexelLine(hx, hy, false);
      } else {
        line := TexelLine(hx, hy, true);
      }
      assert line == lines[index];
      file.Write(line);
      ConcatStep(lines, index);
      AppendTwo(opening, Concat(lines[..index]), line);
      index := index + 1;
    }
    assert lines[..index] == lines;
    file.Write(TRAILER);
    AppendThree(start, HeaderOpening(banner, width, height), Concat(lines), TRAILER);
  }

  // ---------------------------------------------------------------------------
  // The generator.

  /** Builds the 128 x 128 table and writes the DDS file and the C header file. */
  method GenerateLookUpTables(ext: Integration.Externals, toHalf: real -> u16, banner: string)
    returns (dds: OutputFile<byte>, header: OutputFile<char>)
    ensures dds.contents == DdsFile(LUT_HEIGHT, LUT_WIDTH, Integration.Table(LUT_WIDTH, LUT_HEIGHT, ext), toHalf)
    ensures header.contents == HeaderText(banner, LUT_WIDTH, LUT_HEIGHT, Integration.Table(LUT_WIDTH, LUT_HEIGHT, ext), toHalf)
  {
    var count := LUT_WIDTH * LUT_HEIGHT;
    assert Integration.TexelCount(LUT_WIDTH, LUT_HEIGHT) == count;
    var lut := new Integration.Vec2[count];
    ghost var slots := Integration.ComputeNorms(lut, LUT_WIDTH, LUT_HEIGHT, ext);
    ghost var table := Integration.Table(LUT_WIDTH, LUT_HEIGHT, ext);
    var norms := lut[..];
    assert norms == lut[..count] == table;

    dds := new OutputFile<byte>.Open();
    WriteDds(dds, LUT_HEIGHT, LUT_WIDTH, norms, toHalf);
    EmptyPrefix(DdsFile(LUT_HEIGHT, LUT_WIDTH, norms, toHalf));

    assert dds.contents == DdsFile(LUT_HEIGHT, LUT_WIDTH, table, toHalf);

    header := new OutputFile<char>.Open();
    WriteHeaderFile(header, banner, LUT_WIDTH, LUT_HEIGHT, norms, toHalf);
    EmptyPrefix(HeaderText(banner, LUT_WIDTH, LUT_HEIGHT, norms, toHalf));
    assert header.contents == HeaderText(banner, LUT_WIDTH, LUT_HEIGHT, table, toHalf);
  }
}
