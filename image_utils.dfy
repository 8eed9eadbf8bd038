/**
 * Header probing and file-type decisions (imagura/image_utils.py): the PNG
 * IHDR reader, the JPEG marker scan for a start-of-frame segment, the
 * "heavy image" decision and the supported-extension test. File reads and
 * file sizes are passed in as values.
 */
module ImageUtils {
  import opened Wrappers

  /** A byte of the file header, as Python's `bytes` indexing yields it. */
  newtype byte = b: int | 0 <= b < 256

  /** Big-endian unsigned 16-bit value of two bytes. */
  function BE16(hi: byte, lo: byte): (r: int)
    ensures 0 <= r < 65536
  {
    (hi as int) * 256 + lo as int
  }

  /** Big-endian unsigned 32-bit value of four bytes. */
  function BE32(b: seq<byte>): (r: int)
    requires |b| == 4
    ensures 0 <= r < 0x1_0000_0000
  {
    BE16(b[0], b[1]) * 0x1_0000 + BE16(b[2], b[3])
  }

  /** The two big-endian bytes of a 16-bit value. */
  function EncodeBE16(n: int): (b: seq<byte>)
    requires 0 <= n < 65536
    ensures |b| == 2
    ensures BE16(b[0], b[1]) == n
  {
    var hi := n / 256;
    var lo := n % 256;
    [hi as byte, lo as byte]
  }

  /** The four big-endian bytes of a 32-bit value. */
  function EncodeBE32(n: int): (b: seq<byte>)
    requires 0 <= n < 0x1_0000_0000
    ensures |b| == 4
    ensures BE32(b) == n
  {
    EncodeBE16(n / 0x1_0000) + EncodeBE16(n % 0x1_0000)
  }

  // ---------------------------------------------------------------- PNG

  /** The eight-byte PNG file signature (section 5.2 of the PNG specification). */
  const PngSignature: seq<byte> := [0x89, 0x50, 0x4E, 0x47, 0x0D, 0x0A, 0x1A, 0x0A]

  /**
   * `_probe_png`: width and height are the big-endian fields at bytes 16..19
   * and 20..23, where the IHDR chunk keeps them (section 11.2.2 of the PNG
   * specification), provided the data is long enough and starts with the
   * signature.
   */
  function ProbePng(data: seq<byte>): (r: Option<(int, int)>)
    ensures r.Some? <==> |data| >= 24 && data[..8] == PngSignature
    ensures r.Some? ==> r.value == (BE32(data[16..20]), BE32(data[20..24]))
    ensures r.Some? ==> 0 <= r.value.0 < 0x1_0000_0000 && 0 <= r.value.1 < 0x1_0000_0000
  {
    if |data| < 24 || data[..8] != PngSignature then None
    else
      var width := BE32(data[16..20]);
      var height := BE32(data[20..24]);
      Some((width, height))
  }

  /** The chunk type of the image header chunk: "IHDR". */
  const IhdrType: seq<byte> := [0x49, 0x48, 0x44, 0x52]

  /** The first 24 bytes of a PNG file whose header declares `w` x `h`. */
  function PngHeader(w: int, h: int): (b: seq<byte>)
    requires 0 <= w < 0x1_0000_0000 && 0 <= h < 0x1_0000_0000
    ensures |b| == 24
  {
    PngSignature + EncodeBE32(13) + IhdrType + EncodeBE32(w) + EncodeBE32(h)
  }

  /** Probing a PNG file that starts with a well-formed header returns its declared size. */
  lemma ProbePngRoundTrip(w: int, h: int, rest: seq<byte>)
    requires 0 <= w < 0x1_0000_0000 && 0 <= h < 0x1_0000_0000
    ensures ProbePng(PngHeader(w, h) + rest) == Some((w, h))
  {
    var data := PngHeader(w, h) + rest;
    assert data[..8] == PngSignature;
    assert data[16..20] == EncodeBE32(w);
    assert data[20..24] == EncodeBE32(h);
  }

  // --------------------------------------------------------------- JPEG

  /** Start-of-frame markers SOF0..SOF3, whose segment holds the image size. */
  predicate IsSofMarker(m: byte) {
    m == 0xC0 || m == 0xC1 || m == 0xC2 || m == 0xC3
  }

  /**
   * The marker scan of `_probe_jpeg` from position `i`: at 0xFF followed by
   * SOF0..SOF3 the frame header gives height at i+5 and width at i+7
   * (ITU-T T.81 Annex B.2.2); another marker skips its segment; a stuffed
   * 0xFF00, a fill byte 0xFFFF or a non-marker byte advances by one.
   */
  function JpegScan(data: seq<byte>, i: nat): (r: Option<(int, int)>)
    decreases |data| - i
  {
    if i + 9 >= |data| then None
    else if data[i] == 0xFF then
      var marker := data[i + 1];
      if IsSofMarker(marker) then
        var height := BE16(data[i + 5], data[i + 6]);
        var width := BE16(data[i + 7], data[i + 8]);
        Some((width, height))
      else if marker != 0x00 && marker != 0xFF && i + 3 < |data| then
        var segLen := BE16(data[i + 2], data[i + 3]);
        JpegScan(data, i + 2 + segLen)
      else
        JpegScan(data, i + 1)
    else
      JpegScan(data, i + 1)
  }

  /** `_probe_jpeg`: the scan loop, reading only inside the buffer. */
  method ProbeJpeg(data: seq<byte>) returns (r: Option<(int, int)>)
    ensures r == JpegScan(data, 0)
  {
    var i: nat := 0;
    while i + 9 < |data|
      invariant JpegScan(data, i) == JpegScan(data, 0)
      decreases |data| - i
    {
      if data[i] == 0xFF {
        var marker := data[i + 1];
        if IsSofMarker(marker) {
          var height := BE16(data[i + 5], data[i + 6]);
          var width := BE16(data[i + 7], data[i + 8]);
          return Some((width, height));
        } else if marker != 0x00 && marker != 0xFF && i + 3 < |data| {
          var segLen := BE16(data[i + 2], data[i + 3]);
          i := i + 2 + segLen;
        } else {
          i := i + 1;
        }
      } else {
        i := i + 1;
      }
    }
    return None;
  }

  /** There is an SOF marker at `j` whose frame header is complete in `data`. */
  predicate SofAt(data: seq<byte>, j: nat) {
    j + 9 < |data| && data[j] == 0xFF && IsSofMarker(data[j + 1])
  }

  /**
   * A result always comes from a start-of-frame segment at some `j` at or
   * after `i`: width from bytes j+7..j+8, height from j+5..j+6.
   */
  lemma {:induction false} JpegScanSound(data: seq<byte>, i: nat) returns (j: nat)
    requires JpegScan(data, i).Some?
    ensures i <= j && SofAt(data, j)
    ensures JpegScan(data, i).value == (BE16(data[j + 7], data[j + 8]), BE16(data[j + 5], data[j + 6]))
    decreases |data| - i
  {
    if data[i] == 0xFF && IsSofMarker(data[i + 1]) {
      j := i;
    } else if data[i] == 0xFF && data[i + 1] != 0x00 && data[i + 1] != 0xFF && i + 3 < |data| {
      var next := i + 2 + BE16(data[i + 2], data[i + 3]);
      assert JpegScan(data, i) == JpegScan(data, next);
      j := JpegScanSound(data, next);
    } else {
      assert JpegScan(data, i) == JpegScan(data, i + 1);
      j := JpegScanSound(data, i + 1);
    }
  }

  /** Both reported dimensions are 16-bit values. */
  lemma JpegScanBounds(data: seq<byte>, i: nat)
    requires JpegScan(data, i).Some?
    ensures 0 <= JpegScan(data, i).value.0 < 65536 && 0 <= JpegScan(data, i).value.1 < 65536
  {
    var j := JpegScanSound(data, i);
  }

  /** With no start-of-frame marker anywhere from `i` on, the scan finds nothing. */
  lemma {:induction false} JpegScanNoSof(data: seq<byte>, i: nat)
    requires forall j: nat :: i <= j ==> !SofAt(data, j)
    ensures JpegScan(data, i) == None
    decreases |data| - i
  {
    if i + 9 < |data| {
      assert !SofAt(data, i);
      if data[i] == 0xFF && data[i + 1] != 0x00 && data[i + 1] != 0xFF && i + 3 < |data| {
        JpegScanNoSof(data, i + 2 + BE16(data[i + 2], data[i + 3]));
      } else {
        JpegScanNoSof(data, i + 1);
      }
    }
  }

  /**
   * Bytes before the first 0xFF are skipped one at a time, and an SOF0
   * frame header declaring a 640 x 480 image is then read in place.
   */
  lemma JpegScanExample()
    ensures JpegScan([0x00, 0xFF, 0xC0, 0x00, 0x11, 0x08, 0x01, 0xE0, 0x02, 0x80, 0x03], 0) == Some((640, 480))
  {
    var d: seq<byte> := [0x00, 0xFF, 0xC0, 0x00, 0x11, 0x08, 0x01, 0xE0, 0x02, 0x80, 0x03];
    assert JpegScan(d, 0) == JpegScan(d, 1);
    assert BE16(d[6], d[7]) == 480;
    assert BE16(d[8], d[9]) == 640;
  }

  // ------------------------------------- well-formed JPEG marker streams

  /**
   * Markers that stand alone, without a length field (ITU-T T.81 Table B.1):
   * TEM, RST0..RST7, SOI and EOI.
   */
  predicate IsStandaloneMarker(m: byte) {
    m == 0x01 || (0xD0 <= m && m <= 0xD9)
  }

  /** A marker segment with a length field: APPn, DQT, DHT, COM, ... */
  datatype Segment = Segment(marker: byte, payload: seq<byte>)

  /** A segment the scan has to step over: not a frame header, length fits 16 bits. */
  predicate SkippableSegment(s: Segment) {
    !IsSofMarker(s.marker) && !IsStandaloneMarker(s.marker) &&
    s.marker != 0x00 && s.marker != 0xFF && |s.payload| + 2 < 65536
  }

  /** 0xFF, the marker, the big-endian length (which counts itself), the payload. */
  function EncodeSegment(s: Segment): (b: seq<byte>)
    requires SkippableSegment(s)
    ensures |b| == 4 + |s.payload|
    ensures b[0] == 0xFF && b[1] == s.marker && BE16(b[2], b[3]) == |s.payload| + 2
  {
    [0xFF, s.marker] + EncodeBE16(|s.payload| + 2) + s.payload
  }

  function EncodeSegments(segs: seq<Segment>): (b: seq<byte>)
    requires forall k :: 0 <= k < |segs| ==> SkippableSegment(segs[k])
    ensures segs != [] ==> |b| >= 4 && b[0] == 0xFF
  {
    if segs == [] then [] else EncodeSegment(segs[0]) + EncodeSegments(segs[1..])
  }

  /**
   * The first ten bytes of an SOF0 segment: marker, length 17 (one
   * component), precision 8, height, width, one component.
   */
  function FrameHeader(w: int, h: int): (b: seq<byte>)
    requires 0 <= w < 65536 && 0 <= h < 65536
    ensures |b| == 10 && b[0] == 0xFF && b[1] == 0xC0
    ensures BE16(b[5], b[6]) == h && BE16(b[7], b[8]) == w
  {
    [0xFF, 0xC0, 0x00, 0x11, 0x08] + EncodeBE16(h) + EncodeBE16(w) + [0x01]
  }

  /** SOI, then the segments, then a frame header declaring `w` x `h`, then anything. */
  function JpegStream(segs: seq<Segment>, w: int, h: int, rest: seq<byte>): (b: seq<byte>)
    requires forall k :: 0 <= k < |segs| ==> SkippableSegment(segs[k])
    requires 0 <= w < 65536 && 0 <= h < 65536
    ensures |b| == 12 + |EncodeSegments(segs)| + |rest|
    ensures b[..2] == [0xFF, 0xD8] && b[2] == 0xFF
  {
    [0xFF, 0xD8] + EncodeSegments(segs) + FrameHeader(w, h) + rest
  }

  /**
   * Every well-formed stream of up to 65291 bytes -- the start-of-image
   * marker, segments, a frame header -- defeats the scan as written: it reads
   * SOI as if it had a length field, takes the next marker bytes (0xFF, m)
   * as a length of at least 65280 and jumps past the end.
   */
  lemma JpegScanMissesFrameAfterSoi(segs: seq<Segment>, w: int, h: int, rest: seq<byte>)
    requires forall k :: 0 <= k < |segs| ==> SkippableSegment(segs[k])
    requires 0 <= w < 65536 && 0 <= h < 65536
    requires |JpegStream(segs, w, h, rest)| <= 65291
    ensures JpegScan(JpegStream(segs, w, h, rest), 0) == None
  {
    var data := JpegStream(segs, w, h, rest);
    assert data[0] == 0xFF && data[1] == 0xD8 && data[2] == 0xFF;
    var next := 2 + BE16(data[2], data[3]);
    assert next >= 65282;
    assert JpegScan(data, 0) == JpegScan(data, next);
  }

  /**
   * The scan with standalone markers stepped over by two bytes, as
   * section B.1.1.3 of ITU-T T.81 lays them out; otherwise as `JpegScan`.
   */
  function JpegScanFixed(data: seq<byte>, i: nat): (r: Option<(int, int)>)
    ensures r.Some? ==> 0 <= r.value.0 < 65536 && 0 <= r.value.1 < 65536
    decreases |data| - i
  {
    if i + 9 >= |data| then None
    else if data[i] == 0xFF then
      var marker := data[i + 1];
      if IsSofMarker(marker) then
        var height := BE16(data[i + 5], data[i + 6]);
        var width := BE16(data[i + 7], data[i + 8]);
        Some((width, height))
      else if IsStandaloneMarker(marker) then
        JpegScanFixed(data, i + 2)
      else if marker != 0x00 && marker != 0xFF && i + 3 < |data| then
        var segLen := BE16(data[i + 2], data[i + 3]);
        JpegScanFixed(data, i + 2 + segLen)
      else
        JpegScanFixed(data, i + 1)
    else
      JpegScanFixed(data, i + 1)
  }

  /** `data` holds the bytes `b` from position `i` on. */
  predicate BytesAt(data: seq<byte>, i: nat, b: seq<byte>) {
    i + |b| <= |data| && data[i..i + |b|] == b
  }

  /** A frame header at `i` is read in place by the corrected scan. */
  lemma JpegScanFixedFrame(data: seq<byte>, i: nat, w: int, h: int)
    requires 0 <= w < 65536 && 0 <= h < 65536
    requires BytesAt(data, i, FrameHeader(w, h))
    ensures JpegScanFixed(data, i) == Some((w, h))
  {
    var f := FrameHeader(w, h);
    assert data[i] == f[0] && data[i + 1] == f[1];
    assert data[i + 5] == f[5] && data[i + 6] == f[6];
    assert data[i + 7] == f[7] && data[i + 8] == f[8];
  }

  /** A skippable segment at `i` is stepped over as a whole by the corrected scan. */
  lemma JpegScanFixedSkip(data: seq<byte>, i: nat, s: Segment)
    requires SkippableSegment(s)
    requires BytesAt(data, i, EncodeSegment(s)) && i + |EncodeSegment(s)| + 10 <= |data|
    ensures JpegScanFixed(data, i) == JpegScanFixed(data, i + |EncodeSegment(s)|)
  {
    var e := EncodeSegment(s);
    assert data[i] == e[0] && data[i + 1] == e[1];
    assert data[i + 2] == e[2] && data[i + 3] == e[3];
  }

  /** Bytes `a + b` at `i` are `a` at `i` followed by `b`. */
  lemma BytesAtSplit(data: seq<byte>, i: nat, a: seq<byte>, b: seq<byte>)
    requires BytesAt(data, i, a + b)
    ensures BytesAt(data, i, a) && BytesAt(data, i + |a|, b)
  {
    assert data[i..i + |a|] == (a + b)[..|a|];
    assert data[i + |a|..i + |a| + |b|] == (a + b)[|a|..];
  }

  /** The first of the segments at `i` is stepped over, landing on the others. */
  lemma JpegScanFixedFirstSegment(data: seq<byte>, i: nat, segs: seq<Segment>, w: int, h: int)
    requires segs != [] && forall k :: 0 <= k < |segs| ==> SkippableSegment(segs[k])
    requires 0 <= w < 65536 && 0 <= h < 65536
    requires BytesAt(data, i, EncodeSegments(segs) + FrameHeader(w, h))
    ensures BytesAt(data, i + |EncodeSegment(segs[0])|, EncodeSegments(segs[1..]) + FrameHeader(w, h))
    ensures JpegScanFixed(data, i) == JpegScanFixed(data, i + |EncodeSegment(segs[0])|)
  {
    var f := FrameHeader(w, h);
    var e := EncodeSegment(segs[0]);
    var rest := EncodeSegments(segs[1..]);
    assert EncodeSegments(segs) + f == e + (rest + f);
    BytesAtSplit(data, i, e, rest + f);
    JpegScanFixedSkip(data, i, segs[0]);
  }

  /** Starting at a segment boundary, the corrected scan walks the segments to the frame header. */
  lemma {:induction false} JpegScanFixedSegments(data: seq<byte>, i: nat, segs: seq<Segment>, w: int, h: int)
    requires forall k :: 0 <= k < |segs| ==> SkippableSegment(segs[k])
    requires 0 <= w < 65536 && 0 <= h < 65536
    requires BytesAt(data, i, EncodeSegments(segs) + FrameHeader(w, h))
    ensures JpegScanFixed(data, i) == Some((w, h))
    decreases |segs|
  {
    if segs == [] {
      BytesAtSplit(data, i, EncodeSegments(segs), FrameHeader(w, h));
      JpegScanFixedFrame(data, i, w, h);
    } else {
      JpegScanFixedFirstSegment(data, i, segs, w, h);
      JpegScanFixedSegments(data, i + |EncodeSegment(segs[0])|, segs[1..], w, h);
    }
  }

  /** The corrected scan reads the declared size of every well-formed stream. */
  lemma JpegScanFixedFindsFrame(segs: seq<Segment>, w: int, h: int, rest: seq<byte>)
    requires forall k :: 0 <= k < |segs| ==> SkippableSegment(segs[k])
    requires 0 <= w < 65536 && 0 <= h < 65536
    ensures JpegScanFixed(JpegStream(segs, w, h, rest), 0) == Some((w, h))
  {
    var data := JpegStream(segs, w, h, rest);
    var body := EncodeSegments(segs) + FrameHeader(w, h);
    assert data == [0xFF, 0xD8] + body + rest;
    assert data[2..2 + |body|] == body;
    assert BytesAt(data, 2, body);
    assert JpegScanFixed(data, 0) == JpegScanFixed(data, 2);
    JpegScanFixedSegments(data, 2, segs, w, h);
  }

  // -------------------------------------------------- file decisions

  /** File size, in MiB, at and above which an image counts as heavy. */
  const HeavyFileSizeMb: real := 10.0

  /** Shorter side, in pixels, at and above which an image counts as heavy. */
  const HeavyMinShortSide: int := 4000

  /**
   * The `is_heavy_image` decision. `sizeBytes` is None when the size could
   * not be read (the error is swallowed); `dims` is what the header probe
   * returned.
   */
  function IsHeavyImage(sizeBytes: Option<int>, dims: Option<(int, int)>): (r: bool)
    ensures r <==> (sizeBytes.Some? && sizeBytes.value >= 10 * 1024 * 1024) ||
                   (dims.Some? && dims.value.0 >= HeavyMinShortSide && dims.value.1 >= HeavyMinShortSide)
  {
    if sizeBytes.Some? && sizeBytes.value as real / (1024 * 1024) as real >= HeavyFileSizeMb then true
    else if dims.Some? then
      var (w, h) := dims.value;
      if (if w <= h then w else h) >= HeavyMinShortSide then true else false
    else false
  }

  /** Supported file extensions, lower case with the dot. */
  const ImgExts: set<string> := {".png", ".jpg", ".jpeg", ".bmp", ".tga", ".gif", ".qoi"}

  /** Index of the last `c` in `s`, or -1. */
  function RFind(s: string, c: char): (r: int)
    ensures -1 <= r < |s|
    ensures r >= 0 ==> s[r] == c
    ensures forall k :: r < k < |s| ==> s[k] != c
  {
    RFindBelow(s, c, |s|)
  }

  /** Index of the last `c` in `s[..n]`, or -1. */
  function RFindBelow(s: string, c: char, n: nat): (r: int)
    requires n <= |s|
    ensures -1 <= r < n
    ensures r >= 0 ==> s[r] == c
    ensures forall k :: r < k < n ==> s[k] != c
  {
    if n == 0 then -1
    else if s[n - 1] == c then n - 1
    else RFindBelow(s, c, n - 1)
  }

  /** Some character of `s` is not a dot. */
  function HasNonDot(s: string): (r: bool)
    ensures r <==> exists k :: 0 <= k < |s| && s[k] != '.'
  {
    if |s| == 0 then false
    else if s[0] != '.' then true
    else
      assert forall k :: 1 <= k < |s| ==> s[k] == s[1..][k - 1];
      HasNonDot(s[1..])
  }

  /**
   * The extension part of `os.path.splitext` on Windows paths: from the last
   * dot of the final path component, provided that component has a non-dot
   * character before it; otherwise empty. Both '/' and '\' separate
   * components.
   */
  function Extension(path: string): (ext: string)
    ensures |ext| <= |path|
    ensures ext != "" ==> ext[0] == '.' && path[|path| - |ext|..] == ext
    ensures forall k :: 0 < k < |ext| ==> ext[k] != '.' && ext[k] != '/' && ext[k] != '\\'
  {
    var slash := RFind(path, '/');
    var backslash := RFind(path, '\\');
    var sepIndex := if slash >= backslash then slash else backslash;
    var dotIndex := RFind(path, '.');
    if dotIndex > sepIndex && HasNonDot(path[sepIndex + 1..dotIndex]) then
      path[dotIndex..]
    else
      ""
  }

  function LowerChar(c: char): (r: char)
    ensures 'A' <= c <= 'Z' ==> r as int == c as int + 32
    ensures !('A' <= c <= 'Z') ==> r == c
  {
    if 'A' <= c <= 'Z' then (c as int + 32) as char else c
  }

  /** Lower case, ASCII letters only; the extensions compared against are ASCII. */
  function Lower(s: string): (r: string)
    ensures |r| == |s|
    ensures forall k :: 0 <= k < |s| ==> r[k] == LowerChar(s[k])
  {
    if |s| == 0 then "" else Lower(s[..|s| - 1]) + [LowerChar(s[|s| - 1])]
  }

  /** `is_supported_image`: the lower-cased extension is one of the image extensions. */
  predicate IsSupportedImage(path: string) {
    Lower(Extension(path)) in ImgExts
  }

  /** The extension is matched case-insensitively. */
  lemma SupportedUpperCaseExtension()
    ensures IsSupportedImage("Pics\\Trip.JPG")
  {
    assert RFindBelow("Pics\\Trip.JPG", '.', 13) == 9;
    assert RFindBelow("Pics\\Trip.JPG", '/', 13) == -1;
    assert RFindBelow("Pics\\Trip.JPG", '\\', 13) == 4;
    assert Extension("Pics\\Trip.JPG") == ".JPG";
    assert Lower(".JPG") == ".jpg";
  }

  /** A name that is only a dot and an extension, such as `.png`, has no extension. */
  lemma DotFileNotSupported(name: string)
    requires |name| > 0
    requires forall k :: 0 <= k < |name| ==> name[k] != '.' && name[k] != '/' && name[k] != '\\'
    ensures !IsSupportedImage("." + name)
  {
    var path := "." + name;
    assert path[0] == '.';
    assert forall k :: 0 < k < |path| ==> path[k] == name[k - 1];
    assert forall k :: 0 < k < |path| ==> path[k] != '.' && path[k] != '/' && path[k] != '\\';
    assert RFind(path, '.') == 0;
    assert RFind(path, '/') == -1 && RFind(path, '\\') == -1;
    assert !HasNonDot(path[0..0]);
    assert Extension(path) == "";
    assert Lower(Extension(path)) == "";
    assert forall e | e in ImgExts :: |e| >= 4;
  }

  /** A dot in a folder name does not make an extension. */
  lemma DottedFolderNotSupported()
    ensures !IsSupportedImage("shots.png/readme")
  {
    assert RFindBelow("shots.png/readme", '.', 16) == 5;
    assert RFindBelow("shots.png/readme", '/', 16) == 9;
    assert Extension("shots.png/readme") == "";
  }

  /**
   * `probe_image_dimensions` once the first 64 KiB of the file are read
   * (None when the read failed): JPEG and PNG by extension, nothing
   * otherwise. JPEG headers go through `_probe_jpeg` as written.
   */
  function ProbeImageDimensions(path: string, header: Option<seq<byte>>): (r: Option<(int, int)>)
    ensures header.None? ==> r.None?
    ensures header.Some? && Lower(Extension(path)) == ".png" ==> r == ProbePng(header.value)
    ensures header.Some? && Lower(Extension(path)) in {".jpg", ".jpeg"} ==> r == JpegScan(header.value, 0)
    ensures !(Lower(Extension(path)) in {".jpg", ".jpeg", ".png"}) ==> r.None?
  {
    var ext := Lower(Extension(path));
    if header.None? then None
    else if ext == ".jpg" || ext == ".jpeg" then JpegScan(header.value, 0)
    else if ext == ".png" then ProbePng(header.value)
    else None
  }

  /** `probe_image_dimensions` with the corrected JPEG scan. */
  function ProbeImageDimensionsFixed(path: string, header: Option<seq<byte>>): (r: Option<(int, int)>)
    ensures header.None? ==> r.None?
    ensures header.Some? && Lower(Extension(path)) == ".png" ==> r == ProbePng(header.value)
    ensures header.Some? && Lower(Extension(path)) in {".jpg", ".jpeg"} ==> r == JpegScanFixed(header.value, 0)
    ensures !(Lower(Extension(path)) in {".jpg", ".jpeg", ".png"}) ==> r.None?
  {
    var ext := Lower(Extension(path));
    if header.None? then None
    else if ext == ".jpg" || ext == ".jpeg" then JpegScanFixed(header.value, 0)
    else if ext == ".png" then ProbePng(header.value)
    else None
  }

  /**
   * For a standard JPEG that fits in the 64 KiB header read, the probe as
   * written finds no dimensions and the corrected probe finds the frame's.
   */
  lemma ProbeDimensionsOfSmallJpeg(path: string, segs: seq<Segment>, w: int, h: int, rest: seq<byte>)
    requires Lower(Extension(path)) in {".jpg", ".jpeg"}
    requires forall k :: 0 <= k < |segs| ==> SkippableSegment(segs[k])
    requires 0 <= w < 65536 && 0 <= h < 65536
    requires |JpegStream(segs, w, h, rest)| <= 65291
    ensures ProbeImageDimensions(path, Some(JpegStream(segs, w, h, rest))) == None
    ensures ProbeImageDimensionsFixed(path, Some(JpegStream(segs, w, h, rest))) == Some((w, h))
  {
    JpegScanMissesFrameAfterSoi(segs, w, h, rest);
    JpegScanFixedFindsFrame(segs, w, h, rest);
  }
}
