/** The walks against a grammar of what they accept: a file passes exactly when it is the
    serialization of a legal list of pieces. */
module ContainerGrammar {
  import opened Wrappers
  import opened Containers

  // ------------------------------------------------------- the names and numbers of the formats

  function Ascii(name: string): Bytes {
    seq(|name|, i requires 0 <= i < |name| => name[i] as int % 0x100)
  }

  /** The signatures, the chunk names and the markers, as their specifications spell them. */
  lemma NamesSpelledOut(kind: Bytes, marker: Byte)
    ensures JPEG_MAGIC == [255, 216, 255] && PNG_MAGIC == [137] + Ascii("PNG") + [13, 10, 26, 10]
    ensures RIFF == Ascii("RIFF") && WEBP == Ascii("WEBP")
    ensures IHDR == Ascii("IHDR") && IDAT == Ascii("IDAT") && IEND == Ascii("IEND")
    ensures ImageKind(kind) <==> kind == Ascii("VP8 ") || kind == Ascii("VP8L") || kind == Ascii("ANMF")
    ensures SOI == 216 && EOI == 217 && SOS == 218 && TEM == 1
    ensures Restart(marker) <==> marker == 208 || marker == 209 || marker == 210 || marker == 211 || marker == 212
                                 || marker == 213 || marker == 214 || marker == 215
  {
    assert ImageKind(kind) <==> kind == VP8 || kind == VP8L || kind == ANMF;
    assert VP8 == Ascii("VP8 ") && VP8L == Ascii("VP8L") && ANMF == Ascii("ANMF");
  }

  /** JPEG and PNG write the high byte first, RIFF the low one. */
  lemma NumbersSpelledOut(a: Byte, b: Byte, c: Byte, d: Byte)
    ensures Big16([a, b]) == 256 * a + b
    ensures Big32([a, b, c, d]) == 256 * (256 * (256 * a + b) + c) + d
    ensures Little32([a, b, c, d]) == 256 * (256 * (256 * d + c) + b) + a
  {
  }

  // ------------------------------------------------------------- integers on the wire

  function PutBig16(n: nat): (b: Bytes)
    requires n < 0x1_0000
    ensures |b| == 2
  {
    [n / 0x100, n % 0x100]
  }

  function PutBig32(n: Checksum): (b: Bytes)
    ensures |b| == 4
  {
    [n / 0x100_0000, n / 0x1_0000 % 0x100, n / 0x100 % 0x100, n % 0x100]
  }

  function PutLittle32(n: Checksum): (b: Bytes)
    ensures |b| == 4
  {
    [n % 0x100, n / 0x100 % 0x100, n / 0x1_0000 % 0x100, n / 0x100_0000]
  }

  lemma DigitsUnique(a: nat, b: nat, c: nat, d: nat)
    requires a < 0x100 && b < 0x100 && c < 0x100 && d < 0x100
    ensures var n := 0x100_0000 * a + 0x1_0000 * b + 0x100 * c + d;
            && n < 0x1_0000_0000 && n / 0x100_0000 == a
            && n / 0x1_0000 % 0x100 == b && n / 0x100 % 0x100 == c && n % 0x100 == d
  {
    var n := 0x100_0000 * a + 0x1_0000 * b + 0x100 * c + d;
    assert n / 0x1_0000 == 0x100 * a + b;
    assert n / 0x100 == 0x100 * (0x100 * a + b) + c;
  }

  lemma Big32RoundTrip(b: Bytes)
    requires |b| == 4
    ensures Big32(b) < 0x1_0000_0000 && PutBig32(Big32(b)) == b
  {
    DigitsUnique(b[0], b[1], b[2], b[3]);
  }

  lemma Little32RoundTrip(b: Bytes)
    requires |b| == 4
    ensures Little32(b) < 0x1_0000_0000 && PutLittle32(Little32(b)) == b
  {
    DigitsUnique(b[3], b[2], b[1], b[0]);
  }

  lemma Put32RoundTrip(n: Checksum)
    ensures Big32(PutBig32(n)) == n && Little32(PutLittle32(n)) == n
  {
    assert n == 0x100 * (n / 0x100) + n % 0x100;
    assert n / 0x100 == 0x100 * (n / 0x1_0000) + n / 0x100 % 0x100;
    assert n / 0x1_0000 == 0x100 * (n / 0x100_0000) + n / 0x1_0000 % 0x100;
  }

  // ------------------------------------------------------------------------- PNG

  datatype PngChunk = PngChunk(kind: Bytes, data: Bytes)

  predicate PngShaped(chunk: PngChunk) { |chunk.kind| == 4 && |chunk.data| < 0x1_0000_0000 }

  function PutPngChunk(crc: Bytes -> Checksum, chunk: PngChunk): Bytes
    requires PngShaped(chunk)
  {
    PutBig32(|chunk.data|) + (chunk.kind + chunk.data) + PutBig32(crc(chunk.kind + chunk.data))
  }

  function PutPng(crc: Bytes -> Checksum, chunks: seq<PngChunk>): Bytes
    requires forall i :: 0 <= i < |chunks| ==> PngShaped(chunks[i])
  {
    if chunks == [] then [] else PutPngChunk(crc, chunks[0]) + PutPng(crc, chunks[1..])
  }

  /** A header of 13 bytes first, some image data, and one end chunk, last and empty. */
  predicate PngLegal(chunks: seq<PngChunk>) {
    && (forall i :: 0 <= i < |chunks| ==> PngShaped(chunks[i]))
    && |chunks| > 0
    && chunks[0].kind == IHDR && |chunks[0].data| == 13
    && (forall i :: 0 <= i < |chunks| ==> (chunks[i].kind == IEND <==> i == |chunks| - 1))
    && chunks[|chunks| - 1].data == []
    && (exists i :: 0 <= i < |chunks| && chunks[i].kind == IDAT)
  }

  predicate PngTail(chunks: seq<PngChunk>, sawData: bool) {
    && (forall i :: 0 <= i < |chunks| ==> PngShaped(chunks[i]))
    && |chunks| > 0
    && (forall i :: 0 <= i < |chunks| ==> (chunks[i].kind == IEND <==> i == |chunks| - 1))
    && chunks[|chunks| - 1].data == []
    && (sawData || exists i :: 0 <= i < |chunks| && chunks[i].kind == IDAT)
  }

  predicate HeaderFirst(chunks: seq<PngChunk>, first: bool) {
    first ==> chunks != [] && chunks[0].kind == IHDR && |chunks[0].data| == 13
  }

  /** The bytes of one chunk, taken apart. */
  lemma PngChunkLayout(crc: Bytes -> Checksum, chunk: PngChunk, after: Bytes)
    requires PngShaped(chunk)
    ensures var rest := PutPngChunk(crc, chunk) + after;
            var end := 12 + |chunk.data|;
            && |rest| == end + |after| && Big32(rest[..4]) == |chunk.data|
            && rest[4..8] == chunk.kind && rest[4..end - 4] == chunk.kind + chunk.data
            && Big32(rest[end - 4..end]) == crc(chunk.kind + chunk.data) && rest[end..] == after
  {
    var rest, end := PutPngChunk(crc, chunk) + after, 12 + |chunk.data|;
    Put32RoundTrip(|chunk.data|);
    Put32RoundTrip(crc(chunk.kind + chunk.data));
    assert rest[..4] == PutBig32(|chunk.data|);
    assert rest[4..end - 4] == chunk.kind + chunk.data;
    assert rest[4..8] == chunk.kind;
    assert rest[end - 4..end] == PutBig32(crc(chunk.kind + chunk.data));
  }

  lemma {:induction false} PngAcceptsWritten(crc: Bytes -> Checksum, chunks: seq<PngChunk>, first: bool, sawData: bool)
    requires PngTail(chunks, sawData) && HeaderFirst(chunks, first)
    ensures Png(crc, PutPng(crc, chunks), first, sawData)
    decreases |chunks|
  {
    PngChunkLayout(crc, chunks[0], PutPng(crc, chunks[1..]));
    if |chunks| == 1 {
      assert chunks[1..] == [];
    } else {
      PngAcceptsWritten(crc, chunks[1..], false, sawData || chunks[0].kind == IDAT);
    }
  }

  lemma PngTailJoins(chunk: PngChunk, chunks: seq<PngChunk>, sawData: bool)
    requires PngShaped(chunk) && chunk.kind != IEND && PngTail(chunks, sawData || chunk.kind == IDAT)
    ensures PngTail([chunk] + chunks, sawData)
  {
    var all := [chunk] + chunks;
    forall i | 0 <= i < |all| ensures PngShaped(all[i]) && (all[i].kind == IEND <==> i == |all| - 1) {
      if i > 0 {
        assert all[i] == chunks[i - 1];
      }
    }
    if !sawData {
      if chunk.kind == IDAT {
        assert all[0].kind == IDAT;
      } else {
        var i :| 0 <= i < |chunks| && chunks[i].kind == IDAT;
        assert all[i + 1].kind == IDAT;
      }
    }
  }

  lemma {:induction false} PngParses(crc: Bytes -> Checksum, rest: Bytes, first: bool, sawData: bool)
    returns (chunks: seq<PngChunk>)
    requires Png(crc, rest, first, sawData)
    ensures PngTail(chunks, sawData) && HeaderFirst(chunks, first) && PutPng(crc, chunks) == rest
    decreases |rest|
  {
    var end := 12 + Big32(rest[..4]);
    var chunk := PngChunk(rest[4..8], rest[8..end - 4]);
    Big32RoundTrip(rest[..4]);
    Big32RoundTrip(rest[end - 4..end]);
    assert rest[4..end - 4] == chunk.kind + chunk.data;
    assert rest == PutPngChunk(crc, chunk) + rest[end..];
    if chunk.kind == IEND {
      chunks := [chunk];
      assert chunks[1..] == [] && rest[end..] == [];
    } else {
      var tail := PngParses(crc, rest[end..], false, sawData || chunk.kind == IDAT);
      PngTailJoins(chunk, tail, sawData);
      chunks := [chunk] + tail;
      assert chunks[1..] == tail;
    }
  }

  /** The PNG walk accepts exactly the signature followed by a legal chunk list with correct checksums. */
  lemma PngGrammar(crc: Bytes -> Checksum, c: Bytes)
    requires PNG_MAGIC <= c
    ensures Accepts(crc, c) <==> exists chunks :: PngLegal(chunks) && c == PNG_MAGIC + PutPng(crc, chunks)
  {
    assert c[0] == 0x89;
    assert c == PNG_MAGIC + c[8..];
    if Accepts(crc, c) {
      var chunks := PngParses(crc, c[8..], true, false);
      assert PngLegal(chunks);
    }
    if chunks :| PngLegal(chunks) && c == PNG_MAGIC + PutPng(crc, chunks) {
      PngAcceptsWritten(crc, chunks, true, false);
      assert c[8..] == PutPng(crc, chunks);
    }
  }

  // ------------------------------------------------------------------------ WebP

  datatype WebpChunk = WebpChunk(kind: Bytes, data: Bytes, padding: Bytes)

  /** Odd data is padded with one byte, whatever it holds. */
  predicate WebpShaped(chunk: WebpChunk) {
    |chunk.kind| == 4 && |chunk.data| < 0x1_0000_0000 && |chunk.padding| == |chunk.data| % 2
  }

  function PutWebpChunk(chunk: WebpChunk): Bytes
    requires WebpShaped(chunk)
  {
    chunk.kind + PutLittle32(|chunk.data|) + chunk.data + chunk.padding
  }

  function PutWebp(chunks: seq<WebpChunk>): Bytes
    requires forall i :: 0 <= i < |chunks| ==> WebpShaped(chunks[i])
  {
    if chunks == [] then [] else PutWebpChunk(chunks[0]) + PutWebp(chunks[1..])
  }

  predicate WebpLegal(chunks: seq<WebpChunk>, sawImage: bool) {
    && (forall i :: 0 <= i < |chunks| ==> WebpShaped(chunks[i]))
    && (sawImage || exists i :: 0 <= i < |chunks| && ImageKind(chunks[i].kind))
  }

  lemma WebpChunkLayout(chunk: WebpChunk, after: Bytes)
    requires WebpShaped(chunk)
    ensures var rest := PutWebpChunk(chunk) + after;
            var end := 8 + |chunk.data| + |chunk.data| % 2;
            && |rest| == end + |after| && rest[..4] == chunk.kind
            && Little32(rest[4..8]) == |chunk.data| && rest[end..] == after
  {
    var rest := PutWebpChunk(chunk) + after;
    Put32RoundTrip(|chunk.data|);
    assert rest[..4] == chunk.kind && rest[4..8] == PutLittle32(|chunk.data|);
  }

  lemma {:induction false} WebpAcceptsWritten(chunks: seq<WebpChunk>, sawImage: bool)
    requires WebpLegal(chunks, sawImage)
    ensures Webp(PutWebp(chunks), sawImage)
    decreases |chunks|
  {
    if chunks != [] {
      var tail, saw := chunks[1..], sawImage || ImageKind(chunks[0].kind);
      WebpChunkLayout(chunks[0], PutWebp(tail));
      if !saw {
        var i :| 0 <= i < |chunks| && ImageKind(chunks[i].kind);
        assert ImageKind(tail[i - 1].kind);
      }
      WebpAcceptsWritten(tail, saw);
    }
  }

  lemma {:induction false} WebpParses(rest: Bytes, sawImage: bool) returns (chunks: seq<WebpChunk>)
    requires Webp(rest, sawImage)
    ensures WebpLegal(chunks, sawImage) && PutWebp(chunks) == rest
    decreases |rest|
  {
    if rest == [] {
      chunks := [];
    } else {
      var length := Little32(rest[4..8]);
      var end := 8 + length + length % 2;
      var chunk := WebpChunk(rest[..4], rest[8..8 + length], rest[8 + length..end]);
      Little32RoundTrip(rest[4..8]);
      assert rest == PutWebpChunk(chunk) + rest[end..];
      var tail := WebpParses(rest[end..], sawImage || ImageKind(chunk.kind));
      chunks := [chunk] + tail;
      assert chunks[1..] == tail;
      WebpJoins(chunk, tail, sawImage);
    }
  }

  lemma WebpJoins(chunk: WebpChunk, chunks: seq<WebpChunk>, sawImage: bool)
    requires WebpShaped(chunk) && WebpLegal(chunks, sawImage || ImageKind(chunk.kind))
    ensures WebpLegal([chunk] + chunks, sawImage)
  {
    var all := [chunk] + chunks;
    if !sawImage {
      if ImageKind(chunk.kind) {
        assert ImageKind(all[0].kind);
      } else {
        var i :| 0 <= i < |chunks| && ImageKind(chunks[i].kind);
        assert ImageKind(all[i + 1].kind);
      }
    }
  }

  function PutRiff(body: Bytes): Bytes
    requires |body| + 4 < 0x1_0000_0000
  {
    RIFF + PutLittle32(|body| + 4) + WEBP + body
  }

  lemma RiffLayout(body: Bytes)
    requires |body| + 4 < 0x1_0000_0000
    ensures var c := PutRiff(body);
            RIFF <= c && IsWebp(c) && c[12..] == body && c[0] == 0x52
  {
    var c := PutRiff(body);
    Put32RoundTrip(|body| + 4);
    assert c[4..8] == PutLittle32(|body| + 4) && c[8..12] == WEBP && c[12..] == body;
  }

  lemma RiffParsed(c: Bytes)
    requires IsWebp(c)
    ensures |c[12..]| + 4 < 0x1_0000_0000 && c == PutRiff(c[12..])
  {
    Little32RoundTrip(c[4..8]);
    assert c == c[..4] + c[4..8] + c[8..12] + c[12..];
  }

  /** The WebP walk accepts exactly a RIFF container of the stated size around padded chunks, one of
      them an image. */
  lemma WebpGrammar(crc: Bytes -> Checksum, c: Bytes)
    requires RIFF <= c
    ensures Accepts(crc, c) <==> exists chunks ::
              && WebpLegal(chunks, false) && |PutWebp(chunks)| + 4 < 0x1_0000_0000
              && c == PutRiff(PutWebp(chunks))
  {
    assert c[0] == 0x52;
    assert Accepts(crc, c) <==> IsWebp(c) && Webp(c[12..], false);
    hide PutRiff, IsWebp, Webp, Accepts, PutWebp;
    if Accepts(crc, c) {
      RiffParsed(c);
      var chunks := WebpParses(c[12..], false);
    }
    if chunks :| && WebpLegal(chunks, false) && |PutWebp(chunks)| + 4 < 0x1_0000_0000
                 && c == PutRiff(PutWebp(chunks)) {
      WebpAcceptsWritten(chunks, false);
      RiffLayout(PutWebp(chunks));
    }
  }

  // ------------------------------------------------------------------------ JPEG

  /** Entropy-coded bytes skipped inside a scan, the fill bytes, the marker, and its segment. */
  datatype JpegItem = JpegItem(skip: Bytes, fills: nat, marker: Byte, segment: Option<Bytes>)

  predicate JpegShaped(item: JpegItem, inScan: bool) {
    && 0xff !in item.skip && (!inScan ==> item.skip == [])
    && item.fills >= 1 && item.marker != 0xff
    && (item.segment.Some? ==> |item.segment.value| + 2 < 0x1_0000)
  }

  function FillBytes(n: nat): (b: Bytes)
    ensures |b| == n
  {
    seq(n, _ => 0xff)
  }

  function PutSegment(segment: Option<Bytes>): Bytes
    requires segment.Some? ==> |segment.value| + 2 < 0x1_0000
  {
    match segment
    case None => []
    case Some(data) => PutBig16(|data| + 2) + data
  }

  function PutJpegItem(item: JpegItem): Bytes
    requires item.segment.Some? ==> |item.segment.value| + 2 < 0x1_0000
  {
    item.skip + (FillBytes(item.fills) + ([item.marker] + PutSegment(item.segment)))
  }

  predicate Writable(items: seq<JpegItem>) {
    forall i :: 0 <= i < |items| && items[i].segment.Some? ==> |items[i].segment.value| + 2 < 0x1_0000
  }

  function PutJpeg(items: seq<JpegItem>): Bytes
    requires Writable(items)
  {
    if items == [] then [] else PutJpegItem(items[0]) + PutJpeg(items[1..])
  }

  predicate JpegLegal(items: seq<JpegItem>, inScan: bool, sawScan: bool)
    decreases |items|, 0
  {
    items != [] && JpegShaped(items[0], inScan) && Continues(items[0], items[1..], inScan, sawScan)
  }

  /** What may follow an item: in a scan stuffed zeros and restarts carry on, an end marker is last
      and comes after a scan, and every other marker but a few has a segment. */
  predicate Continues(item: JpegItem, later: seq<JpegItem>, inScan: bool, sawScan: bool)
    decreases |later|, 1
  {
    if inScan && (item.marker == 0 || Restart(item.marker))
    then item.segment.None? && JpegLegal(later, true, sawScan)
    else if item.marker == EOI then item.segment.None? && sawScan && later == []
    else if item.marker == TEM then item.segment.None? && JpegLegal(later, false, sawScan)
    else && item.marker !in {0, SOI} && !Restart(item.marker) && item.segment.Some?
         && JpegLegal(later, item.marker == SOS, sawScan || item.marker == SOS)
  }

  lemma {:induction false} LegalIsWritable(items: seq<JpegItem>, inScan: bool, sawScan: bool)
    requires JpegLegal(items, inScan, sawScan)
    ensures Writable(items)
    decreases |items|
  {
    var item, tail := items[0], items[1..];
    if inScan && (item.marker == 0 || Restart(item.marker)) {
      LegalIsWritable(tail, true, sawScan);
    } else if item.marker == EOI {
    } else if item.marker == TEM {
      LegalIsWritable(tail, false, sawScan);
    } else {
      LegalIsWritable(tail, item.marker == SOS, sawScan || item.marker == SOS);
    }
    forall i | 0 <= i < |items| && items[i].segment.Some? ensures |items[i].segment.value| + 2 < 0x1_0000 {
      if i > 0 {
        assert items[i] == tail[i - 1];
      }
    }
  }

  lemma {:induction false} SkipMeasured(skip: Bytes, after: Bytes)
    requires 0xff !in skip && after != [] && after[0] == 0xff
    ensures BeforeFF(skip + after) == |skip|
    decreases |skip|
  {
    if skip == [] {
      assert skip + after == after;
    } else {
      assert (skip + after)[1..] == skip[1..] + after;
      SkipMeasured(skip[1..], after);
    }
  }

  lemma {:induction false} FillsMeasured(n: nat, after: Bytes)
    requires after != [] && after[0] != 0xff
    ensures Fills(FillBytes(n) + after) == n
    decreases n
  {
    if n == 0 {
      assert FillBytes(0) + after == after;
    } else {
      assert (FillBytes(n) + after)[1..] == FillBytes(n - 1) + after;
      FillsMeasured(n - 1, after);
    }
  }

  /** The walk over one written item stops right behind its marker. */
  lemma JpegItemLayout(item: JpegItem, after: Bytes, inScan: bool, sawScan: bool)
    requires JpegShaped(item, inScan)
    ensures Jpeg(PutJpegItem(item) + after, inScan, sawScan)
            == AfterMarker([item.marker] + (PutSegment(item.segment) + after), inScan, sawScan)
  {
    hide AfterMarker;
    var tail := [item.marker] + (PutSegment(item.segment) + after);
    var filled := FillBytes(item.fills) + tail;
    var rest := PutJpegItem(item) + after;
    assert rest == item.skip + filled;
    assert filled[0] == 0xff;
    SkipMeasured(item.skip, filled);
    FillsMeasured(item.fills, tail);
    assert rest[|item.skip|..] == filled;
    assert filled[item.fills..] == tail;
    assert !inScan ==> rest == filled;
  }

  lemma {:induction false} JpegAcceptsWritten(items: seq<JpegItem>, inScan: bool, sawScan: bool)
    requires JpegLegal(items, inScan, sawScan) && Writable(items)
    ensures Jpeg(PutJpeg(items), inScan, sawScan)
    decreases |items|
  {
    hide Jpeg;
    var item, tail := items[0], items[1..];
    var after := PutJpeg(tail);
    var at := [item.marker] + (PutSegment(item.segment) + after);
    JpegItemLayout(item, after, inScan, sawScan);
    assert at[1..] == PutSegment(item.segment) + after;
    if inScan && (item.marker == 0 || Restart(item.marker)) {
      assert at[1..] == after;
      JpegAcceptsWritten(tail, true, sawScan);
    } else if item.marker == EOI {
      assert at[1..] == [];
    } else if item.marker == TEM {
      assert at[1..] == after;
      JpegAcceptsWritten(tail, false, sawScan);
    } else {
      var data := item.segment.value;
      assert at[1..][..2] == PutBig16(|data| + 2);
      assert at[1..][|data| + 2..] == after;
      JpegAcceptsWritten(tail, item.marker == SOS, sawScan || item.marker == SOS);
    }
  }

  lemma FillsSplit(filled: Bytes)
    ensures filled == FillBytes(Fills(filled)) + filled[Fills(filled)..]
  {
    var n := Fills(filled);
    assert filled == filled[..n] + filled[n..];
    assert filled[..n] == FillBytes(n);
  }

  /** What lies before the marker, as an item still to be completed. */
  lemma JpegPrefix(rest: Bytes, inScan: bool, sawScan: bool) returns (skip: Bytes, fills: nat, at: Bytes)
    requires Jpeg(rest, inScan, sawScan)
    ensures rest == skip + (FillBytes(fills) + at) && fills >= 1 && |at| < |rest|
    ensures 0xff !in skip && (!inScan ==> skip == [])
    ensures at != [] && at[0] != 0xff && AfterMarker(at, inScan, sawScan)
  {
    hide AfterMarker, FillBytes;
    var n := if inScan then BeforeFF(rest) else 0;
    skip := rest[..n];
    var filled := rest[n..];
    assert rest == skip + filled;
    assert filled != [] && filled[0] == 0xff;
    fills := Fills(filled);
    at := filled[fills..];
    assert AfterMarker(at, inScan, sawScan);
    NonEmptyMarker(at, inScan, sawScan);
    FillsSplit(filled);
  }

  lemma NonEmptyMarker(at: Bytes, inScan: bool, sawScan: bool)
    requires AfterMarker(at, inScan, sawScan)
    ensures at != []
  {
    hide Jpeg;
  }

  lemma {:induction false} JpegParses(rest: Bytes, inScan: bool, sawScan: bool) returns (items: seq<JpegItem>)
    requires Jpeg(rest, inScan, sawScan)
    ensures JpegLegal(items, inScan, sawScan) && Writable(items) && PutJpeg(items) == rest
    decreases |rest|, 1
  {
    hide Jpeg, AfterMarker, JpegLegal, PutJpeg, Writable, FillBytes;
    var skip, fills, at := JpegPrefix(rest, inScan, sawScan);
    items := MarkerParses(skip, fills, at, inScan, sawScan);
  }

  lemma {:induction false} MarkerParses(skip: Bytes, fills: nat, at: Bytes, inScan: bool, sawScan: bool)
    returns (items: seq<JpegItem>)
    requires 0xff !in skip && (!inScan ==> skip == []) && fills >= 1 && at != [] && at[0] != 0xff
    requires AfterMarker(at, inScan, sawScan)
    ensures JpegLegal(items, inScan, sawScan) && Writable(items)
    ensures PutJpeg(items) == skip + (FillBytes(fills) + at)
    decreases |at|, 2
  {
    hide Jpeg, Writable, PutJpeg, FillBytes, JpegLegal;
    var marker, tail := at[0], at[1..];
    assert at == [marker] + tail;
    var segment, later := None, [];
    if inScan && (marker == 0 || Restart(marker)) {
      later := JpegParses(tail, true, sawScan);
    } else if marker == EOI {
      NothingWritten();
    } else if marker == TEM {
      later := JpegParses(tail, false, sawScan);
    } else {
      var length := Big16(tail[..2]);
      segment := Some(tail[2..length]);
      assert tail == PutSegment(segment) + tail[length..];
      later := JpegParses(tail[length..], marker == SOS, sawScan || marker == SOS);
    }
    assert tail == PutSegment(segment) + PutJpeg(later);
    items := [JpegItem(skip, fills, marker, segment)] + later;
    LegalJoins(items[0], later, inScan, sawScan);
    ItemJoins(items[0], later);
    ItemBytes(items[0], at, tail, PutJpeg(later));
  }

  lemma LegalJoins(item: JpegItem, later: seq<JpegItem>, inScan: bool, sawScan: bool)
    requires JpegShaped(item, inScan) && Continues(item, later, inScan, sawScan)
    ensures JpegLegal([item] + later, inScan, sawScan)
  {
    assert ([item] + later)[1..] == later;
  }

  lemma NothingWritten()
    ensures Writable([]) && PutJpeg([]) == []
  {
  }

  lemma ItemBytes(item: JpegItem, at: Bytes, tail: Bytes, after: Bytes)
    requires item.segment.Some? ==> |item.segment.value| + 2 < 0x1_0000
    requires at == [item.marker] + tail && tail == PutSegment(item.segment) + after
    ensures PutJpegItem(item) + after == item.skip + (FillBytes(item.fills) + at)
  {
    hide PutSegment;
  }

  lemma ItemJoins(item: JpegItem, later: seq<JpegItem>)
    requires (item.segment.Some? ==> |item.segment.value| + 2 < 0x1_0000) && Writable(later)
    ensures Writable([item] + later) && PutJpeg([item] + later) == PutJpegItem(item) + PutJpeg(later)
  {
    var items := [item] + later;
    assert items[1..] == later;
    forall i | 0 <= i < |items| && items[i].segment.Some? ensures |items[i].segment.value| + 2 < 0x1_0000 {
      assert i > 0 ==> items[i] == later[i - 1];
    }
  }

  /** The JPEG walk accepts exactly a start marker followed by a legal list of items. */
  lemma JpegGrammar(crc: Bytes -> Checksum, c: Bytes)
    requires JPEG_MAGIC <= c
    ensures Accepts(crc, c) <==> exists items ::
              JpegLegal(items, false, false) && Writable(items) && c == [0xff, SOI] + PutJpeg(items)
  {
    hide Jpeg, JpegLegal, PutJpeg;
    assert c == [0xff, SOI] + c[2..];
    if Accepts(crc, c) {
      var items := JpegParses(c[2..], false, false);
    }
    if items :| JpegLegal(items, false, false) && Writable(items) && c == [0xff, SOI] + PutJpeg(items) {
      JpegAcceptsWritten(items, false, false);
      assert c[2..] == PutJpeg(items);
    }
  }

  /** An accepted JPEG ends with its end marker. */
  lemma {:induction false} JpegEnds(rest: Bytes, inScan: bool, sawScan: bool)
    requires Jpeg(rest, inScan, sawScan)
    ensures |rest| >= 2 && rest[|rest| - 2..] == [0xff, EOI]
    decreases |rest|
  {
    hide Jpeg;
    var skip, fills, at := JpegPrefix(rest, inScan, sawScan);
    var marker, tail := at[0], at[1..];
    if inScan && (marker == 0 || Restart(marker)) {
      JpegEnds(tail, true, sawScan);
    } else if marker == EOI {
      assert rest[|rest| - 1] == EOI && rest[|rest| - 2] == 0xff;
    } else if marker == TEM {
      JpegEnds(tail, false, sawScan);
    } else {
      JpegEnds(tail[Big16(tail[..2])..], marker == SOS, sawScan || marker == SOS);
    }
  }
}
