/** The container check in front of image decoding: one walk each over JPEG, PNG and WebP bytes.
    The walks are stated on the bytes still ahead; the loops move an offset over the file. */
module Containers {
  import opened Wrappers

  type Byte = b: nat | b < 256
  type Bytes = seq<Byte>

  function Big16(b: Bytes): nat
    requires |b| == 2
  {
    0x100 * (b[0] as int) + b[1] as int
  }

  function Big32(b: Bytes): nat
    requires |b| == 4
  {
    0x100_0000 * (b[0] as int) + 0x1_0000 * (b[1] as int) + 0x100 * (b[2] as int) + b[3] as int
  }

  function Little32(b: Bytes): nat
    requires |b| == 4
  {
    Big32([b[3], b[2], b[1], b[0]])
  }

  const JPEG_MAGIC: Bytes := [0xff, 0xd8, 0xff]
  const PNG_MAGIC: Bytes := [0x89, 0x50, 0x4e, 0x47, 0x0d, 0x0a, 0x1a, 0x0a]
  const RIFF: Bytes := [0x52, 0x49, 0x46, 0x46]
  const WEBP: Bytes := [0x57, 0x45, 0x42, 0x50]

  // ------------------------------------------------------------------------ JPEG

  const SOI: Byte := 0xd8
  const EOI: Byte := 0xd9
  const SOS: Byte := 0xda
  const TEM: Byte := 1

  predicate Restart(marker: Byte) { 0xd0 <= marker <= 0xd7 }

  /** The number of leading bytes before the first 0xff. */
  function BeforeFF(rest: Bytes): (n: nat)
    ensures n <= |rest|
    ensures forall i :: 0 <= i < n ==> rest[i] != 0xff
    ensures n < |rest| ==> rest[n] == 0xff
  {
    if rest == [] || rest[0] == 0xff then 0 else 1 + BeforeFF(rest[1..])
  }

  /** The number of leading 0xff bytes. */
  function Fills(rest: Bytes): (n: nat)
    ensures n <= |rest|
    ensures forall i :: 0 <= i < n ==> rest[i] == 0xff
    ensures n < |rest| ==> rest[n] != 0xff
  {
    if rest == [] || rest[0] != 0xff then 0 else 1 + Fills(rest[1..])
  }

  predicate Jpeg(rest: Bytes, inScan: bool, sawScan: bool)
    decreases |rest|
  {
    var at := if inScan then rest[BeforeFF(rest)..] else rest;
    if at == [] || at[0] != 0xff then false
    else AfterMarker(at[Fills(at)..], inScan, sawScan)
  }

  predicate AfterMarker(at: Bytes, inScan: bool, sawScan: bool)
    decreases |at|, 0
  {
    if at == [] then false
    else
      var marker, rest := at[0], at[1..];
      if inScan && (marker == 0 || Restart(marker)) then Jpeg(rest, true, sawScan)
      else if marker == EOI then sawScan && rest == []
      else if marker == TEM then Jpeg(rest, false, sawScan)
      else if marker in {0, SOI} || Restart(marker) || |rest| < 2 then false
      else
        var length := Big16(rest[..2]);
        if length < 2 || length > |rest| then false
        else Jpeg(rest[length..], marker == SOS, sawScan || marker == SOS)
  }

  // ------------------------------------------------------------------------- PNG

  const IHDR: Bytes := [0x49, 0x48, 0x44, 0x52]
  const IDAT: Bytes := [0x49, 0x44, 0x41, 0x54]
  const IEND: Bytes := [0x49, 0x45, 0x4e, 0x44]

  type Checksum = n: nat | n < 0x1_0000_0000

  predicate Png(crc: Bytes -> Checksum, rest: Bytes, first: bool, sawData: bool)
    decreases |rest|
  {
    if |rest| < 12 then false
    else
      var length := Big32(rest[..4]);
      var end := 12 + length;
      if end > |rest| then false
      else
        var kind := rest[4..8];
        if first && (kind != IHDR || length != 13) then false
        else if crc(rest[4..end - 4]) != Big32(rest[end - 4..end]) then false
        else if kind == IEND then length == 0 && sawData && end == |rest|
        else Png(crc, rest[end..], false, sawData || kind == IDAT)
  }

  // ------------------------------------------------------------------------ WebP

  const VP8: Bytes := [0x56, 0x50, 0x38, 0x20]
  const VP8L: Bytes := [0x56, 0x50, 0x38, 0x4c]
  const ANMF: Bytes := [0x41, 0x4e, 0x4d, 0x46]

  predicate ImageKind(kind: Bytes) { kind in {VP8, VP8L, ANMF} }

  predicate Webp(rest: Bytes, sawImage: bool)
    decreases |rest|
  {
    if |rest| < 8 then rest == [] && sawImage
    else
      var length := Little32(rest[4..8]);
      var end := 8 + length + length % 2;
      end <= |rest| && Webp(rest[end..], sawImage || ImageKind(rest[..4]))
  }

  // ------------------------------------------------------------------- the check

  predicate IsWebp(c: Bytes) {
    RIFF <= c && |c| >= 12 && c[8..12] == WEBP && Little32(c[4..8]) + 8 == |c|
  }

  predicate Accepts(crc: Bytes -> Checksum, c: Bytes) {
    if JPEG_MAGIC <= c then Jpeg(c[2..], false, false)
    else if PNG_MAGIC <= c then Png(crc, c[8..], true, false)
    else IsWebp(c) && Webp(c[12..], false)
  }

  method WalkJpeg(c: Bytes) returns (ok: bool)
    requires JPEG_MAGIC <= c
    ensures ok == Jpeg(c[2..], false, false)
  {
    hide Jpeg, BeforeFF, Fills;
    var offset, inScan, sawScan := 2, false, false;
    while offset < |c|
      invariant 2 <= offset <= |c|
      invariant Jpeg(c[offset..], inScan, sawScan) == Jpeg(c[2..], false, false)
    {
      ghost var start := offset;
      if inScan {
        offset := Find(c, offset);
        if offset == |c| {
          NoMarker(c, start, offset, inScan, sawScan);
          return false;
        }
      }
      if c[offset] != 0xff {
        NoMarker(c, start, offset, inScan, sawScan);
        return false;
      }
      ghost var at := offset;
      offset := SkipFills(c, offset);
      MarkerReached(c, start, at, offset, inScan, sawScan);
      if offset == |c| {
        return false;
      }
      var marker := c[offset];
      offset := offset + 1;
      assert c[offset - 1..][0] == marker && c[offset - 1..][1..] == c[offset..];
      if inScan && (marker == 0 || Restart(marker)) {
        continue;
      }
      inScan := false;
      if marker == EOI {
        return sawScan && offset == |c|;
      }
      if marker == TEM {
        continue;
      }
      if marker in {0, SOI} || Restart(marker) || offset + 2 > |c| {
        return false;
      }
      assert c[offset..][..2] == c[offset..offset + 2];
      var length := Big16(c[offset..offset + 2]);
      if length < 2 || offset + length > |c| {
        return false;
      }
      if marker == SOS {
        sawScan, inScan := true, true;
      }
      assert c[offset..][length..] == c[offset + length..];
      offset := offset + length;
    }
    NothingAhead(inScan, sawScan);
    ok := false;
  }

  lemma NothingAhead(inScan: bool, sawScan: bool)
    ensures !Jpeg([], inScan, sawScan)
  {
  }

  /** `content.find(b"\xff", offset)`, with the size of the file for not found. */
  method Find(c: Bytes, from: nat) returns (at: nat)
    requires from <= |c|
    ensures from <= at <= |c| && at == from + BeforeFF(c[from..])
  {
    at := from;
    while at < |c| && c[at] != 0xff
      invariant from <= at <= |c|
      invariant at + BeforeFF(c[at..]) == from + BeforeFF(c[from..])
    {
      assert c[at..][1..] == c[at + 1..];
      at := at + 1;
    }
  }

  method SkipFills(c: Bytes, from: nat) returns (at: nat)
    requires from <= |c|
    ensures from <= at <= |c| && at == from + Fills(c[from..])
  {
    at := from;
    while at < |c| && c[at] == 0xff
      invariant from <= at <= |c|
      invariant at + Fills(c[at..]) == from + Fills(c[from..])
    {
      assert c[at..][1..] == c[at + 1..];
      at := at + 1;
    }
  }

  lemma MarkerReached(c: Bytes, start: nat, at: nat, offset: nat, inScan: bool, sawScan: bool)
    requires start <= at < |c| && at <= offset <= |c| && c[at] == 0xff
    requires at == if inScan then start + BeforeFF(c[start..]) else start
    requires offset == at + Fills(c[at..])
    ensures Jpeg(c[start..], inScan, sawScan) == AfterMarker(c[offset..], inScan, sawScan)
  {
    hide AfterMarker, BeforeFF, Fills;
  }

  lemma NoMarker(c: Bytes, start: nat, at: nat, inScan: bool, sawScan: bool)
    requires start <= at <= |c| && (at < |c| ==> c[at] != 0xff)
    requires at == if inScan then start + BeforeFF(c[start..]) else start
    ensures !Jpeg(c[start..], inScan, sawScan)
  {
    hide AfterMarker, BeforeFF, Fills;
  }

  method WalkPng(crc: Bytes -> Checksum, c: Bytes) returns (ok: bool)
    requires PNG_MAGIC <= c
    ensures ok == Png(crc, c[8..], true, false)
  {
    hide Png;
    var offset, sawData := 8, false;
    while offset + 12 <= |c|
      invariant 8 <= offset <= |c|
      invariant Png(crc, c[offset..], offset == 8, sawData) == Png(crc, c[8..], true, false)
    {
      var length := Big32(c[offset..offset + 4]);
      var end := offset + 12 + length;
      PngAhead(crc, c[offset..], offset == 8, sawData);
      SliceOfRest(c, offset, 0, 4);
      if end > |c| {
        return false;
      }
      var kind := c[offset + 4..offset + 8];
      SliceOfRest(c, offset, 4, 8);
      SliceOfRest(c, offset, 4, 8 + length);
      SliceOfRest(c, offset, 8 + length, 12 + length);
      if offset == 8 && (kind != IHDR || length != 13) {
        return false;
      }
      var expected := Big32(c[end - 4..end]);
      if crc(c[offset + 4..end - 4]) != expected {
        return false;
      }
      if kind == IDAT {
        sawData := true;
      }
      if kind == IEND {
        return length == 0 && sawData && end == |c|;
      }
      offset := end;
    }
    PngTooShort(crc, c[offset..], offset == 8, sawData);
    ok := false;
  }

  lemma PngTooShort(crc: Bytes -> Checksum, rest: Bytes, first: bool, sawData: bool)
    requires |rest| < 12
    ensures !Png(crc, rest, first, sawData)
  {
  }

  /** One turn of the walk, on the bytes ahead. */
  lemma PngAhead(crc: Bytes -> Checksum, rest: Bytes, first: bool, sawData: bool)
    requires |rest| >= 12
    ensures var length := Big32(rest[0..4]);
            var end := 12 + length;
            Png(crc, rest, first, sawData)
            <==> && end <= |rest|
                 && (first ==> rest[4..8] == IHDR && length == 13)
                 && crc(rest[4..8 + length]) == Big32(rest[8 + length..12 + length])
                 && if rest[4..8] == IEND then length == 0 && sawData && end == |rest|
                    else Png(crc, rest[12 + length..], false, sawData || rest[4..8] == IDAT)
  {
    assert rest[..4] == rest[0..4];
    hide Big32;
  }

  lemma SliceOfRest(c: Bytes, offset: nat, from: nat, to: nat)
    requires from <= to && offset + to <= |c|
    ensures c[offset..][from..to] == c[offset + from..offset + to]
  {
  }

  method WalkWebp(c: Bytes) returns (ok: bool)
    requires IsWebp(c)
    ensures ok == Webp(c[12..], false)
  {
    var offset, sawImage := 12, false;
    while offset + 8 <= |c|
      invariant 12 <= offset <= |c|
      invariant Webp(c[offset..], sawImage) == Webp(c[12..], false)
    {
      var length := Little32(c[offset + 4..offset + 8]);
      var kind := c[offset..offset + 4];
      ghost var rest := c[offset..];
      assert rest[4..8] == c[offset + 4..offset + 8] && rest[..4] == kind;
      offset := offset + 8 + length + length % 2;
      if offset > |c| {
        return false;
      }
      assert rest[8 + length + length % 2..] == c[offset..];
      sawImage := sawImage || ImageKind(kind);
    }
    ok := offset == |c| && sawImage;
  }

  /** `_validate_container`: true where it returns, false where it raises. */
  method ValidateContainer(crc: Bytes -> Checksum, c: Bytes) returns (ok: bool)
    ensures ok == Accepts(crc, c)
  {
    if JPEG_MAGIC <= c {
      ok := WalkJpeg(c);
    } else if PNG_MAGIC <= c {
      ok := WalkPng(crc, c);
    } else if RIFF <= c && |c| >= 12 && c[8..12] == WEBP && Little32(c[4..8]) + 8 == |c| {
      ok := WalkWebp(c);
    } else {
      ok := false;
    }
  }

  // ------------------------------------------- neither truncated nor extended

  lemma {:induction false} BeforeFFStable(a: Bytes, b: Bytes)
    requires BeforeFF(a) < |a|
    ensures BeforeFF(a + b) == BeforeFF(a)
  {
    if a[0] != 0xff {
      assert (a + b)[1..] == a[1..] + b;
      BeforeFFStable(a[1..], b);
    }
  }

  lemma {:induction false} FillsStable(a: Bytes, b: Bytes)
    requires Fills(a) < |a|
    ensures Fills(a + b) == Fills(a)
  {
    if a[0] == 0xff {
      assert (a + b)[1..] == a[1..] + b;
      FillsStable(a[1..], b);
    }
  }

  lemma MarkerPresent(at: Bytes, inScan: bool, sawScan: bool)
    requires AfterMarker(at, inScan, sawScan)
    ensures at != []
  {
    hide Jpeg;
  }

  lemma SuffixAppended(a: Bytes, b: Bytes, from: nat)
    requires from <= |a|
    ensures (a + b)[from..] == a[from..] + b
  {
  }

  lemma {:induction false} JpegNotExtended(a: Bytes, b: Bytes, inScan: bool, sawScan: bool)
    requires Jpeg(a, inScan, sawScan) && b != []
    ensures !Jpeg(a + b, inScan, sawScan)
    decreases |a|, 1
  {
    hide AfterMarker, BeforeFF, Fills;
    var at := if inScan then a[BeforeFF(a)..] else a;
    if inScan {
      BeforeFFStable(a, b);
      SuffixAppended(a, b, BeforeFF(a));
    }
    MarkerPresent(at[Fills(at)..], inScan, sawScan);
    FillsStable(at, b);
    SuffixAppended(at, b, Fills(at));
    MarkerNotExtended(at[Fills(at)..], b, inScan, sawScan);
  }

  lemma {:induction false} MarkerNotExtended(at: Bytes, b: Bytes, inScan: bool, sawScan: bool)
    requires AfterMarker(at, inScan, sawScan) && b != []
    ensures !AfterMarker(at + b, inScan, sawScan)
    decreases |at|, 0
  {
    hide Jpeg;
    var marker, rest := at[0], at[1..];
    assert (at + b)[0] == marker && (at + b)[1..] == rest + b;
    if inScan && (marker == 0 || Restart(marker)) {
      JpegNotExtended(rest, b, true, sawScan);
    } else if marker == EOI {
    } else if marker == TEM {
      JpegNotExtended(rest, b, false, sawScan);
    } else {
      assert (rest + b)[..2] == rest[..2];
      var length := Big16(rest[..2]);
      assert (rest + b)[length..] == rest[length..] + b;
      JpegNotExtended(rest[length..], b, marker == SOS, sawScan || marker == SOS);
    }
  }

  lemma {:induction false} PngNotExtended(crc: Bytes -> Checksum, a: Bytes, b: Bytes, first: bool, sawData: bool)
    requires Png(crc, a, first, sawData) && b != []
    ensures !Png(crc, a + b, first, sawData)
    decreases |a|
  {
    var end := 12 + Big32(a[..4]);
    assert (a + b)[end..] == a[end..] + b;
    if a[4..8] != IEND {
      PngNotExtended(crc, a[end..], b, false, sawData || a[4..8] == IDAT);
    }
  }

  /** No accepted file is a strict prefix of another accepted file: what was truncated, or had
      anything appended, is refused. */
  lemma NeitherTruncatedNorExtended(crc: Bytes -> Checksum, a: Bytes, b: Bytes)
    requires b != []
    ensures !(Accepts(crc, a) && Accepts(crc, a + b))
  {
    if Accepts(crc, a) {
      if JPEG_MAGIC <= a {
        assert (a + b)[2..] == a[2..] + b;
        JpegNotExtended(a[2..], b, false, false);
      } else if PNG_MAGIC <= a {
        assert (a + b)[8..] == a[8..] + b;
        assert (a + b)[0] == 0x89;
        PngNotExtended(crc, a[8..], b, true, false);
      } else {
        assert (a + b)[0] == 0x52 && (a + b)[4..8] == a[4..8];
      }
    }
  }
}
