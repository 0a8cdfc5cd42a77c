// Reading the orientation out of a JPEG: the segment walk and the first image file directory.
module Exif {
  type byte = b: int | 0 <= b < 256

  datatype Order = Big | Little

  const ORIENTATION: nat := 0x0112
  const EXIF: seq<byte> := [0x45, 0x78, 0x69, 0x66, 0, 0] // "Exif", 0, 0

  function U16(o: Order, b: seq<byte>, i: nat): (n: nat)
    requires i + 2 <= |b|
    ensures n < 0x10000
  {
    var first: int, second: int := b[i], b[i + 1];
    if o.Big? then 256 * first + second else 256 * second + first
  }

  function U32(o: Order, b: seq<byte>, i: nat): nat
    requires i + 4 <= |b|
  {
    if o.Big? then 0x10000 * U16(o, b, i) + U16(o, b, i + 2) else 0x10000 * U16(o, b, i + 2) + U16(o, b, i)
  }

  // ---- reading ----

  // What the walk over the directory's entries finds from entry k on.
  function EntryValue(t: seq<byte>, o: Order, ifd: nat, n: nat, k: nat): (v: int)
    requires k <= n
    ensures 1 <= v <= 8
    decreases n - k
  {
    var e := ifd + 2 + k * 12;
    if k == n || e + 12 > |t| then 1
    else if U16(o, t, e) == ORIENTATION then
      (var v := U16(o, t, e + 8); if 1 <= v <= 8 then v else 1)
    else EntryValue(t, o, ifd, n, k + 1)
  }

  function TiffValue(t: seq<byte>): (v: int)
    ensures 1 <= v <= 8
  {
    if |t| < 8 then 1
    else if t[..2] != [0x4D, 0x4D] && t[..2] != [0x49, 0x49] then 1
    else
      var o := if t[..2] == [0x4D, 0x4D] then Big else Little;
      var ifd := U32(o, t, 4);
      if ifd < 8 || ifd + 2 > |t| then 1 else EntryValue(t, o, ifd, U16(o, t, ifd), 0)
  }

  predicate IsExif(marker: byte, seg: seq<byte>) {
    marker == 0xE1 && |seg| > 14 && seg[..6] == EXIF
  }

  // What the walk over the segments finds from byte i on.
  function SegmentValue(b: seq<byte>, i: nat): (v: int)
    ensures 1 <= v <= 8
    decreases |b| - i
  {
    if i + 4 > |b| || b[i] != 0xFF then 1
    else
      var size := U16(Big, b, i + 2);
      if size < 2 || i + 2 + size > |b| then 1
      else
        var seg := b[i + 4..i + 2 + size];
        if IsExif(b[i + 1], seg) then TiffValue(seg[6..])
        else if b[i + 1] == 0xDA then 1
        else SegmentValue(b, i + 2 + size)
  }

  function Orientation(b: seq<byte>): (v: int)
    ensures 1 <= v <= 8
  {
    if |b| < 4 || b[0] != 0xFF || b[1] != 0xD8 then 1 else SegmentValue(b, 2)
  }

  method TiffOrientation(t: seq<byte>) returns (v: int)
    ensures v == TiffValue(t) && 1 <= v <= 8
  {
    if |t| < 8 {
      return 1;
    }
    var o := Little;
    if t[..2] == [0x4D, 0x4D] {
      o := Big;
    } else if t[..2] != [0x49, 0x49] {
      return 1;
    }
    var ifd := U32(o, t, 4);
    if ifd < 8 || ifd + 2 > |t| {
      return 1;
    }
    var n := U16(o, t, ifd);
    for k := 0 to n
      invariant EntryValue(t, o, ifd, n, 0) == EntryValue(t, o, ifd, n, k)
    {
      var e := ifd + 2 + k * 12;
      if e + 12 > |t| {
        return 1;
      }
      if U16(o, t, e) == ORIENTATION {
        var value := U16(o, t, e + 8);
        if value >= 1 && value <= 8 {
          return value;
        }
        return 1;
      }
    }
    return 1;
  }

  lemma OrientationWalks(b: seq<byte>)
    requires |b| >= 4 && b[0] == 0xFF && b[1] == 0xD8
    ensures Orientation(b) == SegmentValue(b, 2)
  { }

  // One segment of the walk, and its end.
  lemma SegmentNext(b: seq<byte>, i: nat)
    requires i + 4 <= |b| && b[i] == 0xFF
    ensures var size := U16(Big, b, i + 2);
      SegmentValue(b, i) ==
        if size < 2 || i + 2 + size > |b| then 1
        else if IsExif(b[i + 1], b[i + 4..i + 2 + size]) then TiffValue(b[i + 4..i + 2 + size][6..])
        else if b[i + 1] == 0xDA then 1
        else SegmentValue(b, i + 2 + size)
  {
    hide U16, TiffValue;
  }

  lemma SegmentsEnd(b: seq<byte>, i: nat)
    requires i + 4 > |b| || b[i] != 0xFF
    ensures SegmentValue(b, i) == 1
  { }

  lemma ExifWhen(marker: byte, seg: seq<byte>)
    ensures IsExif(marker, seg) <==> marker == 0xE1 && |seg| > 14 && seg[..6] == EXIF
  { }

  method ExifOrientation(b: seq<byte>) returns (v: int)
    ensures v == Orientation(b) && 1 <= v <= 8
    ensures |b| < 2 || b[0] != 0xFF || b[1] != 0xD8 ==> v == 1
  {
    if |b| < 4 || b[0] != 0xFF || b[1] != 0xD8 {
      return 1;
    }
    v := WalkSegments(b);
  }

  // The walk over the segments of a JPEG.
  method WalkSegments(b: seq<byte>) returns (v: int)
    requires |b| >= 4 && b[0] == 0xFF && b[1] == 0xD8
    ensures v == Orientation(b) && 1 <= v <= 8
  {
    hide U16, TiffValue, Orientation, SegmentValue, IsExif;
    var i := 2;
    OrientationWalks(b);
    while i + 4 <= |b| && b[i] == 0xFF
      invariant 2 <= i <= |b|
      invariant Orientation(b) == SegmentValue(b, i)
      decreases |b| - i
    {
      SegmentNext(b, i);
      var marker := b[i + 1];
      var size := U16(Big, b, i + 2);
      if size < 2 || i + 2 + size > |b| {
        return 1;
      }
      var seg := b[i + 4..i + 2 + size];
      ExifWhen(marker, seg);
      if marker == 0xE1 && |seg| > 14 && seg[..6] == EXIF {
        v := TiffOrientation(seg[6..]);
        return;
      }
      if marker == 0xDA {
        return 1;
      }
      i := i + 2 + size;
    }
    SegmentsEnd(b, i);
    return 1;
  }

  // ---- writing (section 2 of TIFF 6.0; the Exif APP1 segment) ----

  function Put16(o: Order, n: nat): (b: seq<byte>)
    requires n < 0x10000
    ensures |b| == 2
  {
    if o.Big? then [n / 256, n % 256] else [n % 256, n / 256]
  }

  function Put32(o: Order, n: nat): (b: seq<byte>)
    requires n < 0x1_0000_0000
    ensures |b| == 4
  {
    if o.Big? then Put16(o, n / 0x10000) + Put16(o, n % 0x10000) else Put16(o, n % 0x10000) + Put16(o, n / 0x10000)
  }

  // A directory entry: a tag, and ten bytes of type, count and value.
  datatype Field = Field(tag: nat, rest: seq<byte>)

  ghost predicate ValidField(f: Field) {
    f.tag < 0x10000 && |f.rest| == 10
  }

  function PutField(o: Order, f: Field): (b: seq<byte>)
    requires ValidField(f)
    ensures |b| == 12
  {
    Put16(o, f.tag) + f.rest
  }

  function PutFields(o: Order, fields: seq<Field>): (b: seq<byte>)
    requires forall f :: f in fields ==> ValidField(f)
    ensures |b| == 12 * |fields|
  {
    if fields == [] then [] else PutField(o, fields[0]) + PutFields(o, fields[1..])
  }

  // One SHORT, left-justified in its four value bytes.
  function OrientationField(o: Order, v: nat): (f: Field)
    requires v < 0x10000
    ensures ValidField(f)
  {
    Field(ORIENTATION, Put16(o, 3) + Put32(o, 1) + Put16(o, v) + [0, 0])
  }

  // A TIFF with the directory anywhere after the header and the orientation anywhere in the directory.
  datatype Tiff = Tiff(order: Order, gap: seq<byte>, before: seq<Field>, value: nat, after: seq<Field>, rest: seq<byte>)

  ghost predicate ValidTiff(x: Tiff) {
    && 8 + |x.gap| < 0x1_0000_0000 && x.value < 0x10000 && |x.before| + 1 + |x.after| < 0x10000
    && (forall f :: f in x.before ==> ValidField(f) && f.tag != ORIENTATION)
    && (forall f :: f in x.after ==> ValidField(f))
  }

  function PutTiff(x: Tiff): seq<byte>
    requires ValidTiff(x)
  {
    Header(x) + x.gap + Put16(x.order, |x.before| + 1 + |x.after|) + PutFields(x.order, x.before)
    + PutField(x.order, OrientationField(x.order, x.value)) + PutFields(x.order, x.after) + x.rest
  }

  function Header(x: Tiff): (b: seq<byte>)
    requires 8 + |x.gap| < 0x1_0000_0000
    ensures |b| == 8
  {
    (if x.order.Big? then [0x4D, 0x4D] else [0x49, 0x49]) + Put16(x.order, 42) + Put32(x.order, 8 + |x.gap|)
  }

  // ---- what is written is read ----

  lemma SliceOfSlice(s: seq<byte>, from: nat, to: nat, a: nat, b: nat)
    requires from <= to <= |s| && a <= b <= to - from
    ensures s[from..to][a..b] == s[from + a..from + b]
  {
    var part := s[from..to];
    forall i | 0 <= i < b - a ensures part[a..b][i] == s[from + a..from + b][i] {
      assert part[a + i] == s[from + a + i];
    }
  }

  lemma Get16(o: Order, n: nat, b: seq<byte>, i: nat)
    requires n < 0x10000 && i + 2 <= |b| && b[i..i + 2] == Put16(o, n)
    ensures U16(o, b, i) == n
  {
    assert b[i] == b[i..i + 2][0] && b[i + 1] == b[i..i + 2][1];
  }

  lemma Get32(o: Order, n: nat, b: seq<byte>, i: nat)
    requires n < 0x1_0000_0000 && i + 4 <= |b| && b[i..i + 4] == Put32(o, n)
    ensures U32(o, b, i) == n
  {
    assert b[i..i + 2] == b[i..i + 4][..2] && b[i + 2..i + 4] == b[i..i + 4][2..];
    if o.Big? {
      Get16(o, n / 0x10000, b, i);
      Get16(o, n % 0x10000, b, i + 2);
    } else {
      Get16(o, n % 0x10000, b, i);
      Get16(o, n / 0x10000, b, i + 2);
    }
  }

  lemma AfterFirst(first: seq<byte>, rest: seq<byte>, from: nat, to: nat)
    requires |first| <= from <= to <= |first| + |rest|
    ensures (first + rest)[from..to] == rest[from - |first|..to - |first|]
  { }

  lemma {:induction false} FieldsAt(o: Order, fields: seq<Field>, j: nat)
    requires (forall f :: f in fields ==> ValidField(f)) && j < |fields|
    ensures fields[j] in fields && PutFields(o, fields)[12 * j..12 * j + 12] == PutField(o, fields[j])
  {
    hide PutField;
    assert fields[0] in fields;
    var first, rest := PutField(o, fields[0]), PutFields(o, fields[1..]);
    if j > 0 {
      FieldsAt(o, fields[1..], j - 1);
      assert fields[1..][j - 1] == fields[j];
      AfterFirst(first, rest, 12 * j, 12 * j + 12);
    }
  }

  // The walk passes over every field before the orientation.
  lemma {:induction false} PassesOver(t: seq<byte>, o: Order, ifd: nat, n: nat, fields: seq<Field>, k: nat)
    requires k <= |fields| < n && ifd + 2 + 12 * |fields| + 12 <= |t|
    requires forall f :: f in fields ==> ValidField(f) && f.tag != ORIENTATION
    requires t[ifd + 2..ifd + 2 + 12 * |fields|] == PutFields(o, fields)
    ensures EntryValue(t, o, ifd, n, k) == EntryValue(t, o, ifd, n, |fields|)
    decreases |fields| - k
  {
    hide PutFields, U16, Put16;
    if k < |fields| {
      var e := ifd + 2 + k * 12;
      FieldsAt(o, fields, k);
      SliceOfSlice(t, ifd + 2, ifd + 2 + 12 * |fields|, 12 * k, 12 * k + 12);
      assert t[e..e + 12] == PutField(o, fields[k]);
      SliceOfSlice(t, e, e + 12, 0, 2);
      assert t[e..e + 2] == Put16(o, fields[k].tag);
      Get16(o, fields[k].tag, t, e);
      PassesOver(t, o, ifd, n, fields, k + 1);
    }
  }

  // Where the parts of a written TIFF are.
  lemma TiffLayout(x: Tiff)
    requires ValidTiff(x)
    ensures var t, ifd := PutTiff(x), 8 + |x.gap|;
      var e := ifd + 2 + 12 * |x.before|;
      && |t| >= e + 12 && t[..8] == Header(x) && t[ifd..ifd + 2] == Put16(x.order, |x.before| + 1 + |x.after|)
      && t[ifd + 2..e] == PutFields(x.order, x.before)
      && t[e..e + 12] == PutField(x.order, OrientationField(x.order, x.value))
  {
    hide Header, Put16, PutFields, PutField;
  }

  // Whatever surrounds it, the stored orientation is the one read (1 when it is none of the eight).
  lemma TiffRoundTrip(x: Tiff)
    requires ValidTiff(x)
    ensures TiffValue(PutTiff(x)) == if 1 <= x.value <= 8 then x.value else 1
  {
    hide PutTiff, EntryValue, PutFields, PutField, Put16, Put32, U16, U32, Header, OrientationField;
    var t, ifd, n := PutTiff(x), 8 + |x.gap|, |x.before| + 1 + |x.after|;
    TiffLayout(x);
    HeaderParts(x);
    SliceOfSlice(t, 0, 8, 0, 2);
    SliceOfSlice(t, 0, 8, 4, 8);
    assert t[0..8] == t[..8] && t[0..2] == t[..2];
    Get32(x.order, ifd, t, 4);
    Get16(x.order, n, t, ifd);
    PassesOver(t, x.order, ifd, n, x.before, 0);
    OrientationRead(x, t, ifd, n);
  }

  lemma HeaderParts(x: Tiff)
    requires 8 + |x.gap| < 0x1_0000_0000
    ensures Header(x)[0..2] == if x.order.Big? then [0x4D, 0x4D] else [0x49, 0x49]
    ensures Header(x)[4..8] == Put32(x.order, 8 + |x.gap|)
  { }

  // Where the tag and the value stand in the entry.
  lemma OrientationParts(o: Order, v: nat)
    requires v < 0x10000
    ensures PutField(o, OrientationField(o, v))[0..2] == Put16(o, ORIENTATION)
    ensures PutField(o, OrientationField(o, v))[8..10] == Put16(o, v)
  {
    var head, value, pad := Put16(o, ORIENTATION) + Put16(o, 3) + Put32(o, 1), Put16(o, v), [0, 0];
    assert |head| == 8;
    assert PutField(o, OrientationField(o, v)) == head + value + pad;
    hide Put16, Put32;
  }

  lemma EntryFound(t: seq<byte>, o: Order, ifd: nat, n: nat, k: nat)
    requires k < n && ifd + 2 + k * 12 + 12 <= |t| && U16(o, t, ifd + 2 + k * 12) == ORIENTATION
    ensures var v := U16(o, t, ifd + 2 + k * 12 + 8);
      EntryValue(t, o, ifd, n, k) == if 1 <= v <= 8 then v else 1
  {
    hide U16;
  }

  lemma OrientationRead(x: Tiff, t: seq<byte>, ifd: nat, n: nat)
    requires ValidTiff(x) && |x.before| < n && ifd + 2 + 12 * |x.before| + 12 <= |t|
    requires var e := ifd + 2 + 12 * |x.before|; t[e..e + 12] == PutField(x.order, OrientationField(x.order, x.value))
    ensures EntryValue(t, x.order, ifd, n, |x.before|) == if 1 <= x.value <= 8 then x.value else 1
  {
    hide EntryValue, U16, Put16, PutField, OrientationField;
    var e := ifd + 2 + 12 * |x.before|;
    SliceOfSlice(t, e, e + 12, 0, 2);
    SliceOfSlice(t, e, e + 12, 8, 10);
    OrientationParts(x.order, x.value);
    Get16(x.order, ORIENTATION, t, e);
    Get16(x.order, x.value, t, e + 8);
    EntryFound(t, x.order, ifd, n, |x.before|);
  }

  // ---- the JPEG around it ----

  datatype Segment = Segment(marker: byte, payload: seq<byte>)

  ghost predicate ValidSegment(s: Segment) {
    |s.payload| + 2 < 0x10000
  }

  function PutSegment(s: Segment): (b: seq<byte>)
    requires ValidSegment(s)
    ensures |b| == 4 + |s.payload|
  {
    [0xFF, s.marker] + Put16(Big, |s.payload| + 2) + s.payload
  }

  function PutSegments(segments: seq<Segment>): seq<byte>
    requires forall s :: s in segments ==> ValidSegment(s)
  {
    if segments == [] then [] else PutSegment(segments[0]) + PutSegments(segments[1..])
  }

  // One segment standing at byte i.
  lemma SegmentAt(b: seq<byte>, i: nat, s: Segment)
    requires ValidSegment(s) && i + 4 + |s.payload| <= |b| && b[i..i + 4 + |s.payload|] == PutSegment(s)
    ensures SegmentValue(b, i) ==
      if IsExif(s.marker, s.payload) then TiffValue(s.payload[6..])
      else if s.marker == 0xDA then 1
      else SegmentValue(b, i + 4 + |s.payload|)
  {
    hide IsExif, TiffValue, U16, Put16;
    var end := i + 4 + |s.payload|;
    var at := b[i..end];
    assert b[i] == at[0] && b[i + 1] == at[1];
    SliceOfSlice(b, i, end, 2, 4);
    SliceOfSlice(b, i, end, 4, 4 + |s.payload|);
    SegmentParts(s);
    Get16(Big, |s.payload| + 2, b, i + 2);
  }

  lemma SegmentParts(s: Segment)
    requires ValidSegment(s)
    ensures var at := PutSegment(s);
      && at[0] == 0xFF && at[1] == s.marker && at[2..4] == Put16(Big, |s.payload| + 2)
        && at[4..4 + |s.payload|] == s.payload
  { }

  lemma {:induction false} SegmentsPassed(b: seq<byte>, i: nat, segments: seq<Segment>)
    requires forall s :: s in segments ==> ValidSegment(s) && !IsExif(s.marker, s.payload) && s.marker != 0xDA
    requires i + |PutSegments(segments)| <= |b| && b[i..i + |PutSegments(segments)|] == PutSegments(segments)
    ensures SegmentValue(b, i) == SegmentValue(b, i + |PutSegments(segments)|)
    decreases |segments|
  {
    hide SegmentValue, IsExif, PutSegment;
    if segments != [] {
      var s, rest := segments[0], PutSegments(segments[1..]);
      var all := b[i..i + |PutSegments(segments)|];
      var next := i + 4 + |s.payload|;
      assert b[i..next] == all[..4 + |s.payload|] == PutSegment(s);
      SegmentAt(b, i, s);
      assert b[next..next + |rest|] == all[4 + |s.payload|..] == rest;
      SegmentsPassed(b, next, segments[1..]);
    }
  }

  // The orientation of every well-formed Exif header, in either byte order, behind any other segments and before
  // anything at all.
  lemma StoredOrientationIsRead(segments: seq<Segment>, x: Tiff, tail: seq<byte>)
    requires forall s :: s in segments ==> ValidSegment(s) && !IsExif(s.marker, s.payload) && s.marker != 0xDA
    requires ValidTiff(x) && ValidSegment(Segment(0xE1, EXIF + PutTiff(x)))
    ensures var file := [0xFF, 0xD8] + PutSegments(segments) + PutSegment(Segment(0xE1, EXIF + PutTiff(x))) + tail;
      Orientation(file) == if 1 <= x.value <= 8 then x.value else 1
  {
    hide SegmentValue, PutSegments, PutSegment, TiffValue, PutTiff;
    var app1 := Segment(0xE1, EXIF + PutTiff(x));
    var file := [0xFF, 0xD8] + PutSegments(segments) + PutSegment(app1) + tail;
    var i := 2 + |PutSegments(segments)|;
    assert file[2..i] == PutSegments(segments);
    SegmentsPassed(file, 2, segments);
    assert file[i..i + 4 + |app1.payload|] == PutSegment(app1);
    SegmentAt(file, i, app1);
    TiffLayout(x);
    assert app1.payload[..6] == EXIF && app1.payload[6..] == PutTiff(x);
    TiffRoundTrip(x);
  }
}
