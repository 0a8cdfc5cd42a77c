// Which files have an orientation other than upright: exactly the JPEGs that store one where the standard puts it.
module ExifLaws {
  import opened Exif

  // ---- bytes ----

  function Two(o: Order, b: seq<byte>, i: nat): int
    requires i + 2 <= |b|
  {
    var p: int, q: int := b[i], b[i + 1];
    if o == Big then 0x100 * p + q else p + 0x100 * q
  }

  function Four(o: Order, b: seq<byte>, i: nat): int
    requires i + 4 <= |b|
  {
    var p: int, q: int, r: int, s: int := b[i], b[i + 1], b[i + 2], b[i + 3];
    if o == Big then 0x100_0000 * p + 0x1_0000 * q + 0x100 * r + s
    else p + 0x100 * q + 0x1_0000 * r + 0x100_0000 * s
  }

  lemma NumbersAre(o: Order, b: seq<byte>, i: nat)
    ensures i + 2 <= |b| ==> U16(o, b, i) == Two(o, b, i)
    ensures i + 4 <= |b| ==> U32(o, b, i) == Four(o, b, i)
  { }

  // The header of the segment spells its name, and is followed by two zero bytes.
  lemma NameIs()
    ensures |EXIF| == 6 && EXIF[4] == 0 && EXIF[5] == 0 && forall i :: 0 <= i < 4 ==> EXIF[i] == "Exif"[i] as int
    ensures [0x4D, 0x4D] == ['M' as int, 'M' as int] && [0x49, 0x49] == ['I' as int, 'I' as int]
  { }

  // ---- the directory ----

  // Of the entries from k on, m is the first with the orientation tag; it lies inside the file and holds v.
  ghost predicate FoundAt(t: seq<byte>, o: Order, ifd: nat, n: nat, k: nat, m: nat, v: int) {
    && k <= m < n && ifd + 2 + 12 * m + 12 <= |t|
    && Two(o, t, ifd + 2 + 12 * m) == 0x0112 && Two(o, t, ifd + 2 + 12 * m + 8) == v
    && forall j: nat :: k <= j < m ==> Two(o, t, ifd + 2 + 12 * j) != 0x0112
  }

  lemma {:induction false} EntryMeans(t: seq<byte>, o: Order, ifd: nat, n: nat, k: nat, v: int)
    requires k <= n && 2 <= v <= 8
    ensures EntryValue(t, o, ifd, n, k) == v <==> exists m: nat :: FoundAt(t, o, ifd, n, k, m, v)
    decreases n - k
  {
    hide U16, U32, Two;
    var e := ifd + 2 + 12 * k;
    if k < n && e + 12 <= |t| {
      NumbersAre(o, t, e);
      NumbersAre(o, t, e + 8);
      if Two(o, t, e) == 0x0112 {
        assert Two(o, t, e + 8) == v ==> FoundAt(t, o, ifd, n, k, k, v);
      } else {
        var next := k + 1;
        EntryMeans(t, o, ifd, n, next, v);
        if m: nat :| FoundAt(t, o, ifd, n, next, m, v) {
          assert FoundAt(t, o, ifd, n, k, m, v);
        }
        if m: nat :| FoundAt(t, o, ifd, n, k, m, v) {
          assert m != k;
          assert FoundAt(t, o, ifd, n, next, m, v);
        }
      }
    }
  }

  // The TIFF stores v: it says its byte order, says where its directory lies, and the directory's first entry with
  // the tag holds v.
  ghost predicate Stores(t: seq<byte>, o: Order, v: int) {
    && |t| >= 8 && t[0] as int == t[1] as int == (if o == Big then 'M' as int else 'I' as int)
    && (var ifd := Four(o, t, 4);
        && 8 <= ifd <= |t| - 2
        && exists m: nat :: FoundAt(t, o, ifd, Two(o, t, ifd), 0, m, v))
  }

  // An orientation other than 1 is read exactly from the TIFFs that store it.
  lemma TiffMeans(t: seq<byte>, v: int)
    requires 2 <= v <= 8
    ensures TiffValue(t) == v <==> Stores(t, Big, v) || Stores(t, Little, v)
  {
    hide EntryValue, U16, U32, FoundAt, Two, Four;
    if |t| >= 8 {
      var o := if t[..2] == [0x4D, 0x4D] then Big else Little;
      assert t[..2] == [t[0], t[1]];
      NumbersAre(o, t, 4);
      var ifd := U32(o, t, 4);
      if 8 <= ifd <= |t| - 2 {
        NumbersAre(o, t, ifd);
        EntryMeans(t, o, ifd, U16(o, t, ifd), 0, v);
      }
    }
  }

  // ---- the file ----

  ghost predicate Plain(segments: seq<Segment>) {
    forall s :: s in segments ==> ValidSegment(s) && !IsExif(s.marker, s.payload) && s.marker != 0xDA
  }

  // The file is a JPEG that stores v: after segments that are neither Exif nor the start of the scan, an Exif segment
  // whose TIFF stores it, and then anything.
  ghost predicate Carries(b: seq<byte>, segments: seq<Segment>, t: seq<byte>, tail: seq<byte>, v: int) {
    && Plain(segments) && 8 < |t| <= 0xFFFF - 8
    && b == [0xFF, 0xD8] + PutSegments(segments) + PutSegment(Segment(0xE1, EXIF + t)) + tail
    && (Stores(t, Big, v) || Stores(t, Little, v))
  }

  // An orientation other than 1 is read exactly from the files that store it; every other file is upright.
  lemma OrientationMeans(b: seq<byte>, v: int)
    requires 2 <= v <= 8
    ensures Orientation(b) == v <==> exists segments, t, tail :: Carries(b, segments, t, tail, v)
  {
    hide SegmentValue, PutSegments, PutSegment, TiffValue, Stores, Plain, IsExif;
    if Orientation(b) == v {
      var segments, t, end := ExifFound(b, 2);
      TiffMeans(t, v);
      assert b == b[..2] + b[2..end] + b[end..] && b[..2] == [0xFF, 0xD8];
      assert Carries(b, segments, t, b[end..], v);
    }
    forall segments, t, tail | Carries(b, segments, t, tail, v) ensures Orientation(b) == v {
      CarriedIsRead(segments, t, tail);
      TiffMeans(t, v);
    }
  }

  lemma CarriedIsRead(segments: seq<Segment>, t: seq<byte>, tail: seq<byte>)
    requires Plain(segments) && 8 < |t| <= 0xFFFF - 8
    ensures Orientation([0xFF, 0xD8] + PutSegments(segments) + PutSegment(Segment(0xE1, EXIF + t)) + tail)
            == TiffValue(t)
  {
    hide SegmentValue, PutSegments, PutSegment, TiffValue;
    var app1 := Segment(0xE1, EXIF + t);
    var file := [0xFF, 0xD8] + PutSegments(segments) + PutSegment(app1) + tail;
    var i := 2 + |PutSegments(segments)|;
    assert file[2..i] == PutSegments(segments);
    SegmentsPassed(file, 2, segments);
    assert file[i..i + 4 + |app1.payload|] == PutSegment(app1);
    assert app1.payload[..6] == EXIF && app1.payload[6..] == t;
    SegmentAt(file, i, app1);
  }

  // Where the walk finds something other than 1, it has passed plain segments and reached an Exif one.
  lemma {:induction false} ExifFound(b: seq<byte>, i: nat)
      returns (segments: seq<Segment>, t: seq<byte>, end: nat)
    requires i <= |b| && SegmentValue(b, i) != 1
    ensures Plain(segments) && 8 < |t| <= 0xFFFF - 8 && TiffValue(t) == SegmentValue(b, i)
    ensures i <= end <= |b| && b[i..end] == PutSegments(segments) + PutSegment(Segment(0xE1, EXIF + t))
    decreases |b| - i
  {
    hide SegmentValue, PutSegments, PutSegment, TiffValue, U16, IsExif;
    if i + 4 > |b| || b[i] != 0xFF {
      SegmentsEnd(b, i);
    }
    SegmentNext(b, i);
    var size := U16(Big, b, i + 2);
    var next := i + 2 + size;
    var seg := b[i + 4..next];
    var s := Segment(b[i + 1], seg);
    SegmentIs(b, i, next);
    ExifWhen(s.marker, seg);
    if IsExif(s.marker, seg) {
      segments, t, end := [], seg[6..], next;
      assert seg == EXIF + t;
      NoSegments();
    } else {
      var rest;
      rest, t, end := ExifFound(b, next);
      segments := [s] + rest;
      PutFirst(s, rest);
      assert b[i..end] == b[i..next] + b[next..end];
    }
  }

  lemma NoSegments()
    ensures PutSegments([]) == []
  { }

  lemma PutFirst(s: Segment, rest: seq<Segment>)
    requires ValidSegment(s) && forall r :: r in rest ==> ValidSegment(r)
    ensures PutSegments([s] + rest) == PutSegment(s) + PutSegments(rest)
  {
    assert ([s] + rest)[1..] == rest;
  }

  // A segment of the walk is a written segment.
  lemma SegmentIs(b: seq<byte>, i: nat, next: nat)
    requires i + 4 <= next <= |b| && b[i] == 0xFF && U16(Big, b, i + 2) == next - i - 2
    ensures b[i..next] == PutSegment(Segment(b[i + 1], b[i + 4..next]))
  {
    var s := Segment(b[i + 1], b[i + 4..next]);
    assert Put16(Big, |s.payload| + 2) == [b[i + 2], b[i + 3]];
    assert b[i..next] == [b[i], b[i + 1], b[i + 2], b[i + 3]] + b[i + 4..next];
  }

  // ---- upright ----

  // What does not begin as a JPEG does is taken as it is.
  lemma OtherFilesAreUpright(b: seq<byte>)
    requires |b| < 2 || b[0] != 0xFF || b[1] != 0xD8
    ensures Orientation(b) == 1
  { }

  // So is a JPEG with no Exif among its segments, whether these end at the scan, at the end of the file, at something
  // that is no segment or at one cut short.
  lemma PlainFilesAreUpright(segments: seq<Segment>, tail: seq<byte>)
    requires Plain(segments)
    requires |tail| < 4 || tail[0] != 0xFF || tail[1] == 0xDA
      || Two(Big, tail, 2) < 2 || 2 + Two(Big, tail, 2) > |tail|
    ensures Orientation([0xFF, 0xD8] + PutSegments(segments) + tail) == 1
  {
    hide SegmentValue, PutSegments, TiffValue, U16, Two;
    var file := [0xFF, 0xD8] + PutSegments(segments) + tail;
    var i := 2 + |PutSegments(segments)|;
    assert file[2..i] == PutSegments(segments) && file[i..] == tail;
    if |file| >= 4 {
      OrientationWalks(file);
      SegmentsPassed(file, 2, segments);
      TailEnds(file, i);
    }
  }

  lemma TailEnds(b: seq<byte>, i: nat)
    requires i <= |b|
    requires var tail := b[i..];
      || |tail| < 4 || tail[0] != 0xFF || tail[1] == 0xDA
      || Two(Big, tail, 2) < 2 || 2 + Two(Big, tail, 2) > |tail|
    ensures SegmentValue(b, i) == 1
  {
    hide TiffValue;
    if i + 4 <= |b| {
      NumbersAre(Big, b, i + 2);
    }
  }

  // And so is a TIFF whose directory has no such entry.
  lemma UntaggedIsUpright(x: Tiff)
    requires 8 + |x.gap| < 0x1_0000_0000 && |x.before| < 0x10000
    requires forall f :: f in x.before ==> ValidField(f) && f.tag != 0x0112
    ensures TiffValue(Header(x) + x.gap + Put16(x.order, |x.before|) + PutFields(x.order, x.before) + x.rest) == 1
  {
    hide EntryValue, PutFields, Put16, Put32, U16, U32, Header, FoundAt;
    var t := Header(x) + x.gap + Put16(x.order, |x.before|) + PutFields(x.order, x.before) + x.rest;
    var ifd, n := 8 + |x.gap|, |x.before|;
    assert t[..8] == Header(x) && t[ifd..ifd + 2] == Put16(x.order, n);
    assert t[ifd + 2..ifd + 2 + 12 * n] == PutFields(x.order, x.before);
    HeaderParts(x);
    assert t[..2] == Header(x)[0..2] && t[4..8] == Header(x)[4..8];
    Get32(x.order, ifd, t, 4);
    Get16(x.order, n, t, ifd);
    if TiffValue(t) != 1 {
      EntryMeans(t, x.order, ifd, n, 0, TiffValue(t));
      var m: nat :| FoundAt(t, x.order, ifd, n, 0, m, TiffValue(t));
      NotTheTag(t, x.order, ifd, n, x.before, m, TiffValue(t));
    }
  }

  lemma NotTheTag(t: seq<byte>, o: Order, ifd: nat, n: nat, fields: seq<Field>, m: nat, v: int)
    requires n == |fields| && ifd + 2 + 12 * n <= |t|
    requires forall f :: f in fields ==> ValidField(f) && f.tag != 0x0112
    requires t[ifd + 2..ifd + 2 + 12 * n] == PutFields(o, fields)
    ensures !FoundAt(t, o, ifd, n, 0, m, v)
  {
    hide PutFields, U16, Put16, Two;
    if m < n {
      var e := ifd + 2 + 12 * m;
      FieldsAt(o, fields, m);
      SliceOfSlice(t, ifd + 2, ifd + 2 + 12 * n, 12 * m, 12 * m + 12);
      SliceOfSlice(t, e, e + 12, 0, 2);
      assert t[e..e + 12] == PutField(o, fields[m]);
      assert t[e..e + 2] == Put16(o, fields[m].tag);
      Get16(o, fields[m].tag, t, e);
      NumbersAre(o, t, e);
    }
  }

  // One stored orientation, byte for byte: little-endian, one entry.
  lemma SmallestHeader(v: byte)
    requires 1 <= v <= 8
    ensures TiffValue([0x49, 0x49, 0x2A, 0, 8, 0, 0, 0, 1, 0, 0x12, 0x01, 3, 0, 1, 0, 0, 0, v, 0, 0, 0, 0, 0, 0, 0]) ==
        v
  {
    var t: seq<byte> := [0x49, 0x49, 0x2A, 0, 8, 0, 0, 0, 1, 0, 0x12, 0x01, 3, 0, 1, 0, 0, 0, v, 0, 0, 0, 0, 0, 0, 0];
    assert t[..2] == [0x49, 0x49];
    assert U32(Little, t, 4) == 8 && U16(Little, t, 8) == 1 && U16(Little, t, 10) == ORIENTATION;
    EntryFound(t, Little, 8, 1, 0);
  }
}
