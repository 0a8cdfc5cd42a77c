// Turning and fitting pictures: rotate, orient and the size arithmetic of fit.
module Rotation {
  import opened Arithmetic

  // Rows from the top, pixels from the left. The width is kept so that a picture without rows has one.
  datatype Picture<P> = Picture(w: nat, h: nat, rows: seq<seq<P>>)

  ghost predicate Whole<P>(p: Picture<P>) {
    |p.rows| == p.h && forall y :: 0 <= y < p.h ==> |p.rows[y]| == p.w
  }

  function Pixel<P>(p: Picture<P>, x: nat, y: nat): P
    requires Whole(p) && x < p.w && y < p.h
  {
    p.rows[y][x]
  }

  // The buffer the source writes to shows the picture.
  ghost predicate Shows<P>(a: array2<P>, p: Picture<P>)
    reads a
  {
    && Whole(p) && a.Length0 == p.h && a.Length1 == p.w
    && forall x, y :: 0 <= x < p.w && 0 <= y < p.h ==> a[y, x] == p.rows[y][x]
  }

  datatype Turn = Quarter | Half | ThreeQuarter

  // Where a pixel goes when a w by h picture is turned clockwise.
  function Goes(turn: Turn, w: nat, h: nat, x: int, y: int): (int, int) {
    match turn
    case Quarter => (h - 1 - y, x)
    case Half => (w - 1 - x, h - 1 - y)
    case ThreeQuarter => (y, w - 1 - x)
  }

  function Width(turn: Turn, w: nat, h: nat): nat {
    if turn.Half? then w else h
  }

  function Height(turn: Turn, w: nat, h: nat): nat {
    if turn.Half? then h else w
  }

  // q is p turned: every pixel of p is where it goes, and q has no others.
  ghost predicate IsTurned<P>(p: Picture<P>, turn: Turn, q: Picture<P>) {
    && Whole(p) && Whole(q) && q.w == Width(turn, p.w, p.h) && q.h == Height(turn, p.w, p.h)
    && forall x, y :: 0 <= x < p.w && 0 <= y < p.h ==>
         Pixel(q, Goes(turn, p.w, p.h, x, y).0, Goes(turn, p.w, p.h, x, y).1) == Pixel(p, x, y)
  }

  // The inverse: which pixel of p lands at (x, y).
  function From(turn: Turn, w: nat, h: nat, x: int, y: int): (int, int) {
    match turn
    case Quarter => (y, h - 1 - x)
    case Half => (w - 1 - x, h - 1 - y)
    case ThreeQuarter => (w - 1 - y, x)
  }

  function Turned<P>(p: Picture<P>, turn: Turn): (q: Picture<P>)
    requires Whole(p)
    ensures IsTurned(p, turn, q)
  {
    var w, h := Width(turn, p.w, p.h), Height(turn, p.w, p.h);
    Picture(w, h, seq(h, y requires 0 <= y < h =>
      seq(w, x requires 0 <= x < w =>
        p.rows[From(turn, p.w, p.h, x, y).1][From(turn, p.w, p.h, x, y).0])))
  }

  // There is one turned picture: where each pixel goes says it all.
  lemma TurnedIsUnique<P>(p: Picture<P>, turn: Turn, q: Picture<P>)
    requires IsTurned(p, turn, q)
    ensures q == Turned(p, turn)
  {
    var t := Turned(p, turn);
    forall y | 0 <= y < q.h ensures q.rows[y] == t.rows[y] {
      forall x | 0 <= x < q.w ensures q.rows[y][x] == t.rows[y][x] {
        var f := From(turn, p.w, p.h, x, y);
        assert Goes(turn, p.w, p.h, f.0, f.1) == (x, y);
        assert Pixel(q, x, y) == Pixel(p, f.0, f.1) == Pixel(t, x, y);
      }
    }
  }

  // Clockwise: the row at the top becomes the column at the right, and the column at the left the row at the top.
  lemma Clockwise<P>(p: Picture<P>, x: nat, y: nat)
    requires Whole(p) && x < p.w && y < p.h
    ensures Turned(p, Quarter).w == p.h && Turned(p, Quarter).h == p.w
    ensures Pixel(Turned(p, Quarter), p.h - 1 - y, x) == Pixel(p, x, y)
    ensures Pixel(Turned(p, Half), p.w - 1 - x, p.h - 1 - y) == Pixel(p, x, y)
    ensures Pixel(Turned(p, ThreeQuarter), y, p.w - 1 - x) == Pixel(p, x, y)
  { }

  // A quarter turn and three more make a whole one.
  lemma QuarterThenThree<P>(p: Picture<P>)
    requires Whole(p)
    ensures Turned(Turned(p, Quarter), ThreeQuarter) == p
    ensures Turned(Turned(p, ThreeQuarter), Quarter) == p
  {
    var q, r := Turned(p, Quarter), Turned(p, ThreeQuarter);
    Back(p, q, Quarter, ThreeQuarter);
    Back(p, r, ThreeQuarter, Quarter);
  }

  lemma Back<P>(p: Picture<P>, q: Picture<P>, there: Turn, back: Turn)
    requires IsTurned(p, there, q)
    requires (there == Quarter && back == ThreeQuarter) || (there == ThreeQuarter && back == Quarter)
        || (there == Half && back == Half)
    ensures Turned(q, back) == p
  {
    forall x, y | 0 <= x < q.w && 0 <= y < q.h
      ensures Pixel(p, Goes(back, q.w, q.h, x, y).0, Goes(back, q.w, q.h, x, y).1) == Pixel(q, x, y)
    {
      var f := From(there, p.w, p.h, x, y);
      assert Goes(there, p.w, p.h, f.0, f.1) == (x, y);
      assert Pixel(q, x, y) == Pixel(p, f.0, f.1);
    }
    TurnedIsUnique(q, back, p);
  }

  lemma HalfTwice<P>(p: Picture<P>)
    requires Whole(p)
    ensures Turned(Turned(p, Half), Half) == p
  {
    Back(p, Turned(p, Half), Half, Half);
  }

  lemma QuarterTwice<P>(p: Picture<P>)
    requires Whole(p)
    ensures Turned(Turned(p, Quarter), Quarter) == Turned(p, Half)
  {
    var q := Turned(p, Quarter);
    var r := Turned(q, Quarter);
    forall x, y | 0 <= x < p.w && 0 <= y < p.h
      ensures Pixel(r, Goes(Half, p.w, p.h, x, y).0, Goes(Half, p.w, p.h, x, y).1) == Pixel(p, x, y)
    {
      var g := Goes(Quarter, p.w, p.h, x, y);
      assert Pixel(q, g.0, g.1) == Pixel(p, x, y);
      assert Pixel(r, Goes(Quarter, q.w, q.h, g.0, g.1).0, Goes(Quarter, q.w, q.h, g.0, g.1).1) == Pixel(q, g.0, g.1);
    }
    TurnedIsUnique(p, Half, r);
  }

  method Rotate<P(0)>(src: array2<P>, turn: Turn, ghost p: Picture<P>) returns (dst: array2<P>)
    requires Shows(src, p)
    ensures fresh(dst) && Shows(dst, Turned(p, turn))
  {
    var w, h := src.Length1, src.Length0;
    dst := new P[Height(turn, w, h), Width(turn, w, h)];
    ghost var q := Turned(p, turn);
    for y := 0 to h
      invariant forall x, v :: 0 <= x < w && 0 <= v < y ==> Written(dst, turn, p, x, v)
    {
      for x := 0 to w
        invariant forall u, v :: 0 <= u < w && 0 <= v < h && (v < y || (v == y && u < x)) ==>
            Written(dst, turn, p, u, v)
      {
        var to := Goes(turn, w, h, x, y);
        label before:
        dst[to.1, to.0] := src[y, x];
        forall u, v | 0 <= u < w && 0 <= v < h && (v < y || (v == y && u < x)) ensures Written(dst, turn, p, u, v) {
          assert old@before(Written(dst, turn, p, u, v));
          assert Goes(turn, w, h, u, v) != to;
        }
      }
    }
    AllWritten(dst, turn, p);
  }

  // The pixel of p at (x, y) has been copied to where it goes.
  ghost predicate Written<P>(dst: array2<P>, turn: Turn, p: Picture<P>, x: int, y: int)
    requires Whole(p) && dst.Length0 == Height(turn, p.w, p.h) && dst.Length1 == Width(turn, p.w, p.h)
    requires 0 <= x < p.w && 0 <= y < p.h
    reads dst
  {
    var to := Goes(turn, p.w, p.h, x, y);
    dst[to.1, to.0] == p.rows[y][x]
  }

  lemma AllWritten<P>(dst: array2<P>, turn: Turn, p: Picture<P>)
    requires Whole(p) && dst.Length0 == Height(turn, p.w, p.h) && dst.Length1 == Width(turn, p.w, p.h)
    requires forall x, y :: 0 <= x < p.w && 0 <= y < p.h ==> Written(dst, turn, p, x, y)
    ensures Shows(dst, Turned(p, turn))
  {
    var q := Turned(p, turn);
    forall x, y | 0 <= x < q.w && 0 <= y < q.h ensures dst[y, x] == q.rows[y][x] {
      var f := From(turn, p.w, p.h, x, y);
      assert Written(dst, turn, p, f.0, f.1);
      assert Goes(turn, p.w, p.h, f.0, f.1) == (x, y);
    }
  }

  // ---- orient ----

  function Orient<P>(p: Picture<P>, o: int): Picture<P>
    requires Whole(p)
  {
    if o == 3 || o == 4 then Turned(p, Half)
    else if o == 6 || o == 5 then Turned(p, Quarter)
    else if o == 8 || o == 7 then Turned(p, ThreeQuarter)
    else p
  }

  // Left and right exchanged.
  function Mirrored<P>(p: Picture<P>): Picture<P>
    requires Whole(p)
  {
    Picture(p.w, p.h, seq(p.h, y requires 0 <= y < p.h => seq(p.w, x requires 0 <= x < p.w => p.rows[y][p.w - 1 - x])))
  }

  // What the Orientation tag means (TIFF 6.0, Orientation): which side the stored 0th row and 0th column are on.
  datatype Side = Top | Right | Bottom | Left

  function RowSide(o: int): Side {
    if o == 1 || o == 2 then Top else if o == 3 || o == 4 then Bottom else if o == 5 || o == 8 then Left else Right
  }

  function ColumnSide(o: int): Side {
    if o == 1 || o == 4 then Left else if o == 2 || o == 3 then Right else if o == 5 || o == 6 then Top else Bottom
  }

  // The stored pixel that an upright viewer sees at (x, y) of a W by H view: d steps in from a side.
  function Inward(side: Side, W: nat, H: nat, x: int, y: int): int {
    match side
    case Top => y
    case Bottom => H - 1 - y
    case Left => x
    case Right => W - 1 - x
  }

  ghost predicate IsUpright<P>(p: Picture<P>, o: int, view: Picture<P>) {
    && Whole(p) && Whole(view)
    && (view.w, view.h) == (if o <= 4 then (p.w, p.h) else (p.h, p.w))
    && forall x, y :: 0 <= x < view.w && 0 <= y < view.h ==>
         var row, column := Inward(RowSide(o), view.w, view.h, x, y), Inward(ColumnSide(o), view.w, view.h, x, y);
         0 <= row < p.h && 0 <= column < p.w && Pixel(view, x, y) == Pixel(p, column, row)
  }

  predicate IsPlain(o: int) {
    o == 1 || o == 3 || o == 6 || o == 8
  }

  // The four plain orientations come out upright; the four mirrored ones as the upright picture's mirror image.
  lemma OrientIsUprightUpToMirroring<P>(p: Picture<P>, o: int)
    requires Whole(p) && 1 <= o <= 8
    ensures IsUpright(p, o, if IsPlain(o) then Orient(p, o) else Mirrored(Orient(p, o)))
  {
    if o <= 4 {
      SameSidesUp(p, o);
    } else {
      SidesTurned(p, o);
    }
  }

  lemma SameSidesUp<P>(p: Picture<P>, o: int)
    requires Whole(p) && 1 <= o <= 4
    ensures IsUpright(p, o, if IsPlain(o) then Orient(p, o) else Mirrored(Orient(p, o)))
  { }

  lemma SidesTurned<P>(p: Picture<P>, o: int)
    requires Whole(p) && 5 <= o <= 8
    ensures IsUpright(p, o, if IsPlain(o) then Orient(p, o) else Mirrored(Orient(p, o)))
  { }

  // ---- fit ----

  function AtLeastOne(n: int): int {
    if n < 1 then 1 else n
  }

  function Fit(w: nat, h: nat, side: nat): (int, int) {
    if Max(w, h) <= side then (w, h)
    else (AtLeastOne(w * side / Max(w, h)), AtLeastOne(h * side / Max(w, h)))
  }

  // Never larger, never empty, the longer edge exactly the side, each edge in proportion, rounded down;
  // and fitting what fits changes nothing.
  lemma FitKeepsProportion(w: nat, h: nat, side: nat)
    requires w > 0 && h > 0 && side > 0
    ensures var (nw, nh) := Fit(w, h, side);
      && 1 <= nw <= w && 1 <= nh <= h
      && Max(nw, nh) == (if Max(w, h) <= side then Max(w, h) else side)
      && (Max(w, h) > side ==>
        && (if w * side < Max(w, h) then nw == 1 else nw * Max(w, h) <= w * side < (nw + 1) * Max(w, h))
        && (if h * side < Max(w, h) then nh == 1 else nh * Max(w, h) <= h * side < (nh + 1) * Max(w, h)))
      && Fit(nw, nh, side) == (nw, nh)
  {
    if Max(w, h) > side {
      EdgeFits(w, Max(w, h), side);
      EdgeFits(h, Max(w, h), side);
    }
  }

  lemma EdgeFits(e: nat, long: nat, side: nat)
    requires 0 < side < long && 0 < e <= long
    ensures var n := AtLeastOne(e * side / long);
      && 1 <= n <= e && n <= side && (e == long ==> n == side)
      && (if e * side < long then n == 1 else n * long <= e * side < (n + 1) * long)
  {
    var product := e * side;
    var q := product / long;
    Quotient(product, long);
    Scaled(side, e, long);
    Scaled(e, side, long);
    QuotientAtMost(product, long, side);
    QuotientAtMost(product, long, e);
    if e == long {
      QuotientExact(side, long);
    }
    RoundedUp(q, long, product);
  }

  // Rounded down, but at least one pixel.
  lemma RoundedUp(q: nat, long: nat, product: nat)
    requires q * long <= product < q * long + long
    ensures var n := AtLeastOne(q); if product < long then n == 1 else n * long <= product < (n + 1) * long
  {
    assert (q + 1) * long == q * long + long;
    if q >= 2 {
      assert q * long >= 2 * long;
    }
  }

  lemma Quotient(product: nat, long: nat)
    requires long > 0
    ensures product / long * long <= product < product / long * long + long
  {
    assert product == long * (product / long) + product % long;
  }

  lemma QuotientAtMost(product: nat, long: nat, most: nat)
    requires long > 0 && product <= most * long
    ensures product / long <= most
  {
    Quotient(product, long);
    var q := product / long;
    assert (q - most) * long == q * long - most * long;
    Multiples(long, q - most);
  }

  lemma QuotientExact(side: nat, long: nat)
    requires long > 0
    ensures long * side / long == side
  {
    var product := long * side;
    Quotient(product, long);
    var q := product / long;
    assert (side - q) * long == side * long - q * long;
    Multiples(long, side - q);
  }

  lemma Scaled(a: nat, b: nat, c: nat)
    requires b <= c
    ensures a * b <= a * c
  {
    assert a * (c - b) >= 0;
  }
}
