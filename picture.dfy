/**
 * Video frames as three byte planes with row strides, and the synthetic
 * YUV 4:2:0 test pattern the muxer paints into them (fill_yuv_image).
 */
module Picture {

  /** An unsigned byte (uint8_t). */
  newtype uint8 = x: int | 0 <= x < 256

  /** Storing an int into a uint8_t keeps its value modulo 256. */
  function Byte(v: int): uint8
  {
    (v % 256) as uint8
  }

  /** The three planes of a YUV 4:2:0 picture: luma and the two chroma planes. */
  datatype Component = Luma | Cb | Cr

  /** The test-pattern byte of component c at column x, row y of frame number i. */
  function Sample(c: Component, x: int, y: int, i: int): uint8
  {
    match c
    case Luma => Byte(x + y + i * 3)
    case Cb => Byte(128 + y + i * 2)
    case Cr => Byte(64 + x + i * 5)
  }

  /** Position of column x of row y in a plane whose rows are lineSize bytes apart. */
  function Offset(lineSize: int, y: int, x: int): int
  {
    y * lineSize + x
  }

  /** Byte k of a plane with stride lineSize lies in the top-left w-by-h rectangle. */
  predicate InRect(k: int, lineSize: int, w: int, h: int)
  {
    lineSize > 0 && 0 <= k && k / lineSize < h && k % lineSize < w
  }

  /** Plane s after painting component c of frame i over its top-left w-by-h rectangle. */
  function Painted(s: seq<uint8>, lineSize: int, w: int, h: int, c: Component, i: int): (r: seq<uint8>)
    ensures |r| == |s|
  {
    seq(|s|, k requires 0 <= k < |s| =>
      if InRect(k, lineSize, w, h) then Sample(c, k % lineSize, k / lineSize, i) else s[k])
  }

  /** A product of a positive stride with a non-zero row difference is at least the stride in size. */
  lemma StrideMultiple(t: int, lineSize: int)
    requires lineSize > 0
    ensures t >= 1 ==> t * lineSize >= lineSize
    ensures t <= -1 ==> t * lineSize <= -lineSize
  {
  }

  /** Every byte of a plane sits at the offset of its own row and column. */
  lemma OffsetOfRowColumn(k: int, lineSize: int)
    requires lineSize > 0
    ensures k == Offset(lineSize, k / lineSize, k % lineSize)
  {
  }

  /** Row and column can be read back from an offset whose column is inside the stride. */
  lemma RowColumn(lineSize: int, y: int, x: int)
    requires 0 <= x < lineSize && 0 <= y
    ensures Offset(lineSize, y, x) / lineSize == y
    ensures Offset(lineSize, y, x) % lineSize == x
  {
    var k := Offset(lineSize, y, x);
    var q, r := k / lineSize, k % lineSize;
    OffsetOfRowColumn(k, lineSize);
    var t := q - y;
    assert t * lineSize == q * lineSize - y * lineSize;
    assert t * lineSize == x - r;
    StrideMultiple(t, lineSize);
  }

  /** A product of non-negative numbers is non-negative. */
  lemma MulNonNegative(a: int, b: int)
    requires a >= 0 && b >= 0
    ensures a * b >= 0
  {
  }

  /** Row and column of a byte at a non-negative offset are non-negative. */
  lemma DivNonNegative(k: int, lineSize: int)
    requires 0 <= k && lineSize > 0
    ensures k / lineSize >= 0 && k % lineSize >= 0
  {
  }

  /** An offset inside a w-by-h rectangle is no later than that of its last byte. */
  lemma OffsetBound(lineSize: int, y: int, x: int, w: int, h: int)
    requires 0 <= y < h && 0 <= x < w && lineSize >= 0
    ensures Offset(lineSize, y, x) <= Offset(lineSize, h - 1, w - 1)
  {
    MulNonNegative(h - 1 - y, lineSize);
  }

  /** Painting puts the pattern byte of (x, y) at row y, column x. */
  lemma PaintedPixel(s: seq<uint8>, lineSize: int, w: int, h: int, c: Component, i: int, y: int, x: int)
    requires 0 <= y < h && 0 <= x < w <= lineSize && Offset(lineSize, y, x) < |s|
    ensures Painted(s, lineSize, w, h, c, i)[Offset(lineSize, y, x)] == Sample(c, x, y, i)
  {
    RowColumn(lineSize, y, x);
  }

  /** Painting leaves every byte that is not at some (x, y) of the rectangle as it was. */
  lemma PaintedUntouched(s: seq<uint8>, lineSize: int, w: int, h: int, c: Component, i: int, k: int)
    requires 0 <= k < |s|
    requires forall y, x :: 0 <= y < h && 0 <= x < w ==> k != Offset(lineSize, y, x)
    ensures Painted(s, lineSize, w, h, c, i)[k] == s[k]
  {
    if lineSize > 0 {
      var y, x := k / lineSize, k % lineSize;
      OffsetOfRowColumn(k, lineSize);
      assert 0 <= y < h && 0 <= x < w ==> k != Offset(lineSize, y, x);
      assert !InRect(k, lineSize, w, h);
    }
  }

  /**
   * Bytes of a plane already painted when the rows above y are done and row y
   * is done up to column x.
   */
  predicate Done(k: int, lineSize: int, w: int, y: int, x: int)
  {
    InRect(k, lineSize, w, y) || (lineSize > 0 && 0 <= k && k / lineSize == y && k % lineSize < x)
  }

  /** Plane a holds component c of frame i on the Done bytes and before's bytes elsewhere. */
  ghost predicate PaintedUpTo(a: seq<uint8>, before: seq<uint8>, lineSize: int, w: int, y: int, x: int, c: Component, i: int)
  {
    && |a| == |before|
    && forall k :: 0 <= k < |a| ==>
         a[k] == if Done(k, lineSize, w, y, x) then Sample(c, k % lineSize, k / lineSize, i) else before[k]
  }

  /** Painting the byte at (x, y) extends the Done region by exactly that byte. */
  lemma DoneStep(k: int, lineSize: int, w: int, y: int, x: int)
    requires 0 <= x < w <= lineSize && 0 <= y && 0 <= k
    ensures Done(k, lineSize, w, y, x + 1) <==> Done(k, lineSize, w, y, x) || k == Offset(lineSize, y, x)
  {
    RowColumn(lineSize, y, x);
    OffsetOfRowColumn(k, lineSize);
  }

  /** One loop step: writing the pattern byte at (x, y) keeps a painted up to the next column. */
  lemma PaintStep(a: seq<uint8>, before: seq<uint8>, lineSize: int, w: int, y: int, x: int, c: Component, i: int)
    requires PaintedUpTo(a, before, lineSize, w, y, x, c, i)
    requires 0 <= x < w <= lineSize && 0 <= y && Offset(lineSize, y, x) < |a|
    ensures PaintedUpTo(a[Offset(lineSize, y, x) := Sample(c, x, y, i)], before, lineSize, w, y, x + 1, c, i)
  {
    RowColumn(lineSize, y, x);
    forall k | 0 <= k < |a|
      ensures Done(k, lineSize, w, y, x + 1) <==> Done(k, lineSize, w, y, x) || k == Offset(lineSize, y, x)
    {
      DoneStep(k, lineSize, w, y, x);
    }
  }

  /** Before the first row nothing is painted. */
  lemma PaintNothing(a: seq<uint8>, lineSize: int, w: int, c: Component, i: int)
    ensures PaintedUpTo(a, a, lineSize, w, 0, 0, c, i)
  {
    forall k | 0 <= k < |a| && lineSize > 0
      ensures !Done(k, lineSize, w, 0, 0)
    {
      DivNonNegative(k, lineSize);
    }
  }

  /** A row finished up to column w is the same region as the rows above the next row. */
  lemma PaintRowDone(a: seq<uint8>, before: seq<uint8>, lineSize: int, w: int, y: int, x: int, c: Component, i: int)
    requires PaintedUpTo(a, before, lineSize, w, y, x, c, i)
    requires x == w || (w < 0 && x == 0)
    ensures PaintedUpTo(a, before, lineSize, w, y + 1, 0, c, i)
  {
  }

  /** Painted up to row h means painted over the whole rectangle. */
  lemma PaintAllDone(a: seq<uint8>, before: seq<uint8>, lineSize: int, w: int, h: int, y: int, c: Component, i: int)
    requires PaintedUpTo(a, before, lineSize, w, y, 0, c, i)
    requires y == h || (h < 0 && y == 0)
    ensures a == Painted(before, lineSize, w, h, c, i)
  {
  }

  /** Whether a plane with stride lineSize and length len can hold a w-by-h rectangle. */
  predicate PlaneFits(len: int, lineSize: int, w: int, h: int)
  {
    w <= lineSize && (0 < w && 0 < h ==> Offset(lineSize, h - 1, w - 1) < len)
  }

  /** A frame (AVFrame): three byte planes with their strides, a sample count and a timestamp. */
  class Frame {
    const data0: array<uint8>
    const data1: array<uint8>
    const data2: array<uint8>
    const lineSize0: int
    const lineSize1: int
    const lineSize2: int
    const nbSamples: int
    var pts: int

    /** The three planes are distinct buffers. */
    ghost predicate Valid()
      reads this
    {
      data0 != data1 && data0 != data2 && data1 != data2
    }

    /** The planes are large enough for a width-by-height 4:2:0 picture. */
    predicate Fits(width: int, height: int)
      reads this
    {
      && PlaneFits(data0.Length, lineSize0, width, height)
      && PlaneFits(data1.Length, lineSize1, width / 2, height / 2)
      && PlaneFits(data2.Length, lineSize2, width / 2, height / 2)
    }

    constructor (d0: array<uint8>, d1: array<uint8>, d2: array<uint8>,
                 ls0: int, ls1: int, ls2: int, samples: int)
      ensures data0 == d0 && data1 == d1 && data2 == d2
      ensures lineSize0 == ls0 && lineSize1 == ls1 && lineSize2 == ls2
      ensures nbSamples == samples && pts == 0
    {
      data0, data1, data2 := d0, d1, d2;
      lineSize0, lineSize1, lineSize2 := ls0, ls1, ls2;
      nbSamples := samples;
      pts := 0;
    }
  }

  /**
   * Paints the test pattern of frame number frameIndex into pict: luma over
   * width-by-height, both chroma planes over (width/2)-by-(height/2); no other
   * byte changes.
   */
  method FillYuvImage(pict: Frame, frameIndex: int, width: int, height: int)
    requires pict.Valid() && pict.Fits(width, height)
    modifies pict.data0, pict.data1, pict.data2
    ensures pict.data0[..] == Painted(old(pict.data0[..]), pict.lineSize0, width, height, Luma, frameIndex)
    ensures pict.data1[..] == Painted(old(pict.data1[..]), pict.lineSize1, width / 2, height / 2, Cb, frameIndex)
    ensures pict.data2[..] == Painted(old(pict.data2[..]), pict.lineSize2, width / 2, height / 2, Cr, frameIndex)
  {
    FillLuma(pict, frameIndex, width, height);
    FillChroma(pict, frameIndex, width, height);
  }

  /** The first loop nest of FillYuvImage: the luma plane, row by row. */
  method FillLuma(pict: Frame, i: int, width: int, height: int)
    requires PlaneFits(pict.data0.Length, pict.lineSize0, width, height)
    modifies pict.data0
    ensures pict.data0[..] == Painted(old(pict.data0[..]), pict.lineSize0, width, height, Luma, i)
  {
    var ls0 := pict.lineSize0;
    ghost var before := pict.data0[..];
    PaintNothing(before, ls0, width, Luma, i);
    var y := 0;
    while y < height
      invariant y == 0 || 0 <= y <= height
      invariant PaintedUpTo(pict.data0[..], before, ls0, width, y, 0, Luma, i)
    {
      var x := 0;
      while x < width
        invariant x == 0 || 0 <= x <= width
        invariant PaintedUpTo(pict.data0[..], before, ls0, width, y, x, Luma, i)
      {
        OffsetBound(ls0, y, x, width, height);
        PaintStep(pict.data0[..], before, ls0, width, y, x, Luma, i);
        pict.data0[Offset(ls0, y, x)] := Sample(Luma, x, y, i);
        x := x + 1;
      }
      PaintRowDone(pict.data0[..], before, ls0, width, y, x, Luma, i);
      y := y + 1;
    }
    PaintAllDone(pict.data0[..], before, ls0, width, height, y, Luma, i);
  }

  /** The second loop nest of FillYuvImage: both chroma planes at half resolution. */
  method FillChroma(pict: Frame, i: int, width: int, height: int)
    requires pict.Valid() && pict.Fits(width, height)
    modifies pict.data1, pict.data2
    ensures pict.data1[..] == Painted(old(pict.data1[..]), pict.lineSize1, width / 2, height / 2, Cb, i)
    ensures pict.data2[..] == Painted(old(pict.data2[..]), pict.lineSize2, width / 2, height / 2, Cr, i)
  {
    var ls1, ls2 := pict.lineSize1, pict.lineSize2;
    ghost var cb0, cr0 := pict.data1[..], pict.data2[..];
    PaintNothing(cb0, ls1, width / 2, Cb, i);
    PaintNothing(cr0, ls2, width / 2, Cr, i);
    var y := 0;
    while y < height / 2
      invariant y == 0 || 0 <= y <= height / 2
      invariant PaintedUpTo(pict.data1[..], cb0, ls1, width / 2, y, 0, Cb, i)
      invariant PaintedUpTo(pict.data2[..], cr0, ls2, width / 2, y, 0, Cr, i)
    {
      var x := 0;
      while x < width / 2
        invariant x == 0 || 0 <= x <= width / 2
        invariant PaintedUpTo(pict.data1[..], cb0, ls1, width / 2, y, x, Cb, i)
        invariant PaintedUpTo(pict.data2[..], cr0, ls2, width / 2, y, x, Cr, i)
      {
        OffsetBound(ls1, y, x, width / 2, height / 2);
        OffsetBound(ls2, y, x, width / 2, height / 2);
        PaintStep(pict.data1[..], cb0, ls1, width / 2, y, x, Cb, i);
        PaintStep(pict.data2[..], cr0, ls2, width / 2, y, x, Cr, i);
        pict.data1[Offset(ls1, y, x)] := Sample(Cb, x, y, i);
        pict.data2[Offset(ls2, y, x)] := Sample(Cr, x, y, i);
        x := x + 1;
      }
      PaintRowDone(pict.data1[..], cb0, ls1, width / 2, y, x, Cb, i);
      PaintRowDone(pict.data2[..], cr0, ls2, width / 2, y, x, Cr, i);
      y := y + 1;
    }
    PaintAllDone(pict.data1[..], cb0, ls1, width / 2, height / 2, y, Cb, i);
    PaintAllDone(pict.data2[..], cr0, ls2, width / 2, height / 2, y, Cr, i);
  }
}
