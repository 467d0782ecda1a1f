/** The numpy box conversions of the tooling scripts: centre-size (x, y, w, h)
    to corner pairs (x1, y1, x2, y2) and back, on single boxes and row-wise. */
module BoxConvert {
  import BoxPattern

  /** A box as a numpy vector of four reals; the meaning of the components
      depends on the format (centre-size or corner pairs). */
  datatype Box = Box(a: real, b: real, c: real, d: real)

  function ToSeq(b: Box): seq<real> { [b.a, b.b, b.c, b.d] }

  /** `xywh2xyxy` on one box: the centre minus and plus half the size. */
  function XywhToXyxy(b: Box): (r: Box)
    ensures r.c - r.a == b.c && r.d - r.b == b.d
    ensures (r.a + r.c) / 2.0 == b.a && (r.b + r.d) / 2.0 == b.b
  {
    Box(b.a - b.c / 2.0, b.b - b.d / 2.0, b.a + b.c / 2.0, b.b + b.d / 2.0)
  }

  /** `xywh2xyxy` on a two-dimensional array: every row converted, in order. */
  function XywhToXyxyRows(rows: seq<Box>): (r: seq<Box>)
    ensures |r| == |rows|
    ensures forall i :: 0 <= i < |rows| ==> r[i] == XywhToXyxy(rows[i])
  {
    seq(|rows|, i requires 0 <= i < |rows| => XywhToXyxy(rows[i]))
  }

  /** `xyxy2xywh` on one box: the first corner plus half the extent, then the extent. */
  function XyxyToXywh(b: Box): (r: Box)
    ensures r.c == b.c - b.a && r.d == b.d - b.b
    ensures r.a == (b.a + b.c) / 2.0 && r.b == (b.b + b.d) / 2.0
  {
    var w, h := b.c - b.a, b.d - b.b;
    Box(b.a + w / 2.0, b.b + h / 2.0, w, h)
  }

  /** Converting to corners and back gives the original centre-size box. */
  lemma CornersThenCentre(b: Box)
    ensures XyxyToXywh(XywhToXyxy(b)) == b
  {
  }

  /** Converting to centre-size and back gives the original corners. */
  lemma CentreThenCorners(b: Box)
    ensures XywhToXyxy(XyxyToXywh(b)) == b
  {
  }

  /** The row-wise conversion is undone row by row. */
  lemma RowsRoundTrip(rows: seq<Box>)
    ensures |XywhToXyxyRows(rows)| == |rows|
    ensures forall i :: 0 <= i < |rows| ==> XyxyToXywh(XywhToXyxyRows(rows)[i]) == rows[i]
  {
    forall i | 0 <= i < |rows|
      ensures XyxyToXywh(XywhToXyxyRows(rows)[i]) == rows[i]
    {
      CornersThenCentre(rows[i]);
    }
  }

  /** A box with non-negative size has its first corner above and left of the second. */
  lemma OrderedCorners(b: Box)
    requires b.c >= 0.0 && b.d >= 0.0
    ensures XywhToXyxy(b).a <= XywhToXyxy(b).c && XywhToXyxy(b).b <= XywhToXyxy(b).d
  {
  }

  /** The tooling conversion agrees with the one inside the pattern checker. */
  lemma AgreesWithChecker(b: Box)
    ensures ToSeq(XyxyToXywh(b)) == BoxPattern.CenterSize(ToSeq(b))
  {
  }
}
