/** Coordinate rescaling between image sizes and the precision-name mapping of
    the inference service's image utilities. */
module ImageCoords {
  import opened Values

  /** An image size as the code unpacks it: `(height, width)`. */
  datatype Size = Size(height: int, width: int)

  /** The value column `j` of a box row takes after rescaling: columns 0 and 2
      scale with the width ratio, columns 1 and 3 with the height ratio, and every
      further column keeps the zero it was initialised with. */
  function Scaled(v: real, j: nat, src: Size, des: Size): real
    requires src.height != 0 && src.width != 0
  {
    if j == 0 || j == 2 then v * ((des.width as real) / (src.width as real))
    else if j == 1 || j == 3 then v * ((des.height as real) / (src.height as real))
    else 0.0
  }

  /** `scale_coordinates_to_image_size`: a zero source width or height divides by
      zero, an array with fewer than four columns has no column 3 to scale, and
      otherwise a fresh array of the same shape holds every row rescaled. */
  method ScaleCoordinates(bboxs: array2<real>, sizeSrc: Size, sizeDes: Size)
    returns (r: Result<array2<real>>)
    ensures r.Err? <==> sizeSrc.width == 0 || sizeSrc.height == 0 || bboxs.Length1 < 4
    ensures r.Err? ==> r.error == (if sizeSrc.width == 0 || sizeSrc.height == 0 then ZeroDivisionError else IndexError)
    ensures r.Ok? ==> fresh(r.value)
    ensures r.Ok? ==> r.value.Length0 == bboxs.Length0 && r.value.Length1 == bboxs.Length1
    ensures r.Ok? ==> forall i, j :: 0 <= i < bboxs.Length0 && 0 <= j < bboxs.Length1 ==>
      r.value[i, j] == Scaled(bboxs[i, j], j, sizeSrc, sizeDes)
  {
    var heightSrc, widthSrc := sizeSrc.height, sizeSrc.width;
    var heightDes, widthDes := sizeDes.height, sizeDes.width;
    if widthSrc == 0 || heightSrc == 0 {
      return Err(ZeroDivisionError);
    }
    var scaleX := (widthDes as real) / (widthSrc as real);
    var scaleY := (heightDes as real) / (heightSrc as real);
    if bboxs.Length1 < 4 {
      return Err(IndexError);
    }
    var scaled := new real[bboxs.Length0, bboxs.Length1]((i, j) => 0.0);
    var col := 0;
    while col < 4
      invariant 0 <= col <= 4
      invariant forall i, j :: 0 <= i < bboxs.Length0 && 0 <= j < bboxs.Length1 ==>
        scaled[i, j] == (if j < col then Scaled(bboxs[i, j], j, sizeSrc, sizeDes) else 0.0)
    {
      var factor := if col == 0 || col == 2 then scaleX else scaleY;
      var row := 0;
      while row < bboxs.Length0
        invariant 0 <= row <= bboxs.Length0
        invariant forall i, j :: 0 <= i < bboxs.Length0 && 0 <= j < bboxs.Length1 ==>
          scaled[i, j] == (if j < col || (j == col && i < row) then Scaled(bboxs[i, j], j, sizeSrc, sizeDes) else 0.0)
      {
        scaled[row, col] := bboxs[row, col] * factor;
        row := row + 1;
      }
      col := col + 1;
    }
    forall i, j | 0 <= i < bboxs.Length0 && 4 <= j < bboxs.Length1
      ensures scaled[i, j] == Scaled(bboxs[i, j], j, sizeSrc, sizeDes)
    {
    }
    return Ok(scaled);
  }

  /** Rescaling to the same size leaves the four box coordinates unchanged. */
  lemma SameSizeIsIdentity(v: real, j: nat, s: Size)
    requires s.height != 0 && s.width != 0 && j < 4
    ensures Scaled(v, j, s, s) == v
  {
  }

  /** Rescaling from `a` to `b` and then from `b` to `c` is rescaling from `a` to `c`. */
  lemma ScalingComposes(v: real, j: nat, a: Size, b: Size, c: Size)
    requires a.height != 0 && a.width != 0 && b.height != 0 && b.width != 0 && j < 4
    ensures Scaled(Scaled(v, j, a, b), j, b, c) == Scaled(v, j, a, c)
  {
    if j == 0 || j == 2 {
      var wa, wb, wc := a.width as real, b.width as real, c.width as real;
      assert v * (wb / wa) * (wc / wb) == v * (wc / wa);
    } else {
      var ha, hb, hc := a.height as real, b.height as real, c.height as real;
      assert v * (hb / ha) * (hc / hb) == v * (hc / ha);
    }
  }

  /** Rescaling there and back restores the coordinate. */
  lemma ScaleThereAndBack(v: real, j: nat, a: Size, b: Size)
    requires a.height != 0 && a.width != 0 && b.height != 0 && b.width != 0 && j < 4
    ensures Scaled(Scaled(v, j, a, b), j, b, a) == v
  {
    ScalingComposes(v, j, a, b, a);
    SameSizeIsIdentity(v, j, a);
  }

  // ---------------------------------------------------------------------------
  // precision_to_type

  /** The numpy scalar types a model input can be cast to. */
  datatype NumType = Float64 | Float32 | Float16 | Int8

  /** `precision_to_type`: the four precision names, in any letter case, select
      their numpy type; any other name raises ValueError. */
  function PrecisionToType(precision: string): (r: Result<NumType>)
    ensures r.Ok? <==> Lower(precision) in {"fp64", "fp32", "fp16", "int8"}
    ensures r.Err? ==> r.error.ValueError?
  {
    if Lower(precision) == "fp64" then Ok(Float64)
    else if Lower(precision) == "fp32" then Ok(Float32)
    else if Lower(precision) == "fp16" then Ok(Float16)
    else if Lower(precision) == "int8" then Ok(Int8)
    else Err(ValueError("Unknown precision: " + precision))
  }

  /** The canonical name of each type. */
  function PrecisionName(t: NumType): string {
    match t
    case Float64 => "fp64"
    case Float32 => "fp32"
    case Float16 => "fp16"
    case Int8 => "int8"
  }

  /** Every type is selected by its name, and by the name in upper case. */
  lemma PrecisionNameRoundTrip(t: NumType)
    ensures PrecisionToType(PrecisionName(t)) == Ok(t)
    ensures PrecisionToType(Upper(PrecisionName(t))) == Ok(t)
  {
    var n := PrecisionName(t);
    LowerOfUpperName(n);
    assert Lower(n) == n;
  }

  lemma LowerOfUpperName(n: string)
    requires n in {"fp64", "fp32", "fp16", "int8"}
    ensures Lower(Upper(n)) == n && Lower(n) == n
  {
  }

  /** The mapping ignores letter case: names that agree after lower-casing map alike. */
  lemma PrecisionCaseInsensitive(p: string, q: string)
    requires Lower(p) == Lower(q)
    ensures PrecisionToType(p).Ok? <==> PrecisionToType(q).Ok?
    ensures PrecisionToType(p).Ok? ==> PrecisionToType(p) == PrecisionToType(q)
  {
  }
}
