/** The 180° rotation of normalised centre-size boxes used to augment label files. */
module Rotate {
  import opened Values
  import BoxPattern

  type Coords = seq<real>

  /** One box `(x0, y0, w, h)` seen in the image turned by 180°: the centre is
      mirrored through the image centre, the size is kept. */
  function Rotated(b: Coords): (r: Coords)
    requires |b| == 4
    ensures |r| == 4 && r[2] == b[2] && r[3] == b[3]
    ensures r[0] + b[0] == 1.0 && r[1] + b[1] == 1.0
  {
    [1.0 - b[0], 1.0 - b[1], b[2], b[3]]
  }

  /** `rotate_bounding_boxes_180_normalized`: every box unpacks into four values
      (else ValueError) and the output lists the rotated boxes in input order. */
  method RotateBoxes180(bboxes: seq<Coords>) returns (r: Result<seq<Coords>>)
    ensures r.Ok? <==> BoxPattern.AllQuads(bboxes)
    ensures r.Err? ==> r.error == BoxPattern.UnpackError
    ensures r.Ok? ==> |r.value| == |bboxes|
    ensures r.Ok? ==> forall i :: 0 <= i < |bboxes| ==> r.value[i] == Rotated(bboxes[i])
  {
    var rotated: seq<Coords> := [];
    var i := 0;
    while i < |bboxes|
      invariant 0 <= i <= |bboxes|
      invariant |rotated| == i
      invariant forall k :: 0 <= k < i ==> |bboxes[k]| == 4 && rotated[k] == Rotated(bboxes[k])
    {
      var b := bboxes[i];
      if |b| != 4 {
        return Err(BoxPattern.UnpackError);
      }
      var x0, y0, w, h := b[0], b[1], b[2], b[3];
      var x0New := 1.0 - x0;
      var y0New := 1.0 - y0;
      rotated := rotated + [[x0New, y0New, w, h]];
      i := i + 1;
    }
    return Ok(rotated);
  }

  /** Turning a box twice by 180° gives it back. */
  lemma RotateTwice(b: Coords)
    requires |b| == 4
    ensures Rotated(Rotated(b)) == b
  {
  }

  /** A normalised centre stays normalised. */
  lemma StaysNormalised(b: Coords)
    requires |b| == 4
    requires 0.0 <= b[0] <= 1.0 && 0.0 <= b[1] <= 1.0
    ensures 0.0 <= Rotated(b)[0] <= 1.0 && 0.0 <= Rotated(b)[1] <= 1.0
  {
  }

  /** Whatever two runs of the rotation return is the original list: a list
      of rotated boxes rotated again is the list itself. */
  lemma {:induction false} RotateListTwice(bboxes: seq<Coords>, once: seq<Coords>, twice: seq<Coords>)
    requires BoxPattern.AllQuads(bboxes)
    requires |once| == |bboxes| && forall i :: 0 <= i < |bboxes| ==> once[i] == Rotated(bboxes[i])
    requires |twice| == |once| && forall i :: 0 <= i < |once| ==> |once[i]| == 4 && twice[i] == Rotated(once[i])
    ensures twice == bboxes
  {
    forall i | 0 <= i < |bboxes|
      ensures twice[i] == bboxes[i]
    {
      RotateTwice(bboxes[i]);
    }
  }
}
