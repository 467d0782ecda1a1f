/** The bounding-box pattern checker of Backend/check_boxes.py. The PatternCheck
    service carries a line-for-line identical copy of `is_xyxy`, `xyxy2xywh`,
    `check_box` and `check_boxes` (PatternCheck/utils_coordinates.py); this one
    module models both.

    A detection box and a pattern position are lists of reals of any length,
    as in the source: `is_xyxy` and `xyxy2xywh` raise on boxes that are too
    short or have the wrong arity, `check_box` compares only as many axes as
    the shortest of its three lists has. */
module BoxPattern {
  import opened Values

  type Coords = seq<real>

  /** One entry of a pattern library: a tolerance shared by all positions, and the
      positions `[class_id, x, y, w, h]` in centre-size form. */
  datatype Pattern = Pattern(tolerance: Coords, positions: seq<Coords>)

  /** A pattern library (the parsed YAML file), in dictionary iteration order. */
  type Library = seq<(string, Pattern)>

  // ---------------------------------------------------------------------------
  // is_xyxy

  /** What `(bbx[0] < bbx[2]) or (bbx[1] < bbx[3])` evaluates to on one box;
      `or` short-circuits, so `bbx[3]` is read only when the first test fails. */
  function AscendingTest(b: Coords): Result<bool> {
    if |b| < 3 then Err(IndexError)
    else if b[0] < b[2] then Ok(true)
    else if |b| < 4 then Err(IndexError)
    else Ok(b[1] < b[3])
  }

  /** An ascending corner pair: the test above, on a box with four coordinates. */
  predicate Ascending(b: Coords)
    requires |b| >= 4
  {
    b[0] < b[2] || b[1] < b[3]
  }

  /** What `is_xyxy` returns or raises: boxes are tested in order up to the first
      ascending one. */
  function Xyxy(boxes: seq<Coords>): Result<bool> {
    if boxes == [] then Ok(false)
    else match AscendingTest(boxes[0])
      case Err(e) => Err(e)
      case Ok(up) => if up then Ok(true) else Xyxy(boxes[1..])
  }

  method IsXyxy(bboxes: seq<Coords>) returns (r: Result<bool>)
    ensures r == Xyxy(bboxes)
  {
    var scaleToXywh := false;
    var i := 0;
    while i < |bboxes|
      invariant 0 <= i <= |bboxes|
      invariant Xyxy(bboxes) == Xyxy(bboxes[i..])
    {
      var bbx := bboxes[i];
      assert bboxes[i..][0] == bbx && bboxes[i..][1..] == bboxes[i + 1..];
      if |bbx| < 3 {
        return Err(IndexError);
      }
      if bbx[0] < bbx[2] {
        scaleToXywh := true;
        break;
      }
      if |bbx| < 4 {
        return Err(IndexError);
      }
      if bbx[1] < bbx[3] {
        scaleToXywh := true;
        break;
      }
      i := i + 1;
    }
    return Ok(scaleToXywh);
  }

  /** On boxes of four coordinates `is_xyxy` never raises, and it holds iff some
      box is an ascending corner pair; in particular it is false on no boxes. */
  lemma {:induction false} XyxyIffSomeAscending(boxes: seq<Coords>)
    requires forall j :: 0 <= j < |boxes| ==> |boxes[j]| >= 4
    ensures Xyxy(boxes) == Ok(exists j :: 0 <= j < |boxes| && Ascending(boxes[j]))
  {
    if boxes != [] {
      XyxyIffSomeAscending(boxes[1..]);
      if !Ascending(boxes[0]) {
        assert forall j :: 1 <= j < |boxes| ==> boxes[j] == boxes[1..][j - 1];
      }
    }
  }

  // ---------------------------------------------------------------------------
  // xyxy2xywh

  /** The centre-size form of a corner pair `[x1, y1, x2, y2]`. */
  function CenterSize(b: Coords): (r: Coords)
    requires |b| == 4
  {
    var w := b[2] - b[0];
    var h := b[3] - b[1];
    [b[0] + w / 2.0, b[1] + h / 2.0, w, h]
  }

  /** The ValueError raised when a box does not unpack into four values. */
  const UnpackError := ValueError("wrong number of values to unpack")

  predicate AllQuads(boxes: seq<Coords>) {
    forall i :: 0 <= i < |boxes| ==> |boxes[i]| == 4
  }

  /** `xyxy2xywh`: every box unpacks into exactly four values (else ValueError) and
      is converted to centre-size form, keeping length and order. */
  method XyxyToXywh(xyxy: seq<Coords>) returns (r: Result<seq<Coords>>)
    ensures r.Ok? <==> AllQuads(xyxy)
    ensures r.Err? ==> r.error == UnpackError
    ensures r.Ok? ==> |r.value| == |xyxy|
    ensures r.Ok? ==> forall i :: 0 <= i < |xyxy| ==> r.value[i] == CenterSize(xyxy[i])
  {
    var x0y0wh: seq<Coords> := [];
    var i := 0;
    while i < |xyxy|
      invariant 0 <= i <= |xyxy|
      invariant |x0y0wh| == i
      invariant forall k :: 0 <= k < i ==> |xyxy[k]| == 4 && x0y0wh[k] == CenterSize(xyxy[k])
    {
      var b := xyxy[i];
      if |b| != 4 {
        return Err(UnpackError);
      }
      var x1, y1, x2, y2 := b[0], b[1], b[2], b[3];
      var w := x2 - x1;
      var h := y2 - y1;
      var x0 := x1 + w / 2.0;
      var y0 := y1 + h / 2.0;
      x0y0wh := x0y0wh + [[x0, y0, w, h]];
      i := i + 1;
    }
    return Ok(x0y0wh);
  }

  /** Centre-size conversion read as geometry: width and height are the corner
      differences, the centre lies halfway between the corners. */
  lemma CenterSizeGeometry(b: Coords)
    requires |b| == 4
    ensures var c := CenterSize(b);
      && c[2] == b[2] - b[0] && c[3] == b[3] - b[1]
      && c[0] - c[2] / 2.0 == b[0] && c[0] + c[2] / 2.0 == b[2]
      && c[1] - c[3] / 2.0 == b[1] && c[1] + c[3] / 2.0 == b[3]
  {
  }

  // ---------------------------------------------------------------------------
  // check_box

  /** The number of axes `zip(bbx_act, bbx_des, tol)` pairs up. */
  function Axes(act: Coords, des: Coords, tol: Coords): nat {
    Min(Min(|act|, |des|), |tol|)
  }

  /** A detection matches a desired box: same class (Python compares the int id
      with the pattern's number), and on at least one axis and on every paired
      axis the deviation is strictly below the tolerance. */
  predicate BoxMatches(idAct: int, act: Coords, idDes: real, des: Coords, tol: Coords) {
    && idAct as real == idDes
    && Axes(act, des, tol) > 0
    && forall i :: 0 <= i < Axes(act, des, tol) ==> Abs(act[i] - des[i]) < tol[i]
  }

  method CheckBox(idAct: int, bbxAct: Coords, idDes: real, bbxDes: Coords, tol: Coords)
    returns (found: bool)
    ensures found == BoxMatches(idAct, bbxAct, idDes, bbxDes, tol)
  {
    found := false;
    if idAct as real == idDes {
      var n := Min(Min(|bbxAct|, |bbxDes|), |tol|);
      var i := 0;
      while i < n
        invariant 0 <= i <= n
        invariant found <==> i > 0
        invariant forall k :: 0 <= k < i ==> Abs(bbxAct[k] - bbxDes[k]) < tol[k]
      {
        if Abs(bbxAct[i] - bbxDes[i]) < tol[i] {
          found := true;
        } else {
          found := false;
          break;
        }
        i := i + 1;
      }
    }
  }

  /** With four coordinates everywhere, a match is exactly: equal class and a
      strict deviation bound on each of x, y, w and h. */
  lemma FourAxisMatch(idAct: int, act: Coords, idDes: real, des: Coords, tol: Coords)
    requires |act| == 4 && |des| == 4 && |tol| == 4
    ensures BoxMatches(idAct, act, idDes, des, tol) <==>
      && idAct as real == idDes
      && Abs(act[0] - des[0]) < tol[0] && Abs(act[1] - des[1]) < tol[1]
      && Abs(act[2] - des[2]) < tol[2] && Abs(act[3] - des[3]) < tol[3]
  {
  }

  /** A deviation exactly equal to the tolerance on a paired axis fails, and so does
      a different class or an empty tolerance list. */
  lemma MatchBoundaries(idAct: int, act: Coords, idDes: real, des: Coords, tol: Coords, i: nat)
    ensures i < Axes(act, des, tol) && Abs(act[i] - des[i]) == tol[i] ==>
      !BoxMatches(idAct, act, idDes, des, tol)
    ensures idAct as real != idDes ==> !BoxMatches(idAct, act, idDes, des, tol)
    ensures tol == [] ==> !BoxMatches(idAct, act, idDes, des, tol)
  {
  }

  // ---------------------------------------------------------------------------
  // One position of a pattern

  /** `pos[1:5]`: Python slicing clamps at the end of the list. */
  function Desired(pos: Coords): Coords
    requires |pos| >= 1
  {
    pos[1..Min(5, |pos|)]
  }

  /** Position `pos` is found iff some pair of `zip(bboxes, class_ids)` matches it;
      pairs beyond the shorter list do not take part. */
  predicate SlotFound(boxes: seq<Coords>, ids: seq<int>, pos: Coords, tol: Coords)
    requires |pos| >= 1
  {
    exists j :: 0 <= j < Min(|boxes|, |ids|) && BoxMatches(ids[j], boxes[j], pos[0], Desired(pos), tol)
  }

  /** The inner loop of `check_boxes`: scan the detections, stop at the first match. */
  method FindSlot(bboxes: seq<Coords>, classIds: seq<int>, idDes: real, bbxDes: Coords, tol: Coords)
    returns (found: bool)
    ensures found <==> (exists j :: 0 <= j < Min(|bboxes|, |classIds|) &&
                         BoxMatches(classIds[j], bboxes[j], idDes, bbxDes, tol))
  {
    found := false;
    var n := Min(|bboxes|, |classIds|);
    var j := 0;
    while j < n
      invariant 0 <= j <= n
      invariant !found
      invariant forall k :: 0 <= k < j ==> !BoxMatches(classIds[k], bboxes[k], idDes, bbxDes, tol)
    {
      found := CheckBox(classIds[j], bboxes[j], idDes, bbxDes, tol);
      if found {
        break;
      }
      j := j + 1;
    }
  }

  // ---------------------------------------------------------------------------
  // Scoring one pattern

  /** Every position has a class id; an empty position makes `pos[0]` raise. */
  predicate WellFormed(p: Pattern) {
    forall k :: 0 <= k < |p.positions| ==> |p.positions[k]| >= 1
  }

  /** The found/not-found vector of a pattern, one entry per position, in order. */
  function SlotVector(boxes: seq<Coords>, ids: seq<int>, p: Pattern): (v: seq<bool>)
    requires WellFormed(p)
    ensures |v| == |p.positions|
  {
    seq(|p.positions|, k requires 0 <= k < |p.positions| =>
      SlotFound(boxes, ids, p.positions[k], p.tolerance))
  }

  function PatternVector(boxes: seq<Coords>, ids: seq<int>, p: Pattern): Result<seq<bool>> {
    if WellFormed(p) then Ok(SlotVector(boxes, ids, p)) else Err(IndexError)
  }

  /** `sum(v)` over a list of booleans. */
  function Count(v: seq<bool>): nat {
    if v == [] then 0 else (if v[0] then 1 else 0) + Count(v[1..])
  }

  predicate AllTrue(v: seq<bool>) {
    forall k :: 0 <= k < |v| ==> v[k]
  }

  /** The score of a pattern is at most its number of positions, reaches it exactly
      when every position is found, and is positive only for a non-empty vector. */
  lemma {:induction false} CountBounds(v: seq<bool>)
    ensures Count(v) <= |v|
    ensures Count(v) == |v| <==> AllTrue(v)
    ensures Count(v) > 0 ==> v != []
  {
    if v != [] {
      CountBounds(v[1..]);
      assert AllTrue(v) <==> v[0] && AllTrue(v[1..]) by {
        assert forall k :: 1 <= k < |v| ==> v[k] == v[1..][k - 1];
      }
    }
  }

  /** Pointwise more found positions never lower the score. */
  lemma {:induction false} CountMonotone(u: seq<bool>, v: seq<bool>)
    requires |u| == |v|
    requires forall k :: 0 <= k < |u| ==> u[k] ==> v[k]
    ensures Count(u) <= Count(v)
  {
    if u != [] {
      CountMonotone(u[1..], v[1..]);
    }
  }

  // ---------------------------------------------------------------------------
  // check_boxes: selecting the best pattern

  /** The outer loop of `check_boxes` from entry `i` on, given the keys of the
      library and what evaluating each entry yields (its vector, or the error it
      raises), with best-so-far `name` and `best`: an entry replaces the best only
      with a strictly higher score, and the scan stops as soon as the new best has
      every position found. Entries after the stop are never looked at. */
  function Choose(keys: seq<string>, vecs: seq<Result<seq<bool>>>, i: nat, name: string, best: seq<bool>)
    : Result<(string, seq<bool>)>
    requires |keys| == |vecs| && i <= |vecs|
    decreases |vecs| - i
  {
    if i == |vecs| then Ok((name, best))
    else match vecs[i]
      case Err(e) => Err(e)
      case Ok(v) =>
        if Count(v) > Count(best) then
          if AllTrue(v) then Ok((keys[i], v))
          else Choose(keys, vecs, i + 1, keys[i], v)
        else Choose(keys, vecs, i + 1, name, best)
  }

  /** What evaluating each pattern of the library yields, in library order. */
  function Vectors(boxes: seq<Coords>, ids: seq<int>, lib: Library): (vecs: seq<Result<seq<bool>>>)
    ensures |vecs| == |lib|
  {
    seq(|lib|, i requires 0 <= i < |lib| => PatternVector(boxes, ids, lib[i].1))
  }

  function Select(boxes: seq<Coords>, ids: seq<int>, lib: Library): Result<(string, seq<bool>)> {
    Choose(Keys(lib), Vectors(boxes, ids, lib), 0, "", [])
  }

  /** The coordinate normalisation at the top of `check_boxes`. */
  function Normalize(boxes: seq<Coords>): Result<seq<Coords>> {
    match Xyxy(boxes)
    case Err(e) => Err(e)
    case Ok(xyxy) =>
      if !xyxy then Ok(boxes)
      else if AllQuads(boxes) then Ok(seq(|boxes|, i requires 0 <= i < |boxes| => CenterSize(boxes[i])))
      else Err(UnpackError)
  }

  /** What `check_boxes(bboxes, class_ids, config)` returns or raises. */
  function CheckBoxesSpec(bboxes: seq<Coords>, ids: seq<int>, config: Library): Result<(string, seq<bool>)> {
    match Normalize(bboxes)
    case Err(e) => Err(e)
    case Ok(boxes) => Select(boxes, ids, config)
  }

  /** The conversion step at the top of `check_boxes`. */
  method NormalizeBoxes(bboxes: seq<Coords>) returns (r: Result<seq<Coords>>)
    ensures r == Normalize(bboxes)
  {
    var xyxy := IsXyxy(bboxes);
    if xyxy.Err? {
      return Err(xyxy.error);
    }
    if !xyxy.value {
      return Ok(bboxes);
    }
    r := XyxyToXywh(bboxes);
    if r.Ok? {
      assert r.value == seq(|bboxes|, i requires 0 <= i < |bboxes| => CenterSize(bboxes[i]));
    }
  }

  /** The loop over the positions of one pattern in `check_boxes`, building
      `found_boxes`. */
  method EvaluatePattern(boxes: seq<Coords>, classIds: seq<int>, p: Pattern) returns (r: Result<seq<bool>>)
    ensures r == PatternVector(boxes, classIds, p)
  {
    var tol := p.tolerance;
    var foundBoxes: seq<bool> := [];
    var k := 0;
    while k < |p.positions|
      invariant 0 <= k <= |p.positions|
      invariant |foundBoxes| == k
      invariant forall m :: 0 <= m < k ==>
        |p.positions[m]| >= 1 && foundBoxes[m] == SlotFound(boxes, classIds, p.positions[m], tol)
    {
      var pos := p.positions[k];
      if |pos| == 0 {
        return Err(IndexError);
      }
      var idDes := pos[0];
      var bbxDes := pos[1..Min(5, |pos|)];
      var found := FindSlot(boxes, classIds, idDes, bbxDes, tol);
      foundBoxes := foundBoxes + [found];
      k := k + 1;
    }
    assert foundBoxes == SlotVector(boxes, classIds, p);
    return Ok(foundBoxes);
  }

  method CheckBoxes(bboxes: seq<Coords>, classIds: seq<int>, config: Library)
    returns (r: Result<(string, seq<bool>)>)
    ensures r == CheckBoxesSpec(bboxes, classIds, config)
  {
    // check if boxes need to be converted to centre coordinates
    var normalized := NormalizeBoxes(bboxes);
    if normalized.Err? {
      return Err(normalized.error);
    }
    var boxes := normalized.value;

    ghost var keys, vecs := Keys(config), Vectors(boxes, classIds, config);
    var info := "";
    var foundBoxesBest: seq<bool> := [];
    var i := 0;
    while i < |config|
      invariant 0 <= i <= |config|
      invariant Select(boxes, classIds, config) == Choose(keys, vecs, i, info, foundBoxesBest)
    {
      var ky, vl := config[i].0, config[i].1;
      var foundBoxes := EvaluatePattern(boxes, classIds, vl);
      assert vecs[i] == foundBoxes && keys[i] == ky;
      if foundBoxes.Err? {
        return Err(foundBoxes.error);
      }
      if Count(foundBoxes.value) > Count(foundBoxesBest) {
        info := ky;
        foundBoxesBest := foundBoxes.value;
        if AllTrue(foundBoxesBest) {
          break;
        }
      }
      i := i + 1;
    }
    return Ok((info, foundBoxesBest));
  }

  // ---------------------------------------------------------------------------
  // What the selection rule promises, for any scores

  predicate AllOk(vecs: seq<Result<seq<bool>>>) {
    forall i :: 0 <= i < |vecs| ==> vecs[i].Ok?
  }

  function ScoreAt(vecs: seq<Result<seq<bool>>>, i: nat): nat
    requires i < |vecs| && vecs[i].Ok?
  {
    Count(vecs[i].value)
  }

  /** Entry `j` is a record: it scores above zero and strictly beats every earlier
      entry. The records are exactly the entries that become the best so far. */
  predicate IsRecord(vecs: seq<Result<seq<bool>>>, j: nat)
    requires AllOk(vecs) && j < |vecs|
  {
    ScoreAt(vecs, j) > 0 && forall k :: 0 <= k < j ==> ScoreAt(vecs, k) < ScoreAt(vecs, j)
  }

  /** No record before `n` has every position found, so the scan did not stop there. */
  predicate NoEarlyStop(vecs: seq<Result<seq<bool>>>, n: nat)
    requires AllOk(vecs) && n <= |vecs|
  {
    forall j :: 0 <= j < n && IsRecord(vecs, j) ==> !AllTrue(vecs[j].value)
  }

  /** Entry `w` scores above zero, strictly beats every earlier entry and is not
      beaten by any entry before `n`. */
  ghost predicate EarliestBest(vecs: seq<Result<seq<bool>>>, w: nat, n: nat)
    requires AllOk(vecs) && w < n <= |vecs|
  {
    && ScoreAt(vecs, w) > 0
    && (forall j :: 0 <= j < w ==> ScoreAt(vecs, j) < ScoreAt(vecs, w))
    && (forall j :: w < j < n ==> ScoreAt(vecs, j) <= ScoreAt(vecs, w))
  }

  /** The best-so-far state after scanning the first `i` entries without stopping. */
  ghost predicate ChooseState(keys: seq<string>, vecs: seq<Result<seq<bool>>>, i: nat, name: string, best: seq<bool>)
    requires |keys| == |vecs| && AllOk(vecs) && i <= |vecs|
  {
    && NoEarlyStop(vecs, i)
    && (|| (name == "" && best == [] && forall j :: 0 <= j < i ==> ScoreAt(vecs, j) == 0)
        || exists w :: 0 <= w < i && EarliestBest(vecs, w, i) &&
             name == keys[w] && best == vecs[w].value && !AllTrue(best))
  }

  /** What a whole scan yields: either nothing scored (and the result is empty),
      or the winner is a record no earlier record stopped the scan before, and it
      either has every position found (the early stop) or no entry scores more. */
  ghost predicate Chosen(keys: seq<string>, vecs: seq<Result<seq<bool>>>, name: string, vec: seq<bool>)
    requires |keys| == |vecs| && AllOk(vecs)
  {
    || (name == "" && vec == [] && forall j :: 0 <= j < |vecs| ==> ScoreAt(vecs, j) == 0)
    || exists w :: 0 <= w < |vecs| && name == keys[w] && vec == vecs[w].value
         && IsRecord(vecs, w) && NoEarlyStop(vecs, w)
         && (AllTrue(vec) || forall j :: w < j < |vecs| ==> ScoreAt(vecs, j) <= ScoreAt(vecs, w))
  }

  lemma BeatenSoFar(keys: seq<string>, vecs: seq<Result<seq<bool>>>, i: nat, name: string, best: seq<bool>)
    requires |keys| == |vecs| && AllOk(vecs) && i <= |vecs|
    requires ChooseState(keys, vecs, i, name, best)
    ensures forall j :: 0 <= j < i ==> ScoreAt(vecs, j) <= Count(best)
  {
    if !(name == "" && best == [] && forall j :: 0 <= j < i ==> ScoreAt(vecs, j) == 0) {
      var w :| 0 <= w < i && EarliestBest(vecs, w, i) && name == keys[w] && best == vecs[w].value && !AllTrue(best);
      assert Count(best) == ScoreAt(vecs, w);
    }
  }

  lemma KeepBest(keys: seq<string>, vecs: seq<Result<seq<bool>>>, i: nat, name: string, best: seq<bool>)
    requires |keys| == |vecs| && AllOk(vecs) && i < |vecs|
    requires ChooseState(keys, vecs, i, name, best)
    requires ScoreAt(vecs, i) <= Count(best)
    ensures ChooseState(keys, vecs, i + 1, name, best)
  {
    if name == "" && best == [] && forall j :: 0 <= j < i ==> ScoreAt(vecs, j) == 0 {
      assert forall j :: 0 <= j < i + 1 ==> ScoreAt(vecs, j) == 0;
      assert !IsRecord(vecs, i);
    } else {
      var w :| 0 <= w < i && EarliestBest(vecs, w, i) && name == keys[w] && best == vecs[w].value && !AllTrue(best);
      assert Count(best) == ScoreAt(vecs, w);
      assert EarliestBest(vecs, w, i + 1);
      assert !IsRecord(vecs, i) by {
        assert ScoreAt(vecs, w) >= ScoreAt(vecs, i);
      }
    }
    assert NoEarlyStop(vecs, i + 1);
  }

  lemma NewBest(keys: seq<string>, vecs: seq<Result<seq<bool>>>, i: nat, name: string, best: seq<bool>)
    requires |keys| == |vecs| && AllOk(vecs) && i < |vecs|
    requires ChooseState(keys, vecs, i, name, best)
    requires ScoreAt(vecs, i) > Count(best)
    ensures AllTrue(vecs[i].value) ==> Chosen(keys, vecs, keys[i], vecs[i].value)
    ensures !AllTrue(vecs[i].value) ==> ChooseState(keys, vecs, i + 1, keys[i], vecs[i].value)
  {
    BeatenSoFar(keys, vecs, i, name, best);
    assert EarliestBest(vecs, i, i + 1);
    assert IsRecord(vecs, i);
  }

  lemma ChooseEnd(keys: seq<string>, vecs: seq<Result<seq<bool>>>, name: string, best: seq<bool>)
    requires |keys| == |vecs| && AllOk(vecs)
    requires ChooseState(keys, vecs, |vecs|, name, best)
    ensures Chosen(keys, vecs, name, best)
  {
    if !(name == "" && best == [] && forall j :: 0 <= j < |vecs| ==> ScoreAt(vecs, j) == 0) {
      var w :| 0 <= w < |vecs| && EarliestBest(vecs, w, |vecs|) && name == keys[w] && best == vecs[w].value;
      assert IsRecord(vecs, w) && NoEarlyStop(vecs, w);
    }
  }

  lemma {:induction false} ChooseSelects(keys: seq<string>, vecs: seq<Result<seq<bool>>>, i: nat, name: string, best: seq<bool>)
    requires |keys| == |vecs| && AllOk(vecs) && i <= |vecs|
    requires ChooseState(keys, vecs, i, name, best)
    ensures Choose(keys, vecs, i, name, best).Ok?
    ensures Chosen(keys, vecs, Choose(keys, vecs, i, name, best).value.0, Choose(keys, vecs, i, name, best).value.1)
    decreases |vecs| - i
  {
    if i == |vecs| {
      ChooseEnd(keys, vecs, name, best);
    } else if ScoreAt(vecs, i) > Count(best) {
      NewBest(keys, vecs, i, name, best);
      if !AllTrue(vecs[i].value) {
        ChooseSelects(keys, vecs, i + 1, keys[i], vecs[i].value);
      }
    } else {
      KeepBest(keys, vecs, i, name, best);
      ChooseSelects(keys, vecs, i + 1, name, best);
    }
  }

  /** The early exit: an entry with every position found that beats everything
      scanned before it is the result whatever follows it, even entries that raise,
      unless an earlier entry with every position found became the best on its way
      (the scan then stops there). */
  lemma {:induction false} ChooseStopsAtAllTrue(keys: seq<string>, vecs: seq<Result<seq<bool>>>, i: nat,
                                               name: string, best: seq<bool>, w: nat)
    requires |keys| == |vecs| && i <= w < |vecs|
    requires forall j :: i <= j <= w ==> vecs[j].Ok?
    requires AllTrue(vecs[w].value) && Count(best) < ScoreAt(vecs, w)
    requires forall j :: i <= j < w ==> ScoreAt(vecs, j) < ScoreAt(vecs, w)
    requires forall j :: i <= j < w && AllTrue(vecs[j].value) ==>
      ScoreAt(vecs, j) <= Count(best) || exists k :: i <= k < j && ScoreAt(vecs, j) <= ScoreAt(vecs, k)
    ensures Choose(keys, vecs, i, name, best) == Ok((keys[w], vecs[w].value))
    decreases w - i
  {
    if i < w {
      if ScoreAt(vecs, i) > Count(best) {
        forall j | i + 1 <= j < w && AllTrue(vecs[j].value)
          ensures ScoreAt(vecs, j) <= ScoreAt(vecs, i) || exists k :: i + 1 <= k < j && ScoreAt(vecs, j) <= ScoreAt(vecs, k)
        {
          if ScoreAt(vecs, j) <= Count(best) {
          } else {
            var k :| i <= k < j && ScoreAt(vecs, j) <= ScoreAt(vecs, k);
            if k != i {
              assert i + 1 <= k < j && ScoreAt(vecs, j) <= ScoreAt(vecs, k);
            }
          }
        }
        ChooseStopsAtAllTrue(keys, vecs, i + 1, keys[i], vecs[i].value, w);
      } else {
        forall j | i + 1 <= j < w && AllTrue(vecs[j].value)
          ensures ScoreAt(vecs, j) <= Count(best) || exists k :: i + 1 <= k < j && ScoreAt(vecs, j) <= ScoreAt(vecs, k)
        {
          if ScoreAt(vecs, j) > Count(best) {
            var k :| i <= k < j && ScoreAt(vecs, j) <= ScoreAt(vecs, k);
            assert k != i;
          }
        }
        ChooseStopsAtAllTrue(keys, vecs, i + 1, name, best, w);
      }
    }
  }

  // ---------------------------------------------------------------------------
  // What check_boxes promises about a pattern library

  predicate AllWellFormed(lib: Library) {
    forall i :: 0 <= i < |lib| ==> WellFormed(lib[i].1)
  }

  /** The score of library entry `i`. */
  function Score(boxes: seq<Coords>, ids: seq<int>, lib: Library, i: nat): nat
    requires i < |lib| && WellFormed(lib[i].1)
  {
    Count(SlotVector(boxes, ids, lib[i].1))
  }

  /** Pattern `j` is a record of the library: it scores above zero and strictly
      beats every earlier pattern. */
  predicate LibRecord(boxes: seq<Coords>, ids: seq<int>, lib: Library, j: nat)
    requires AllWellFormed(lib) && j < |lib|
  {
    Score(boxes, ids, lib, j) > 0 && forall k :: 0 <= k < j ==> Score(boxes, ids, lib, k) < Score(boxes, ids, lib, j)
  }

  /** `Chosen`, read on a library: the winner is a record of the library, no earlier
      record has every position found, and either every position of the winner is
      found or no pattern scores more; or nothing scored and the result is empty. */
  ghost predicate Selected(boxes: seq<Coords>, ids: seq<int>, lib: Library, name: string, vec: seq<bool>)
    requires AllWellFormed(lib)
  {
    || (name == "" && vec == [] && forall j :: 0 <= j < |lib| ==> Score(boxes, ids, lib, j) == 0)
    || exists w :: 0 <= w < |lib| && name == lib[w].0 && vec == SlotVector(boxes, ids, lib[w].1)
         && LibRecord(boxes, ids, lib, w)
         && (forall j :: 0 <= j < w && LibRecord(boxes, ids, lib, j) ==> !AllTrue(SlotVector(boxes, ids, lib[j].1)))
         && (AllTrue(vec) || forall j :: w < j < |lib| ==> Score(boxes, ids, lib, j) <= Score(boxes, ids, lib, w))
  }

  /** On a library whose positions all carry a class id, the selection never raises
      and its result is described by `Selected`: the first record with every
      position found, or else the first pattern with the highest score, or else
      `("", [])`. */
  lemma SelectIsEarliestBest(boxes: seq<Coords>, ids: seq<int>, lib: Library)
    requires AllWellFormed(lib)
    ensures Select(boxes, ids, lib).Ok?
    ensures Selected(boxes, ids, lib, Select(boxes, ids, lib).value.0, Select(boxes, ids, lib).value.1)
  {
    var keys, vecs := Keys(lib), Vectors(boxes, ids, lib);
    assert AllOk(vecs);
    ChooseSelects(keys, vecs, 0, "", []);
    ChosenIsSelected(boxes, ids, lib, Select(boxes, ids, lib).value.0, Select(boxes, ids, lib).value.1);
  }

  /** `Selected` pins the result down: at most one (name, vector) pair satisfies it,
      so together with `SelectIsEarliestBest` it characterises `check_boxes`. */
  lemma SelectedUnique(boxes: seq<Coords>, ids: seq<int>, lib: Library,
                       name1: string, vec1: seq<bool>, name2: string, vec2: seq<bool>)
    requires AllWellFormed(lib)
    requires Selected(boxes, ids, lib, name1, vec1) && Selected(boxes, ids, lib, name2, vec2)
    ensures name1 == name2 && vec1 == vec2
  {
    var empty1 := name1 == "" && vec1 == [] && forall j :: 0 <= j < |lib| ==> Score(boxes, ids, lib, j) == 0;
    var empty2 := name2 == "" && vec2 == [] && forall j :: 0 <= j < |lib| ==> Score(boxes, ids, lib, j) == 0;
    if !empty1 && !empty2 {
      var w1 :| 0 <= w1 < |lib| && name1 == lib[w1].0 && vec1 == SlotVector(boxes, ids, lib[w1].1)
         && LibRecord(boxes, ids, lib, w1)
         && (forall j :: 0 <= j < w1 && LibRecord(boxes, ids, lib, j) ==> !AllTrue(SlotVector(boxes, ids, lib[j].1)))
         && (AllTrue(vec1) || forall j :: w1 < j < |lib| ==> Score(boxes, ids, lib, j) <= Score(boxes, ids, lib, w1));
      var w2 :| 0 <= w2 < |lib| && name2 == lib[w2].0 && vec2 == SlotVector(boxes, ids, lib[w2].1)
         && LibRecord(boxes, ids, lib, w2)
         && (forall j :: 0 <= j < w2 && LibRecord(boxes, ids, lib, j) ==> !AllTrue(SlotVector(boxes, ids, lib[j].1)))
         && (AllTrue(vec2) || forall j :: w2 < j < |lib| ==> Score(boxes, ids, lib, j) <= Score(boxes, ids, lib, w2));
      if w1 != w2 {
        assert false;
      }
    } else if empty1 != empty2 {
      assert false;
    }
  }

  /** `Selected` is exactly the result of the selection: a pair satisfies it if
      and only if `check_boxes` returns that pair. */
  lemma SelectedIsResult(boxes: seq<Coords>, ids: seq<int>, lib: Library, name: string, vec: seq<bool>)
    requires AllWellFormed(lib)
    ensures Selected(boxes, ids, lib, name, vec) <==> Select(boxes, ids, lib) == Ok((name, vec))
  {
    SelectIsEarliestBest(boxes, ids, lib);
    if Selected(boxes, ids, lib, name, vec) {
      SelectedUnique(boxes, ids, lib, name, vec, Select(boxes, ids, lib).value.0, Select(boxes, ids, lib).value.1);
    }
  }

  /** Evaluating a well-formed library yields each pattern's slot vector. */
  lemma VectorsOfWellFormed(boxes: seq<Coords>, ids: seq<int>, lib: Library)
    requires AllWellFormed(lib)
    ensures AllOk(Vectors(boxes, ids, lib))
    ensures forall j :: 0 <= j < |lib| ==> Vectors(boxes, ids, lib)[j].value == SlotVector(boxes, ids, lib[j].1)
    ensures forall j :: 0 <= j < |lib| ==> ScoreAt(Vectors(boxes, ids, lib), j) == Score(boxes, ids, lib, j)
  {
  }

  /** Records of the evaluated vectors are the records of the library. */
  lemma RecordsAgree(boxes: seq<Coords>, ids: seq<int>, lib: Library, j: nat)
    requires AllWellFormed(lib) && j < |lib|
    ensures AllOk(Vectors(boxes, ids, lib))
    ensures IsRecord(Vectors(boxes, ids, lib), j) <==> LibRecord(boxes, ids, lib, j)
  {
    var vecs := Vectors(boxes, ids, lib);
    VectorsOfWellFormed(boxes, ids, lib);
    assert forall k :: 0 <= k <= j ==> ScoreAt(vecs, k) == Score(boxes, ids, lib, k);
  }

  lemma ChosenIsSelected(boxes: seq<Coords>, ids: seq<int>, lib: Library, name: string, vec: seq<bool>)
    requires AllWellFormed(lib)
    requires AllOk(Vectors(boxes, ids, lib))
    requires Chosen(Keys(lib), Vectors(boxes, ids, lib), name, vec)
    ensures Selected(boxes, ids, lib, name, vec)
  {
    var keys, vecs := Keys(lib), Vectors(boxes, ids, lib);
    VectorsOfWellFormed(boxes, ids, lib);
    if !(name == "" && vec == [] && forall j :: 0 <= j < |vecs| ==> ScoreAt(vecs, j) == 0) {
      var w :| 0 <= w < |vecs| && name == keys[w] && vec == vecs[w].value
         && IsRecord(vecs, w) && NoEarlyStop(vecs, w)
         && (AllTrue(vec) || forall j :: w < j < |vecs| ==> ScoreAt(vecs, j) <= ScoreAt(vecs, w));
      assert name == lib[w].0 && vec == SlotVector(boxes, ids, lib[w].1);
      assert Score(boxes, ids, lib, w) == ScoreAt(vecs, w);
      RecordsAgree(boxes, ids, lib, w);
      forall j | 0 <= j < w && LibRecord(boxes, ids, lib, j)
        ensures !AllTrue(SlotVector(boxes, ids, lib[j].1))
      {
        RecordsAgree(boxes, ids, lib, j);
      }
      if !AllTrue(vec) {
        forall j | w < j < |lib|
          ensures Score(boxes, ids, lib, j) <= Score(boxes, ids, lib, w)
        {
          assert Score(boxes, ids, lib, j) == ScoreAt(vecs, j);
        }
      }
      SelectedWitness(boxes, ids, lib, name, vec, w);
    }
  }

  lemma SelectedWitness(boxes: seq<Coords>, ids: seq<int>, lib: Library, name: string, vec: seq<bool>, w: nat)
    requires AllWellFormed(lib) && w < |lib|
    requires name == lib[w].0 && vec == SlotVector(boxes, ids, lib[w].1)
    requires LibRecord(boxes, ids, lib, w)
    requires forall j :: 0 <= j < w && LibRecord(boxes, ids, lib, j) ==> !AllTrue(SlotVector(boxes, ids, lib[j].1))
    requires AllTrue(vec) || forall j :: w < j < |lib| ==> Score(boxes, ids, lib, j) <= Score(boxes, ids, lib, w)
    ensures Selected(boxes, ids, lib, name, vec)
  {
  }

  /** The result is `("", [])` exactly when no pattern scores above zero (in
      particular for an empty library); otherwise the name is a key of the library
      and the vector has one entry per position of that pattern. */
  lemma SelectResultShape(boxes: seq<Coords>, ids: seq<int>, lib: Library)
    requires AllWellFormed(lib)
    ensures Select(boxes, ids, lib).Ok?
    ensures var (name, vec) := Select(boxes, ids, lib).value;
      && (vec == [] <==> forall j :: 0 <= j < |lib| ==> Score(boxes, ids, lib, j) == 0)
      && (vec == [] ==> name == "")
      && (vec != [] ==> exists w :: 0 <= w < |lib| && lib[w].0 == name && vec == SlotVector(boxes, ids, lib[w].1))
  {
    SelectIsEarliestBest(boxes, ids, lib);
    var (name, vec) := Select(boxes, ids, lib).value;
    if !(name == "" && vec == [] && forall j :: 0 <= j < |lib| ==> Score(boxes, ids, lib, j) == 0) {
      var w :| 0 <= w < |lib| && name == lib[w].0 && vec == SlotVector(boxes, ids, lib[w].1) &&
        Score(boxes, ids, lib, w) > 0;
      CountBounds(vec);
    }
  }

  /** The early exit on a library: the first record with every position found is
      the result, and the patterns after it are never evaluated (they may even
      lack class ids, which would raise). */
  lemma SelectStopsAtAllTrue(boxes: seq<Coords>, ids: seq<int>, lib: Library, w: nat)
    requires w < |lib|
    requires forall j :: 0 <= j <= w ==> WellFormed(lib[j].1)
    requires AllTrue(SlotVector(boxes, ids, lib[w].1)) && Score(boxes, ids, lib, w) > 0
    requires forall j :: 0 <= j < w ==> Score(boxes, ids, lib, j) < Score(boxes, ids, lib, w)
    requires forall j :: 0 <= j < w && AllTrue(SlotVector(boxes, ids, lib[j].1)) ==>
      Score(boxes, ids, lib, j) == 0 || exists k :: 0 <= k < j && Score(boxes, ids, lib, j) <= Score(boxes, ids, lib, k)
    ensures Select(boxes, ids, lib) == Ok((lib[w].0, SlotVector(boxes, ids, lib[w].1)))
  {
    var keys, vecs := Keys(lib), Vectors(boxes, ids, lib);
    assert forall j :: 0 <= j <= w ==> vecs[j] == Ok(SlotVector(boxes, ids, lib[j].1));
    assert forall j :: 0 <= j <= w ==> ScoreAt(vecs, j) == Score(boxes, ids, lib, j);
    forall j | 0 <= j < w && AllTrue(vecs[j].value)
      ensures ScoreAt(vecs, j) <= Count([]) || exists k :: 0 <= k < j && ScoreAt(vecs, j) <= ScoreAt(vecs, k)
    {
      if Score(boxes, ids, lib, j) != 0 {
        var k :| 0 <= k < j && Score(boxes, ids, lib, j) <= Score(boxes, ids, lib, k);
        assert ScoreAt(vecs, j) <= ScoreAt(vecs, k);
      }
    }
    ChooseStopsAtAllTrue(keys, vecs, 0, "", [], w);
  }

  /** The scan stops at the first record with every position found, even when a
      later pattern scores more: with patterns scoring 2 of 3, 1 of 1, 3 of 3 and
      4 of 4, the third is the result and the fourth is never looked at. */
  lemma StopsBeforeHigherScore(keys: seq<string>)
    requires |keys| == 4
    ensures Choose(keys, [Ok([true, true, false]), Ok([true]), Ok([true, true, true]), Ok([true, true, true, true])],
                   0, "", []) == Ok((keys[2], [true, true, true]))
  {
    var vecs := [Ok([true, true, false]), Ok([true]), Ok([true, true, true]), Ok([true, true, true, true])];
    assert Count([true, true, false]) == 2 && !AllTrue([true, true, false]) by {
      assert !([true, true, false][2]);
    }
    assert Count([true]) == 1 && Count([true, true, true]) == 3;
    assert AllTrue([true, true, true]);
  }

  /** An additional detection can only turn positions from not found to found, so
      no pattern's score decreases (after normalisation). */
  lemma AddedDetectionKeepsScore(boxes: seq<Coords>, ids: seq<int>, b: Coords, c: int, p: Pattern)
    requires |boxes| == |ids| && WellFormed(p)
    ensures forall k :: 0 <= k < |p.positions| ==>
      SlotVector(boxes, ids, p)[k] ==> SlotVector(boxes + [b], ids + [c], p)[k]
    ensures Count(SlotVector(boxes, ids, p)) <= Count(SlotVector(boxes + [b], ids + [c], p))
  {
    var u := SlotVector(boxes, ids, p);
    var v := SlotVector(boxes + [b], ids + [c], p);
    forall k | 0 <= k < |p.positions| && u[k]
      ensures v[k]
    {
      var pos := p.positions[k];
      var j :| 0 <= j < Min(|boxes|, |ids|) && BoxMatches(ids[j], boxes[j], pos[0], Desired(pos), p.tolerance);
      assert (boxes + [b])[j] == boxes[j] && (ids + [c])[j] == ids[j];
    }
    CountMonotone(u, v);
  }

  /** Matching is greedy and not one-to-one: a single detection lying exactly on a
      desired box satisfies every position that asks for that box and class. */
  lemma OneDetectionManySlots(box: Coords, c: int, p: Pattern)
    requires |box| == 4 && |p.tolerance| == 4
    requires forall i :: 0 <= i < 4 ==> p.tolerance[i] > 0.0
    requires forall k :: 0 <= k < |p.positions| ==> p.positions[k] == [c as real] + box
    ensures WellFormed(p)
    ensures AllTrue(SlotVector([box], [c], p))
  {
    forall k | 0 <= k < |p.positions|
      ensures SlotFound([box], [c], p.positions[k], p.tolerance)
    {
      assert |p.positions[k]| == 5 && p.positions[k][1..] == box;
      assert Desired(p.positions[k]) == box;
      assert BoxMatches([c][0], [box][0], p.positions[k][0], Desired(p.positions[k]), p.tolerance);
    }
  }

  /** The heuristic is all or nothing: when some box is an ascending corner pair
      every box is converted to centre-size form, otherwise none is. */
  lemma NormalizeAllOrNothing(boxes: seq<Coords>)
    requires forall j :: 0 <= j < |boxes| ==> |boxes[j]| >= 4
    ensures (exists j :: 0 <= j < |boxes| && Ascending(boxes[j])) ==>
      Normalize(boxes).Ok? == AllQuads(boxes) &&
      (AllQuads(boxes) ==> forall j :: 0 <= j < |boxes| ==> Normalize(boxes).value[j] == CenterSize(boxes[j]))
    ensures !(exists j :: 0 <= j < |boxes| && Ascending(boxes[j])) ==> Normalize(boxes) == Ok(boxes)
  {
    XyxyIffSomeAscending(boxes);
  }

  // ---------------------------------------------------------------------------
  // get_patterns_from_config

  /** Every loaded pattern file, by file stem, in load order. */
  type PatternFiles = seq<(string, Library)>

  /** `get_patterns_from_config` with the result of `load_patterns` as a
      parameter: without a `PATTERN_FILE` entry nothing is loaded and the default
      key is ""; a falsy (or absent) `PATTERN_DEFAULT` becomes the first loaded
      key when there is one and stays as it is otherwise; a default that names no
      loaded file raises, with TypeError when it is a list or a table. */
  function GetPatternsFromConfig(config: map<string, Value>, loaded: Result<PatternFiles>)
    : (r: Result<(PatternFiles, Value)>)
    ensures "PATTERN_FILE" !in config ==> r == Ok(([], PyStr("")))
    ensures "PATTERN_FILE" in config && r.Ok? ==> loaded.Ok? && r.value.0 == loaded.value
    ensures r.Ok? && r.value.0 != [] ==> r.value.1.PyStr? && r.value.1.s in Keys(r.value.0)
    ensures r.Ok? && r.value.0 == [] && "PATTERN_FILE" in config ==>
      r.value.1 == if "PATTERN_DEFAULT" in config then config["PATTERN_DEFAULT"] else PyNone
    ensures "PATTERN_FILE" in config && loaded.Ok? && "PATTERN_DEFAULT" in config ==>
      var d := config["PATTERN_DEFAULT"];
      && (!Falsy(d) && Unhashable(d) ==> r == Err(TypeError))
      && (!Falsy(d) && !Unhashable(d) && !(d.PyStr? && d.s in Keys(loaded.value)) ==>
            r == Err(Raised("Default pattern not found")))
  {
    if "PATTERN_FILE" !in config then Ok(([], PyStr("")))
    else if loaded.Err? then Err(loaded.error)
    else
      var patterns := loaded.value;
      var defaultPatternKey := if "PATTERN_DEFAULT" in config then config["PATTERN_DEFAULT"] else PyNone;
      if Falsy(defaultPatternKey) then
        if |patterns| > 0 then Ok((patterns, PyStr(Keys(patterns)[0])))
        else Ok((patterns, defaultPatternKey))
      else if Unhashable(defaultPatternKey) then Err(TypeError)
      else if !(defaultPatternKey.PyStr? && defaultPatternKey.s in Keys(patterns)) then
        Err(Raised("Default pattern not found"))
      else Ok((patterns, defaultPatternKey))
  }

  /** The three outcomes with some files loaded: no default picks the first
      file, a loaded default is kept, and any other default raises. */
  lemma GetPatternsFromConfigCases(config: map<string, Value>, patterns: PatternFiles)
    requires "PATTERN_FILE" in config && patterns != []
    ensures ("PATTERN_DEFAULT" !in config || Falsy(config["PATTERN_DEFAULT"])) ==>
      GetPatternsFromConfig(config, Ok(patterns)) == Ok((patterns, PyStr(patterns[0].0)))
    ensures ("PATTERN_DEFAULT" in config && config["PATTERN_DEFAULT"].PyStr? &&
      config["PATTERN_DEFAULT"].s in Keys(patterns) && config["PATTERN_DEFAULT"].s != "") ==>
      GetPatternsFromConfig(config, Ok(patterns)) == Ok((patterns, config["PATTERN_DEFAULT"]))
    ensures ("PATTERN_DEFAULT" in config && !Falsy(config["PATTERN_DEFAULT"]) &&
      !(config["PATTERN_DEFAULT"].PyStr? && config["PATTERN_DEFAULT"].s in Keys(patterns))) ==>
      GetPatternsFromConfig(config, Ok(patterns)).Err?
  {
  }
}
