/** The bookkeeping of the frontend's box plotting: colour parsing, the line
    thickness and font size derived from the image size, and the class colour
    map that drawing fills in. The drawing itself is not modelled; random
    colours are supplied by the caller. */
module PlotPil {
  import opened Values

  /** A colour channel `np.random.randint(0, 255)` can produce. */
  predicate RandomChannel(x: int) { 0 <= x < 255 }

  /** Three random channels. */
  predicate RandomColor(c: seq<int>) {
    |c| == 3 && forall i :: 0 <= i < 3 ==> RandomChannel(c[i])
  }

  function HexDigit(c: char): Option<nat> {
    if '0' <= c <= '9' then Some(c as int - '0' as int)
    else if 'a' <= c <= 'f' then Some(c as int - 'a' as int + 10)
    else if 'A' <= c <= 'F' then Some(c as int - 'A' as int + 10)
    else None
  }

  predicate IsSpace(c: char) {
    c == ' ' || c == '\t' || c == '\n' || c == '\r' || c == '\U{000B}' || c == '\U{000C}'
  }

  /** Python's `int(s, 16)` on a two-character string: two hex digits, or one
      digit with a sign before it or white space on either side; anything else
      is a ValueError. */
  function IntBase16Pair(a: char, b: char): (r: Result<int>)
    ensures r.Ok? ==> -15 <= r.value <= 255
    ensures HexDigit(a).Some? && HexDigit(b).Some? ==> r == Ok(16 * HexDigit(a).value + HexDigit(b).value)
  {
    if HexDigit(a).Some? && HexDigit(b).Some? then Ok(16 * HexDigit(a).value + HexDigit(b).value)
    else if a == '+' && HexDigit(b).Some? then Ok(HexDigit(b).value)
    else if a == '-' && HexDigit(b).Some? then Ok(-(HexDigit(b).value as int))
    else if IsSpace(a) && HexDigit(b).Some? then Ok(HexDigit(b).value)
    else if HexDigit(a).Some? && IsSpace(b) then Ok(HexDigit(a).value)
    else Err(ValueError("invalid literal for int() with base 16"))
  }

  /** A number the range test `0 <= el <= 255` can compare. */
  predicate Numeric(v: Value) { v.PyInt? || v.PyFloat? || v.PyBool? }

  function NumValue(v: Value): real
    requires Numeric(v)
  {
    match v
    case PyInt(i) => i as real
    case PyFloat(r) => r
    case PyBool(b) => if b then 1.0 else 0.0
  }

  /** `int(el)` for a number in [0, 255]: truncation, which is the floor there. */
  function ToInt(v: Value): int
    requires Numeric(v) && NumValue(v) >= 0.0
  {
    NumValue(v).Floor
  }

  predicate InByteRange(items: seq<Value>)
    requires forall i :: 0 <= i < |items| ==> Numeric(items[i])
  {
    forall i :: 0 <= i < |items| ==> 0.0 <= NumValue(items[i]) <= 255.0
  }

  /** `color2rgb` as written: a seven-character string starting with '#' is read
      as three base-16 pairs; a three-element sequence of numbers in [0, 255]
      becomes their ints (a non-number in it cannot be compared, TypeError);
      everything else is a random colour, here `rnd`. */
  function ColorToRgb(color: Value, rnd: seq<int>): (r: Result<seq<int>>)
    requires RandomColor(rnd)
    ensures r.Ok? ==> |r.value| == 3 && forall i :: 0 <= i < 3 ==> -15 <= r.value[i] <= 255
    ensures r.Err? ==> (color.PyStr? && r.error.ValueError?) || (color.PyList? && r.error == TypeError)
    ensures color.PyStr? && !(|color.s| == 7 && color.s[0] == '#') ==> r == Ok(rnd)
  {
    match color
    case PyStr(s) =>
      if |s| == 7 && s[0] == '#' then
        var r, g, b := IntBase16Pair(s[1], s[2]), IntBase16Pair(s[3], s[4]), IntBase16Pair(s[5], s[6]);
        if r.Err? then Err(r.error) else if g.Err? then Err(g.error) else if b.Err? then Err(b.error)
        else Ok([r.value, g.value, b.value])
      else Ok(rnd)
    case _ => NonStringColor(color, rnd)
  }

  /** The branches of `color2rgb` for anything but a string. */
  function NonStringColor(color: Value, rnd: seq<int>): (r: Result<seq<int>>)
    requires RandomColor(rnd) && !color.PyStr?
    ensures r.Ok? ==> |r.value| == 3 && forall i :: 0 <= i < 3 ==> 0 <= r.value[i] <= 255
    ensures r.Err? ==> color.PyList? && r.error == TypeError
    ensures color.PyList? && |color.items| == 3 && (forall i :: 0 <= i < 3 ==> Numeric(color.items[i]))
              && InByteRange(color.items) ==>
              r == Ok([ToInt(color.items[0]), ToInt(color.items[1]), ToInt(color.items[2])])
    ensures color.PyList? && |color.items| == 3 && !(forall i :: 0 <= i < 3 ==> Numeric(color.items[i])) ==>
              r == Err(TypeError)
    ensures || !color.PyList? || |color.items| != 3
            || ((forall i :: 0 <= i < 3 ==> Numeric(color.items[i])) && !InByteRange(color.items))
            ==> r == Ok(rnd)
  {
    match color
    case PyList(items) =>
      if |items| == 3 then
        if !(forall i :: 0 <= i < 3 ==> Numeric(items[i])) then Err(TypeError)
        else if InByteRange(items) then Ok([ToInt(items[0]), ToInt(items[1]), ToInt(items[2])])
        else Ok(rnd)
      else Ok(rnd)
    case _ => Ok(rnd)
  }

  /** The lower-case hex digit of a value below 16. */
  function HexChar(k: nat): char
    requires k < 16
  {
    if k < 10 then ('0' as int + k) as char else ('a' as int + k - 10) as char
  }

  /** Two lower-case hex digits of a channel value. */
  function Hex2(x: nat): string
    requires x < 256
  {
    [HexChar(x / 16), HexChar(x % 16)]
  }

  lemma Hex2Parses(x: nat)
    requires x < 256
    ensures IntBase16Pair(Hex2(x)[0], Hex2(x)[1]) == Ok(x)
  {
    assert HexDigit(HexChar(x / 16)) == Some(x / 16);
    assert HexDigit(HexChar(x % 16)) == Some(x % 16);
  }

  /** A colour written as "#rrggbb" parses back to its channels. */
  lemma HexColorRoundTrip(r: nat, g: nat, b: nat, rnd: seq<int>)
    requires r < 256 && g < 256 && b < 256 && RandomColor(rnd)
    ensures ColorToRgb(PyStr("#" + Hex2(r) + Hex2(g) + Hex2(b)), rnd) == Ok([r, g, b])
  {
    var s := "#" + Hex2(r) + Hex2(g) + Hex2(b);
    Hex2Parses(r);
    Hex2Parses(g);
    Hex2Parses(b);
    assert s[1] == Hex2(r)[0] && s[2] == Hex2(r)[1];
    assert s[3] == Hex2(g)[0] && s[4] == Hex2(g)[1];
    assert s[5] == Hex2(b)[0] && s[6] == Hex2(b)[1];
  }

  /** A channel triple of whole numbers in range comes back unchanged. */
  lemma TupleColorKept(c: seq<int>, rnd: seq<int>)
    requires |c| == 3 && forall i :: 0 <= i < 3 ==> 0 <= c[i] <= 255
    requires RandomColor(rnd)
    ensures ColorToRgb(PyList([PyInt(c[0]), PyInt(c[1]), PyInt(c[2])]), rnd) == Ok(c)
  {
    var items := [PyInt(c[0]), PyInt(c[1]), PyInt(c[2])];
    assert forall i :: 0 <= i < 3 ==> Numeric(items[i]) && NumValue(items[i]) == c[i] as real;
    assert InByteRange(items);
    assert forall i :: 0 <= i < 3 ==> ToInt(items[i]) == c[i];
    assert NonStringColor(PyList(items), rnd) == Ok([ToInt(items[0]), ToInt(items[1]), ToInt(items[2])]);
    assert [c[0], c[1], c[2]] == c;
  }

  /** Any other input draws a colour in [0, 255). */
  lemma OtherInputIsRandom(color: Value, rnd: seq<int>)
    requires RandomColor(rnd)
    requires !color.PyStr? && !color.PyList?
    ensures ColorToRgb(color, rnd) == Ok(rnd)
  {
  }

  /** The sign accepted by `int(_, 16)` lets a string that is no colour code
      through with negative channels. */
  lemma ColorToRgbNegativeChannels(rnd: seq<int>)
    requires RandomColor(rnd)
    ensures ColorToRgb(PyStr("#-f-f-f"), rnd) == Ok([-15, -15, -15])
  {
    assert HexDigit('f') == Some(15);
  }

  /** A hex colour code read strictly: every one of the six characters must be a
      hex digit, otherwise ValueError. */
  function ColorToRgbCorrected(color: Value, rnd: seq<int>): (r: Result<seq<int>>)
    requires RandomColor(rnd)
    ensures r.Ok? ==> |r.value| == 3 && forall i :: 0 <= i < 3 ==> 0 <= r.value[i] <= 255
  {
    match color
    case PyStr(s) =>
      if |s| == 7 && s[0] == '#' then
        if forall i :: 1 <= i < 7 ==> HexDigit(s[i]).Some? then
          Ok([16 * HexDigit(s[1]).value + HexDigit(s[2]).value,
              16 * HexDigit(s[3]).value + HexDigit(s[4]).value,
              16 * HexDigit(s[5]).value + HexDigit(s[6]).value])
        else Err(ValueError("invalid literal for int() with base 16"))
      else Ok(rnd)
    case _ => NonStringColor(color, rnd)
  }

  /** The strict reading agrees with the code on every real colour code and
      rejects "#-f-f-f". */
  lemma ColorToRgbCorrectedAgrees(s: string, rnd: seq<int>)
    requires RandomColor(rnd) && |s| == 7 && s[0] == '#'
    requires forall i :: 1 <= i < 7 ==> HexDigit(s[i]).Some?
    ensures ColorToRgbCorrected(PyStr(s), rnd) == ColorToRgb(PyStr(s), rnd)
    ensures ColorToRgbCorrected(PyStr("#-f-f-f"), rnd).Err?
  {
    assert HexDigit("#-f-f-f"[1]).None?;
  }

  // ---------------------------------------------------------------------------
  // plot_bboxs: sizes and the colour map

  /** `round()` on a real: to the nearest integer, a tie to the even one. */
  function RoundHalfEven(x: real): (r: int)
    ensures -0.5 <= (r as real) - x <= 0.5
    ensures (r as real) - x == 0.5 || x - (r as real) == 0.5 ==> r % 2 == 0
  {
    var f := x.Floor;
    var d := x - f as real;
    if d < 0.5 then f
    else if d > 0.5 then f + 1
    else if f % 2 == 0 then f else f + 1
  }

  /** The line thickness: the given one, or one 150th of the shorter image side
      when none is given, but never below 3. */
  function LineThickness(given: Option<int>, width: nat, height: nat): (r: int)
    ensures r >= 3
    ensures given.Some? && given.value >= 3 ==> r == given.value
    ensures given.Some? && given.value < 3 ==> r == 3
    ensures given.None? ==> r == if Min(width, height) / 150 >= 3 then Min(width, height) / 150 else 3
  {
    var t := if given.None? then Min(width, height) / 150 else given.value;
    if t >= 3 then t else 3
  }

  /** The font size: one 40th of the longer image side, rounded, never below 12.
      Up to 12.5 that is 12; above it, the nearest integer, a tie to the even one,
      which fixes the result uniquely. */
  function FontSize(width: nat, height: nat): (r: int)
    ensures r >= 12
    ensures (Max(width, height) as real) / 40.0 <= 12.5 ==> r == 12
    ensures (Max(width, height) as real) / 40.0 > 12.5 ==>
              && -0.5 <= (r as real) - (Max(width, height) as real) / 40.0 <= 0.5
              && (Abs((r as real) - (Max(width, height) as real) / 40.0) == 0.5 ==> r % 2 == 0)
  {
    var f := RoundHalfEven((Max(width, height) as real) / 40.0);
    if f >= 12 then f else 12
  }

  function Max(a: int, b: int): int { if a >= b then a else b }

  /** A longer side halfway between two multiples of 40 rounds to the even
      quotient: 40k + 20 pixels give k when k is even and k + 1 when it is odd. */
  lemma FontSizeTies(k: nat, other: nat)
    requires k >= 12 && other <= 40 * k + 20
    ensures FontSize(40 * k + 20, other) == if k % 2 == 0 then k else k + 1
  {
    assert Max(40 * k + 20, other) == 40 * k + 20;
    assert ((40 * k + 20) as real) / 40.0 == (k as real) + 0.5;
  }

  /** Ties in the font size round to even: a 500-pixel side gives 12, not 13. */
  lemma FontSizeExamples()
    ensures FontSize(500, 300) == 12
    ensures FontSize(540, 100) == 14
    ensures FontSize(2000, 1000) == 50
  {
    assert (500 as real) / 40.0 == 12.5;
    assert (540 as real) / 40.0 == 13.5;
    assert (2000 as real) / 40.0 == 50.0;
  }

  /** A random colour stored in the map, as the ndarray `randint` returns. */
  function RgbValue(c: seq<int>): Value
    requires |c| == 3
  {
    PyList([PyInt(c[0]), PyInt(c[1]), PyInt(c[2])])
  }

  /** The colour map after the first `n` detections: a class without a colour
      gets the random colour drawn at its first detection. */
  function ColorsAfter(colors: map<int, Value>, classes: seq<int>, palette: seq<seq<int>>, n: nat): map<int, Value>
    requires n <= |classes| && n <= |palette|
    requires forall i :: 0 <= i < n ==> RandomColor(palette[i])
  {
    if n == 0 then colors
    else
      var m := ColorsAfter(colors, classes, palette, n - 1);
      if classes[n - 1] in m then m
      else assert RandomColor(palette[n - 1]); m[classes[n - 1] := RgbValue(palette[n - 1])]
  }

  /** A class-to-colour dictionary shared with the caller. */
  class ColorMap {
    var colors: map<int, Value>

    constructor ()
      ensures colors == map[]
    {
      colors := map[];
    }
  }

  /** The number of detections `zip(bbox, scores, classes)` visits. */
  function Drawn(nBoxes: nat, nScores: nat, nClasses: nat): nat {
    Min(Min(nBoxes, nScores), nClasses)
  }

  /** The bookkeeping of `plot_bboxs`: the thickness and font size it draws
      with, and the colour map it fills, which is the caller's own map when one
      was passed (updated in place) and a fresh one otherwise. `palette[i]` is
      the random colour drawn if detection `i` needs one. */
  method PlotBoxes(width: nat, height: nat, nBoxes: nat, scores: seq<real>, classes: seq<int>,
                   lineThickness: Option<int>, colorMap: ColorMap?, palette: seq<seq<int>>)
    returns (thickness: int, fontsize: int, cm: ColorMap)
    requires Drawn(nBoxes, |scores|, |classes|) <= |palette|
    requires forall i :: 0 <= i < |palette| ==> RandomColor(palette[i])
    modifies colorMap
    ensures thickness == LineThickness(lineThickness, width, height)
    ensures fontsize == FontSize(width, height)
    ensures colorMap != null ==> cm == colorMap
    ensures colorMap == null ==> fresh(cm)
    ensures cm.colors == ColorsAfter(if colorMap == null then map[] else old(colorMap.colors),
                                     classes, palette, Drawn(nBoxes, |scores|, |classes|))
  {
    thickness := if lineThickness.None? then Min(width, height) / 150 else lineThickness.value;
    thickness := if thickness >= 3 then thickness else 3;
    var f := RoundHalfEven((Max(width, height) as real) / 40.0);
    fontsize := if f >= 12 then f else 12;
    if colorMap == null {
      cm := new ColorMap();
    } else {
      cm := colorMap;
    }
    ghost var start := cm.colors;
    var n := Drawn(nBoxes, |scores|, |classes|);
    var i := 0;
    while i < n
      invariant 0 <= i <= n
      invariant cm.colors == ColorsAfter(start, classes, palette, i)
      modifies cm
    {
      var cls := classes[i];
      if cls !in cm.colors {
        cm.colors := cm.colors[cls := RgbValue(palette[i])];
      }
      i := i + 1;
    }
  }

  /** The names the loop leaves in the colour map: every drawn class is in it,
      and colours that were there stay as they were. */
  lemma {:induction false} ColorsAfterKept(colors: map<int, Value>, classes: seq<int>, palette: seq<seq<int>>, n: nat)
    requires n <= |classes| && n <= |palette|
    requires forall i :: 0 <= i < n ==> RandomColor(palette[i])
    ensures ColorsAfter(colors, classes, palette, n).Keys == colors.Keys + set i | 0 <= i < n :: classes[i]
    ensures forall c :: c in colors ==> ColorsAfter(colors, classes, palette, n)[c] == colors[c]
  {
    if n > 0 {
      ColorsAfterKept(colors, classes, palette, n - 1);
      assert (set i | 0 <= i < n :: classes[i]) == (set i | 0 <= i < n - 1 :: classes[i]) + {classes[n - 1]};
    }
  }

  /** A class the map lacked gets the random colour drawn at its first detection. */
  lemma {:induction false} ColorsAfterFirst(colors: map<int, Value>, classes: seq<int>, palette: seq<seq<int>>, n: nat)
    requires n <= |classes| && n <= |palette|
    requires forall i :: 0 <= i < n ==> RandomColor(palette[i])
    ensures forall c :: c in ColorsAfter(colors, classes, palette, n) && c !in colors ==>
      exists i ::
        && 0 <= i < n && classes[i] == c
        && (forall j :: 0 <= j < i ==> classes[j] != c)
        && ColorsAfter(colors, classes, palette, n)[c] == RgbValue(palette[i])
  {
    if n > 0 {
      ColorsAfterFirst(colors, classes, palette, n - 1);
      ColorsAfterKept(colors, classes, palette, n - 1);
      var m, c := ColorsAfter(colors, classes, palette, n - 1), classes[n - 1];
      var after := ColorsAfter(colors, classes, palette, n);
      forall d | d in after && d !in colors
        ensures exists i ::
          && 0 <= i < n && classes[i] == d
          && (forall j :: 0 <= j < i ==> classes[j] != d)
          && after[d] == RgbValue(palette[i])
      {
        if d in m {
          var i :| && 0 <= i < n - 1 && classes[i] == d
                   && (forall j :: 0 <= j < i ==> classes[j] != d)
                   && m[d] == RgbValue(palette[i]);
          assert after[d] == m[d];
        } else {
          assert d == c && after[d] == RgbValue(palette[n - 1]);
          forall j | 0 <= j < n - 1 ensures classes[j] != d {
            assert classes[j] in (set i | 0 <= i < n - 1 :: classes[i]);
          }
        }
      }
    }
  }

  /** What the loop leaves in the colour map: every drawn class has a colour,
      colours that were there stay as they were, and the classes that had none
      get the random colour drawn at their first detection. */
  lemma ColorsAfterMeaning(colors: map<int, Value>, classes: seq<int>, palette: seq<seq<int>>, n: nat)
    requires n <= |classes| && n <= |palette|
    requires forall i :: 0 <= i < n ==> RandomColor(palette[i])
    ensures ColorsAfter(colors, classes, palette, n).Keys == colors.Keys + set i | 0 <= i < n :: classes[i]
    ensures forall c :: c in colors ==> ColorsAfter(colors, classes, palette, n)[c] == colors[c]
    ensures forall c :: c in ColorsAfter(colors, classes, palette, n) && c !in colors ==>
      exists i ::
        && 0 <= i < n && classes[i] == c
        && (forall j :: 0 <= j < i ==> classes[j] != c)
        && ColorsAfter(colors, classes, palette, n)[c] == RgbValue(palette[i])
  {
    ColorsAfterKept(colors, classes, palette, n);
    ColorsAfterFirst(colors, classes, palette, n);
  }

  /** A colour the map hands to the drawing is drawn exactly as stored. */
  lemma StoredColorDrawsAsIs(c: seq<int>, rnd: seq<int>)
    requires RandomColor(c) && RandomColor(rnd)
    ensures ColorToRgb(RgbValue(c), rnd) == Ok(c)
  {
    TupleColorKept(c, rnd);
  }
}
