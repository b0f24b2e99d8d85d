/** The arithmetic and naming of one profile frame piece (`ProfileFrameObject.py`):
    the rounding to five places, the chamfer width and extension, the cutting
    triangle, the pad length, the reported length, the `EdgeName` parse, the
    feature names, and the memo that decides when a chamfer's cutting sketch is
    redrawn. Everything here is a value; the imperative shell in `ProfileFrame`
    applies these to the document. */
module FrameGeometry {
  import opened Wrappers
  import opened Text
  import opened Doc

  // ---------------------------------------------------------------------------
  // round(x, 5)

  const Scale: real := 100000.0

  function Abs(x: real): (r: real)
    ensures r >= 0.0 && (r == x || r == -x)
  {
    if x < 0.0 then -x else x
  }

  /** Python's `round(x, 5)` on an exact real: the nearest multiple of 0.00001, a
      tie going to the even multiple. */
  function Round5(x: real): real {
    var y := x * Scale;
    var f := y.Floor;
    var frac := y - f as real;
    var n := if frac > 0.5 then f + 1 else if frac < 0.5 then f else if f % 2 == 0 then f else f + 1;
    n as real / Scale
  }

  /** Rounding moves a value by at most half a unit of the fifth place. */
  lemma Round5Error(x: real)
    ensures -0.000005 <= Round5(x) - x <= 0.000005
  {
    var y := x * Scale;
    var f := y.Floor;
    assert f as real <= y < f as real + 1.0;
  }

  /** A non-negative value rounds to a non-negative value. */
  lemma Round5NonNegative(x: real)
    requires x >= 0.0
    ensures Round5(x) >= 0.0
  {
    var y := x * Scale;
    assert y >= 0.0;
    assert y.Floor >= 0;
  }

  /** A value already on five places is left as it is. */
  lemma Round5Exact(k: int)
    ensures Round5(k as real / Scale) == k as real / Scale
  {
    var y := (k as real / Scale) * Scale;
    assert y == k as real;
    assert y.Floor == k;
  }

  /** Rounding twice is rounding once. */
  lemma Round5Idempotent(x: real)
    ensures Round5(Round5(x)) == Round5(x)
  {
    var y := x * Scale;
    var f := y.Floor;
    var frac := y - f as real;
    var n := if frac > 0.5 then f + 1 else if frac < 0.5 then f else if f % 2 == 0 then f else f + 1;
    assert Round5(x) == n as real / Scale;
    Round5Exact(n);
  }

  // ---------------------------------------------------------------------------
  // Chamfer width and extension (create_chamfer)

  /** The width of the profile across the chamfer: the X extent of the sketch's bound
      box for directions 1 and 3, the Y extent for every other direction code,
      made non-negative and rounded to five places. */
  function ChamferWidth(bbox: BoundBox, direction: int): (w: real)
    ensures w >= 0.0
  {
    var extent := if direction == 1 || direction == 3 then bbox.xMax - bbox.xMin else bbox.yMax - bbox.yMin;
    Round5NonNegative(Abs(extent));
    Round5(Abs(extent))
  }

  /** The width is the extent along the axis the direction selects, up to rounding. */
  lemma ChamferWidthExtent(bbox: BoundBox, direction: int)
    ensures var extent := Abs(if direction in {1, 3} then bbox.xMax - bbox.xMin else bbox.yMax - bbox.yMin);
      -0.000005 <= ChamferWidth(bbox, direction) - extent <= 0.000005
  {
    Round5Error(Abs(if direction == 1 || direction == 3 then bbox.xMax - bbox.xMin else bbox.yMax - bbox.yMin));
  }

  /** How far a chamfered end is extended: `round(|tan(angle) * width / 2|, 5)`.
      `tanDeg` is the tangent of an angle in degrees (`math.tan(math.radians(a))`). */
  function ExtendedLength(tanDeg: real -> real, angle: real, width: real): (e: real)
    ensures e >= 0.0
  {
    var x := Abs(tanDeg(angle) * width / 2.0);
    Round5NonNegative(x);
    Round5(x)
  }

  /** A chamfer of 0 degrees extends nothing. */
  lemma ExtendedLengthZeroAngle(tanDeg: real -> real, width: real)
    requires tanDeg(0.0) == 0.0
    ensures ExtendedLength(tanDeg, 0.0, width) == 0.0
  {
    Round5Exact(0);
  }

  /** The extension is half the width times the tangent, up to rounding. */
  lemma ExtendedLengthError(tanDeg: real -> real, angle: real, width: real)
    ensures -0.000005 <= ExtendedLength(tanDeg, angle, width) - Abs(tanDeg(angle) * width / 2.0) <= 0.000005
  {
    Round5Error(Abs(tanDeg(angle) * width / 2.0));
  }

  // ---------------------------------------------------------------------------
  // The cutting triangle (draw_chamfer_sketch)

  /** The three corners of the cutting triangle in the sketch plane, with
      `tx = length` and `ty = width / 2`; the right end's triangle is the left one's
      mirror image in x. */
  function Triangle(length: real, width: real, right: bool): (t: seq<Point>)
    ensures |t| == 3
  {
    var tx := length;
    var ty := width / 2.0;
    if !right then [Point(-tx, ty), Point(-tx, -ty), Point(tx, ty)]
    else [Point(tx, ty), Point(tx, -ty), Point(-tx, ty)]
  }

  /** The three line segments `draw_chamfer_sketch` adds: corner 0 to 1, 1 to 2, 2 to 0. */
  function ChamferSegments(length: real, width: real, right: bool): (s: seq<Segment>)
    ensures |s| == 3
  {
    var t := Triangle(length, width, right);
    [Segment(t[0], t[1]), Segment(t[1], t[2]), Segment(t[2], t[0])]
  }

  function Mirror(p: Point): Point {
    Point(-p.x, p.y)
  }

  /** The segments form one closed loop: each ends where the next one starts. */
  lemma ChamferSegmentsClosed(length: real, width: real, right: bool)
    ensures var s := ChamferSegments(length, width, right);
      forall i :: 0 <= i < 3 ==> s[i].end == s[(i + 1) % 3].start
  {
    var s := ChamferSegments(length, width, right);
    assert s[0].end == s[1].start && s[1].end == s[2].start && s[2].end == s[0].start;
  }

  /** The right end's triangle is the left end's, mirrored in x corner by corner. */
  lemma TriangleMirrored(length: real, width: real)
    ensures forall i :: 0 <= i < 3 ==> Triangle(length, width, true)[i] == Mirror(Triangle(length, width, false)[i])
  {
  }

  /** A right triangle: corner 0 and corner 1 differ only in y, by `width`; corner 0
      and corner 2 differ only in x, by twice `length` (with a non-negative length). */
  lemma TriangleLegs(length: real, width: real, right: bool)
    requires length >= 0.0
    ensures var t := Triangle(length, width, right);
      && t[0].x == t[1].x && t[0].y - t[1].y == width
      && t[0].y == t[2].y && Abs(t[0].x - t[2].x) == 2.0 * length
  {
  }

  // ---------------------------------------------------------------------------
  // Lengths (execute)

  /** The chamfer settings of one end of the piece. */
  datatype EndSettings = EndSettings(chamferAngle: real, chamferDirection: int, extendedLength: real)

  /** The extension an end contributes to the main pad: its `ExtendedLength` when the
      end has no chamfer (angle exactly 0), nothing otherwise. */
  function PlainExtension(e: EndSettings): real {
    if e.chamferAngle == 0.0 then e.extendedLength else 0.0
  }

  /** `pad_length`: the edge's length plus the extensions of the unchamfered ends. */
  function PadLength(edgeLength: real, left: EndSettings, right: EndSettings): real {
    edgeLength + PlainExtension(right) + PlainExtension(left)
  }

  /** `_offset_z`: the piece is shifted along the edge by the left extension when the
      left end has no chamfer. */
  function OffsetZ(left: EndSettings): real {
    PlainExtension(left)
  }

  /** The main pad, `PadLength` long and shifted by `OffsetZ`, reaches the left
      extension beyond the edge's start and the right extension beyond its end:
      along the pad it spans from `OffsetZ - PadLength` to `OffsetZ`, which is from
      `-(edge + right extension)` to `left extension`. */
  lemma PadSpansEdge(edgeLength: real, left: EndSettings, right: EndSettings)
    ensures OffsetZ(left) - PadLength(edgeLength, left, right) == -(edgeLength + PlainExtension(right))
    ensures OffsetZ(left) == PlainExtension(left)
    ensures left.extendedLength >= 0.0 && right.extendedLength >= 0.0 ==> PadLength(edgeLength, left, right) >= edgeLength
  {
  }

  /** The extension a chamfered end adds as its own pad (angle above 0), nothing
      otherwise. */
  function ChamferExtension(e: EndSettings): real {
    if e.chamferAngle > 0.0 then e.extendedLength else 0.0
  }

  /** `obj.Length` as written: the pad length plus both ends' `ExtendedLength`,
      whatever their chamfer. */
  function FrameLengthAsWritten(padLength: real, left: EndSettings, right: EndSettings): real {
    padLength + left.extendedLength + right.extendedLength
  }

  /** `obj.Length` as intended: the length of the stock the piece is cut from, the
      main pad plus the extension pads of the chamfered ends (the ends' settings
      after `execute` updated them). */
  function FrameLength(padLength: real, left: EndSettings, right: EndSettings): real {
    padLength + ChamferExtension(left) + ChamferExtension(right)
  }

  /** Every end counts once: for ends whose angles are not negative, the intended
      length is the edge plus each end's `ExtendedLength` exactly once, whether the
      end is chamfered or not. */
  lemma FrameLengthCountsEachEndOnce(edgeLength: real, left: EndSettings, right: EndSettings)
    requires left.chamferAngle >= 0.0 && right.chamferAngle >= 0.0
    ensures FrameLength(PadLength(edgeLength, left, right), left, right) == edgeLength + left.extendedLength + right.extendedLength
  {
  }

  /** As written, an unchamfered end's extension is counted twice: once in the pad
      length and once more in `Length`. */
  lemma FrameLengthAsWrittenCountsTwice(edgeLength: real, left: EndSettings, right: EndSettings)
    requires left.chamferAngle == 0.0 && right.chamferAngle == 0.0
    ensures FrameLengthAsWritten(PadLength(edgeLength, left, right), left, right) ==
      edgeLength + 2.0 * left.extendedLength + 2.0 * right.extendedLength
    ensures FrameLength(PadLength(edgeLength, left, right), left, right) ==
      edgeLength + left.extendedLength + right.extendedLength
  {
  }

  /** A 100 mm edge with 5 mm extensions at both ends and no chamfer: 110 mm of stock,
      reported as written as 120 mm. */
  lemma FrameLengthExample()
    ensures var e := EndSettings(0.0, 1, 5.0);
      FrameLengthAsWritten(PadLength(100.0, e, e), e, e) == 120.0 && FrameLength(PadLength(100.0, e, e), e, e) == 110.0
  {
  }

  // ---------------------------------------------------------------------------
  // Names

  datatype FrameError =
    | InvalidEdgeName(edgeName: string)  // `ValueError("Invalid edge name format ...")`
    | MissingObject(name: string)        // `getObject` found nothing and a later access fails
    | NotAFrame(name: string)            // an object under the frame's name has no proxy

  /** `sketch, sub = edgeName.split(':')`: exactly one `':'` separates the sketch's name
      from the edge's sub-element name. */
  function ParseEdgeName(edgeName: string): (r: Result<(string, string), FrameError>)
    ensures r.Ok? <==> CountChar(edgeName, ':') == 1
    ensures r.Err? ==> r.error == InvalidEdgeName(edgeName)
    ensures r.Ok? ==> edgeName == r.value.0 + ":" + r.value.1 && ':' !in r.value.0 && ':' !in r.value.1
  {
    SplitCount(edgeName, ':');
    var parts := Split(edgeName, ':');
    if |parts| != 2 then Err(InvalidEdgeName(edgeName))
    else
      OneSeparator(edgeName, ':');
      Ok((parts[0], parts[1]))
  }

  /** Parsing gives back the two names an edge reference was built from. */
  lemma ParseEdgeNameRoundTrip(sketch: string, sub: string)
    requires ':' !in sketch && ':' !in sub
    ensures ParseEdgeName(sketch + ":" + sub) == Ok((sketch, sub))
  {
    var s := sketch + ":" + sub;
    CountCharAppend(sketch, ":" + sub, ':');
    CountCharAppend(":", sub, ':');
    CountCharZero(sketch, ':');
    CountCharZero(sub, ':');
    assert s == sketch + [':'] + sub;
    SplitPrefix(sketch, sub, ':');
    SplitWhole(sub, ':');
  }

  /** `f'frame_{name.replace(":", "_")}'`: the name of the pad `pad` looks for. */
  function PadName(name: string): (n: string)
    ensures StartsWith(n, "frame_") && ':' !in n && |n| == 6 + |name|
  {
    ReplaceRemoves(name, ':', '_');
    "frame_" + Replace(name, ':', '_')
  }

  /** `f'Chamfer_{obj.Name}_L'` or `..._R`: the name the chamfer helpers derive their
      feature names from. */
  function EndName(frame: string, right: bool): string {
    "Chamfer_" + frame + (if right then "_R" else "_L")
  }

  function ExtensionPadLabel(name: string): string {
    "Chamfer_extend_" + name
  }

  function CuttingSketchName(name: string): string {
    "chamferCuttingSketch_" + name
  }

  function PocketName(name: string): string {
    "Chamfer_" + name
  }

  /** Objects created under these names (or a name that starts with one of them) are
      never the same object: the extension pad, the cutting sketch and the pocket of
      one end differ from each other and from the other end's. */
  lemma EndNamesDistinct(frame: string)
    ensures EndName(frame, false) != EndName(frame, true)
    ensures forall right: bool :: !StartsWith(CuttingSketchName(EndName(frame, right)), "frame_")
    ensures forall right: bool :: !StartsWith(PocketName(EndName(frame, right)), "frame_")
  {
    var l, r := EndName(frame, false), EndName(frame, true);
    assert l[|l| - 1] != r[|r| - 1];
    forall right: bool
      ensures !StartsWith(CuttingSketchName(EndName(frame, right)), "frame_")
      ensures !StartsWith(PocketName(EndName(frame, right)), "frame_")
    {
      assert CuttingSketchName(EndName(frame, right))[0] == 'c';
      assert PocketName(EndName(frame, right))[0] == 'C';
    }
  }

  /** The extension pad, the cutting sketch and the pocket of one end never share a
      name, whatever digits the document appended to make them unique. */
  lemma ChamferPartsDistinct(name: string, ext: string, cutting: string, pocket: string)
    requires StartsWith(ext, "frame_") && StartsWith(cutting, CuttingSketchName(name)) && StartsWith(pocket, PocketName(name))
    ensures ext != cutting && ext != pocket && cutting != pocket
  {
    assert ext[0] == 'f' && cutting[0] == 'c' && pocket[0] == 'C';
  }

  // ---------------------------------------------------------------------------
  // The chamfer cutting-sketch memo (chamfer_sketch_cache)

  /** What `chamfer_sketch_cache[right]` records: `(extended_length, width,
      baseFeature.Name, direction)` of the triangle last drawn. */
  datatype ChamferKey = ChamferKey(extendedLength: real, width: real, baseFeature: string, direction: int)

  /** One end as the memo sees it: the recorded key and the cutting sketch's geometry
      (`None` when the body holds no cutting sketch for the end). */
  datatype EndState = EndState(slot: Option<ChamferKey>, cutting: Option<seq<Segment>>)

  /** `create_chamfer`'s effect on the memo and the cutting sketch: the sketch is
      fetched or created empty; when the recorded key differs from `key` its geometry
      is cleared (only when a key was recorded), the triangle is drawn and the key is
      recorded. */
  function ChamferStep(s: EndState, key: ChamferKey, right: bool): EndState {
    var geometry := if s.cutting.Some? then s.cutting.value else [];
    if s.slot == Some(key) then EndState(s.slot, Some(geometry))
    else
      var kept := if s.slot.Some? then [] else geometry;
      EndState(Some(key), Some(kept + ChamferSegments(key.extendedLength, key.width, right)))
  }

  /** `clean_chamfer` as written: the cutting sketch is removed, the memo is kept. */
  function CleanStepAsWritten(s: EndState): EndState {
    EndState(s.slot, None)
  }

  /** `clean_chamfer` as intended: the cutting sketch is removed and the memo that
      describes it is forgotten. */
  function CleanStep(s: EndState): EndState {
    EndState(None, None)
  }

  /** The memo tells the truth: a recorded key means the cutting sketch holds exactly
      that key's triangle; no key means no sketch or an empty one. */
  predicate Coherent(s: EndState, right: bool) {
    match s.slot
    case Some(k) => s.cutting == Some(ChamferSegments(k.extendedLength, k.width, right))
    case None => s.cutting.None? || s.cutting == Some([])
  }

  /** After `create_chamfer` on a coherent end, the cutting sketch holds the triangle
      of the requested key and nothing else. */
  lemma ChamferStepDrawsKey(s: EndState, key: ChamferKey, right: bool)
    requires Coherent(s, right)
    ensures ChamferStep(s, key, right) == EndState(Some(key), Some(ChamferSegments(key.extendedLength, key.width, right)))
    ensures Coherent(ChamferStep(s, key, right), right)
  {
    var segments := ChamferSegments(key.extendedLength, key.width, right);
    assert [] + segments == segments;
  }

  /** The sketch is redrawn exactly when the key changed; with the same key a second
      `create_chamfer` leaves the end as it is. */
  lemma ChamferStepRedrawsIffKeyChanged(s: EndState, key: ChamferKey, right: bool)
    requires Coherent(s, right)
    ensures ChamferStep(s, key, right) == s <==> s.slot == Some(key)
  {
    ChamferStepDrawsKey(s, key, right);
  }

  /** The intended `clean_chamfer` keeps the memo truthful, so a chamfer switched off
      and on again is drawn again. */
  lemma CleanStepCoherent(s: EndState, key: ChamferKey, right: bool)
    ensures Coherent(CleanStep(s), right)
    ensures ChamferStep(CleanStep(s), key, right).cutting == Some(ChamferSegments(key.extendedLength, key.width, right))
  {
    ChamferStepDrawsKey(CleanStep(s), key, right);
  }

  /** As written, switching a chamfer off and on again with the same key leaves the
      re-created cutting sketch empty: the memo still holds the key, so nothing is
      drawn into the new sketch. */
  lemma StaleMemoLeavesSketchEmpty(key: ChamferKey, right: bool)
    ensures var drawn := ChamferStep(EndState(None, None), key, right);
      var again := ChamferStep(CleanStepAsWritten(drawn), key, right);
      again.cutting == Some([]) && !Coherent(again, right)
  {
    var drawn := ChamferStep(EndState(None, None), key, right);
    assert drawn.slot == Some(key);
  }
}
